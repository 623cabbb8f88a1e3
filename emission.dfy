/** Pool sizing and the emission controller of a particle system: how many
    particles the pool holds, and how many each frame asks to activate. */
module Emission {

  import opened Options

  /** The parameters a system is initialised with. `lifespan` is the life span
      of the system itself (0 means unlimited); `particleLifeSpan` that of each
      particle. */
  datatype Config = Config(
    zSort: bool,
    releaseAtOnce: bool,
    releaseAtOnceCount: real,
    particleReleaseRate: real,
    particleLifeSpan: real,
    lifespan: real)

  /** The values a system holds before any parameter is applied. */
  const DefaultConfig := Config(false, false, 0.0, 100.0, 1.0, 0.0)

  function Max(a: real, b: real): real { if a >= b then a else b }

  /** The life span the pool is sized for: the particle life span, or the
      system's own life span when that is set and shorter. */
  function MinLifeSpan(particleLifeSpan: real, lifespan: real): (m: real)
    ensures m == particleLifeSpan || (m == lifespan && lifespan != 0.0)
    ensures m <= particleLifeSpan
    ensures lifespan != 0.0 ==> m <= lifespan
  {
    if lifespan != 0.0 && lifespan < particleLifeSpan then lifespan else particleLifeSpan
  }

  /** `calculateMaxParticleCount`: a burst system holds exactly one burst; a
      continuous one holds twice what is released over the shortest life span,
      and at least one particle. */
  function MaxParticleCount(cfg: Config): (r: real)
    ensures cfg.releaseAtOnce ==> r == cfg.releaseAtOnceCount
    ensures !cfg.releaseAtOnce ==>
              var released := cfg.particleReleaseRate * MinLifeSpan(cfg.particleLifeSpan, cfg.lifespan) * 2.0;
              r >= 1.0 && r >= released && (r == 1.0 || r == released)
  {
    if cfg.releaseAtOnce then cfg.releaseAtOnceCount
    else Max(cfg.particleReleaseRate * MinLifeSpan(cfg.particleLifeSpan, cfg.lifespan) * 2.0, 1.0)
  }

  /** A real that is a whole, non-negative number, as an array length must be. */
  predicate IsCount(r: real) {
    r >= 0.0 && r.Floor as real == r
  }

  /** With nothing configured the pool holds 200 particles: 100 per second over
      a life span of one second, twice. */
  lemma DefaultCapacity()
    ensures MaxParticleCount(DefaultConfig) == 200.0
    ensures IsCount(MaxParticleCount(DefaultConfig)) && MaxParticleCount(DefaultConfig).Floor == 200
  {
  }

  /** `calculateAverageParticleLifeSpan`: the mean of one hundred copies of the
      particle life span, which is that life span. */
  method CalculateAverageParticleLifeSpan(particleLifeSpan: real) returns (average: real)
    ensures average == particleLifeSpan
  {
    var total := 0.0;
    var i := 0;
    while i < 100
      invariant 0 <= i <= 100
      invariant total == i as real * particleLifeSpan
    {
      total := total + particleLifeSpan;
      i := i + 1;
    }
    average := total / 100.0;
  }

  /** In continuous mode, whether more than one emission interval `1 / rate`
      has passed. A rate of zero makes the interval infinite. */
  predicate ContinuousDue(elapsed: real, rate: real) {
    rate != 0.0 && elapsed > 1.0 / rate
  }

  function Floor(r: real): int { r.Floor }

  /** The number of particles a continuous release asks for: the number of
      whole emission intervals elapsed, and at least one. With a rate of zero
      the quotient by the infinite interval is zero, so this is one. */
  function ReleaseCount(elapsed: real, rate: real): (n: int)
    ensures n >= 1
    ensures rate != 0.0 ==> n == (if Floor(elapsed * rate) >= 1 then Floor(elapsed * rate) else 1)
  {
    if rate == 0.0 then 1
    else
      var exact := elapsed / (1.0 / rate);
      assert exact == elapsed * rate;
      if Floor(exact) >= 1 then Floor(exact) else 1
  }

  /** More than one interval `1 / rate` means more than one interval's worth
      of particles, `elapsed * rate > 1`. */
  lemma MoreThanOneInterval(elapsed: real, rate: real)
    requires rate > 0.0 && elapsed > 1.0 / rate
    ensures elapsed * rate > 1.0
  {
    var interval := 1.0 / rate;
    var one := interval * rate;
    var released := elapsed * rate;
    assert one == 1.0;
    assert released > one;
  }

  /** `n` whole particles' worth fit in `elapsed` exactly when `n` intervals
      do: from `n <= elapsed * rate` follows `n * (1 / rate) <= elapsed`, and
      likewise strictly. */
  lemma IntervalsElapsed(n: real, elapsed: real, rate: real)
    requires rate > 0.0 && n <= elapsed * rate < n + 1.0
    ensures n * (1.0 / rate) <= elapsed < (n + 1.0) * (1.0 / rate)
  {
    var interval := 1.0 / rate;
    var one := interval * rate;
    assert one == 1.0;
    var back := elapsed * rate * interval;
    assert back == elapsed * one;
    assert n * interval <= back;
    assert back < (n + 1.0) * interval;
  }

  /** A due continuous release asks for exactly as many particles as whole
      emission intervals have elapsed since the last one. */
  lemma ReleaseCountIsWholeIntervals(elapsed: real, rate: real)
    requires rate > 0.0 && ContinuousDue(elapsed, rate)
    ensures var n := ReleaseCount(elapsed, rate);
            n as real * (1.0 / rate) <= elapsed < (n + 1) as real * (1.0 / rate)
  {
    MoreThanOneInterval(elapsed, rate);
    var n := ReleaseCount(elapsed, rate);
    assert n == Floor(elapsed * rate);
    IntervalsElapsed(n as real, elapsed, rate);
  }

  /** What one frame of the emission controller decides: the number of
      particles it asks the pool to activate, if any, and the new emission
      timer and initial-release flag. */
  datatype Emission = Emission(request: Option<int>, timer: real, released: bool)

  /** The emission part of `update` while the system is emitting. The timer
      first advances by `deltaTime`. A burst system asks for the whole pool on
      its first frame, and again once the wait of one average life span has
      passed with no live particle left; a continuous system asks on its first
      frame and whenever an emission interval has passed. Every release resets
      the timer, however many particles the pool can actually supply. */
  function EmissionStep(cfg: Config, averageLifeSpan: real, capacity: nat, liveCount: nat,
                        timer: real, released: bool, deltaTime: real): (e: Emission)
    ensures e.request.Some? ==> e.timer == 0.0 && e.released
    ensures e.request.None? ==> e.timer == timer + deltaTime && e.released == released
    ensures !released ==> e.request.Some?
    ensures cfg.releaseAtOnce ==>
              && (e.request.Some? <==> !released || (timer + deltaTime > averageLifeSpan && liveCount == 0))
              && (e.request.Some? ==> e.request.value == capacity)
    ensures !cfg.releaseAtOnce ==>
              && (e.request.Some? <==> !released || ContinuousDue(timer + deltaTime, cfg.particleReleaseRate))
              && (e.request.Some? ==> e.request.value == ReleaseCount(timer + deltaTime, cfg.particleReleaseRate))
  {
    var elapsed := timer + deltaTime;
    if cfg.releaseAtOnce then
      if !released || (elapsed > averageLifeSpan && liveCount <= 0) then Emission(Some(capacity), 0.0, true)
      else Emission(None, elapsed, released)
    else
      if !released || ContinuousDue(elapsed, cfg.particleReleaseRate) then
        Emission(Some(ReleaseCount(elapsed, cfg.particleReleaseRate)), 0.0, true)
      else Emission(None, elapsed, released)
  }

  /** A burst system never re-releases while any particle of the last burst is
      still alive. */
  lemma BurstWaitsForEmptyPool(cfg: Config, averageLifeSpan: real, capacity: nat, liveCount: nat,
                               timer: real, deltaTime: real)
    requires cfg.releaseAtOnce && liveCount > 0
    ensures EmissionStep(cfg, averageLifeSpan, capacity, liveCount, timer, true, deltaTime).request.None?
  {
  }

  /** At 10 particles per second, a frame that brings the timer to half a
      second asks for 5 particles. */
  lemma ContinuousReleaseExample()
    ensures EmissionStep(DefaultConfig.(particleReleaseRate := 10.0), 1.0, 20, 3, 0.4, true, 0.1)
            == Emission(Some(5), 0.0, true)
  {
    assert ContinuousDue(0.5, 10.0);
    assert Floor(0.5 * 10.0) == 5;
  }

  /** The lifespan cutoff at the end of `update`: the system stops emitting,
      for good, once its age has passed a nonzero lifespan. */
  function StillEmitting(emitting: bool, age: real, lifespan: real): (r: bool)
    ensures r ==> emitting
    ensures r <==> emitting && (lifespan == 0.0 || age <= lifespan)
  {
    if lifespan != 0.0 && age > lifespan then false else emitting
  }

}
