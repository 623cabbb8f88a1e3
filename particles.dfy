/** A particle record and the per-channel modifier pipeline that initialises it
    at activation and advances it every frame. */
module Particles {

  import opened Options
  import opened Vectors

  /** One pooled particle. The scalar channels (alpha, atlas index, rotation and
      its derivatives) are single-component vectors in the source and are kept
      here as their one component; `alive` is stored there as 0 or 1. `scratch`
      is the particle's private temporary vector, which the colour channel and
      the default position and velocity updaters write. */
  datatype Particle = Particle(
    id: nat,
    age: real,
    alive: bool,
    lifeSpan: real,
    size: Vec3,
    color: Rgb,
    alpha: real,
    atlasIndex: real,
    position: Vec3,
    velocity: Vec3,
    acceleration: Vec3,
    rotation: real,
    rotationalSpeed: real,
    rotationalAcceleration: real,
    scratch: Vec3)

  /** A freshly constructed particle with the given id: not alive, colour white
      (the default of the colour type), everything else zero. */
  function NewParticle(id: nat): (p: Particle)
    ensures p.id == id && !p.alive && p.age == 0.0 && p.lifeSpan == 0.0
    ensures p.color == Rgb(1.0, 1.0, 1.0) && p.scratch == Zero
  {
    Particle(id, 0.0, false, 0.0, Zero, Rgb(1.0, 1.0, 1.0), 0.0, 0.0,
             Zero, Zero, Zero, 0.0, 0.0, 0.0, Zero)
  }

  /** The channels that carry an initializer and an updater each. */
  datatype Channel =
    | AtlasIndex | Size | Color | Alpha
    | Position | Velocity | Acceleration
    | Rotation | RotationalSpeed | RotationalAcceleration

  /** A modifier: one of the system's defaults, or a custom one that computes the
      new value of its target from the particle and the elapsed time (the
      first component only, for a scalar channel). */
  datatype Modifier =
    | DefaultInitializer
    | DefaultUpdater
    | DefaultPositionUpdater
    | DefaultVelocityUpdater
    | DefaultRotationUpdater
    | DefaultRotationalSpeedUpdater
    | Custom(compute: (Particle, real) -> Vec3)

  /** Stores `v` in the target of channel `c`. The colour channel's target is
      the scratch vector, which the pipeline copies into the colour afterwards. */
  function SetTarget(p: Particle, c: Channel, v: Vec3): Particle {
    match c
    case AtlasIndex => p.(atlasIndex := v.x)
    case Size => p.(size := v)
    case Color => p.(scratch := v)
    case Alpha => p.(alpha := v.x)
    case Position => p.(position := v)
    case Velocity => p.(velocity := v)
    case Acceleration => p.(acceleration := v)
    case Rotation => p.(rotation := v.x)
    case RotationalSpeed => p.(rotationalSpeed := v.x)
    case RotationalAcceleration => p.(rotationalAcceleration := v.x)
  }

  /** The fields that no modifier touches: identity, age, liveness, life span,
      and the colour itself (which only the pipeline's copy from the scratch
      vector sets). */
  predicate SameBookkeeping(p: Particle, q: Particle) {
    q.id == p.id && q.age == p.age && q.alive == p.alive && q.lifeSpan == p.lifeSpan && q.color == p.color
  }

  /** `modifier.update(particle, target, deltaTime)`. */
  function Apply(m: Modifier, p: Particle, target: Channel, dt: real): (q: Particle)
    ensures SameBookkeeping(p, q)
    ensures m.DefaultUpdater? ==> q == p
  {
    match m
    case DefaultInitializer => SetTarget(p, target, Zero)
    case DefaultUpdater => p
    case DefaultPositionUpdater =>
      var step := Scale(p.velocity, dt);
      p.(scratch := step, position := Add(p.position, step))
    case DefaultVelocityUpdater =>
      var step := Scale(p.acceleration, dt);
      p.(scratch := step, velocity := Add(p.velocity, step))
    case DefaultRotationUpdater =>
      p.(rotation := p.rotation + p.rotationalSpeed * dt)
    case DefaultRotationalSpeedUpdater =>
      p.(rotationalSpeed := p.rotationalSpeed + p.rotationalAcceleration * dt)
    case Custom(compute) => SetTarget(p, target, compute(p, dt))
  }

  /** An assignment of a modifier to every channel. */
  type Bindings = Channel -> Modifier

  /** Every initializer starts as the zeroing default. */
  function DefaultInitializers(): Bindings {
    (c: Channel) => DefaultInitializer
  }

  /** The default updaters: position, velocity, rotation and rotational speed
      integrate their derivative; every other channel keeps its value. */
  function DefaultUpdaters(): Bindings {
    (c: Channel) => match c
         case Position => DefaultPositionUpdater
         case Velocity => DefaultVelocityUpdater
         case Rotation => DefaultRotationUpdater
         case RotationalSpeed => DefaultRotationalSpeedUpdater
         case _ => DefaultUpdater
  }

  /** Binds `m` to the named channel; a missing (empty) name changes nothing. */
  function Rebind(b: Bindings, name: Option<Channel>, m: Modifier): (r: Bindings)
    ensures name.None? ==> r == b
    ensures name.Some? ==> r(name.value) == m
    ensures forall c :: name != Some(c) ==> r(c) == b(c)
  {
    match name
    case None => b
    case Some(n) => (c: Channel) => if c == n then m else b(c)
  }

  /** The colour stage AS WRITTEN: the modifier runs on the scratch vector, whose
      value is whatever the last writer left there, and the colour is then set
      from it. */
  function ColorStageAsWritten(m: Modifier, p: Particle, dt: real): (q: Particle)
    ensures q.color == RGB(q.scratch)
    ensures m.DefaultUpdater? ==> q == p.(color := RGB(p.scratch))
    ensures q.id == p.id && q.age == p.age && q.alive == p.alive && q.lifeSpan == p.lifeSpan
  {
    var q := Apply(m, p, Color, dt);
    q.(color := RGB(q.scratch))
  }

  /** The colour stage as intended: the scratch vector is loaded with the
      particle's colour before the modifier runs, so the default updater keeps
      the colour and the default initializer clears it. */
  function ColorStage(m: Modifier, p: Particle, dt: real): (q: Particle)
    ensures m.DefaultUpdater? ==> q.color == p.color
    ensures m.DefaultInitializer? ==> q.color == Rgb(0.0, 0.0, 0.0)
    ensures q.id == p.id && q.age == p.age && q.alive == p.alive && q.lifeSpan == p.lifeSpan
  {
    var q := Apply(m, p.(scratch := ColorVector(p.color)), Color, dt);
    q.(color := RGB(q.scratch))
  }

  /** One channel's turn: the modifier bound to the channel runs on its
      target; the colour channel goes through the colour stage. */
  function Stage(u: Bindings, c: Channel, p: Particle, dt: real): (q: Particle)
    ensures q.id == p.id && q.age == p.age && q.alive == p.alive && q.lifeSpan == p.lifeSpan
  {
    if c == Color then ColorStage(u(c), p, dt) else Apply(u(c), p, c, dt)
  }

  /** The display attributes, in the order the source runs their modifiers. */
  const DisplayChannels: seq<Channel> := [AtlasIndex, Size, Color, Alpha]

  /** The position chain, in the order the source runs its modifiers. */
  const PositionChannels: seq<Channel> := [Position, Velocity, Acceleration]

  /** The rotation chain, in the order the source runs its modifiers. */
  const RotationChannels: seq<Channel> := [Rotation, RotationalSpeed, RotationalAcceleration]

  /** The position chain, then the rotation chain. */
  const MotionChannels: seq<Channel> := PositionChannels + RotationChannels

  /** Every channel, display attributes first. */
  const ChannelOrder: seq<Channel> := DisplayChannels + MotionChannels

  /** The stages of the channels `cs`, in order. The particle is named in the
      decreases clause as well, so that the verifier unfolds the pipeline one
      stage at a time instead of all at once. */
  function Pipeline(u: Bindings, cs: seq<Channel>, p: Particle, dt: real): (q: Particle)
    ensures q.id == p.id && q.age == p.age && q.alive == p.alive && q.lifeSpan == p.lifeSpan
    decreases |cs|, p
  {
    if cs == [] then p else Pipeline(u, cs[1..], Stage(u, cs[0], p, dt), dt)
  }

  /** Running two lists of channels one after the other is running their
      concatenation. */
  lemma {:induction false} PipelineAppend(u: Bindings, a: seq<Channel>, b: seq<Channel>, p: Particle, dt: real)
    ensures Pipeline(u, a + b, p, dt) == Pipeline(u, b, Pipeline(u, a, p, dt), dt)
    decreases |a|
  {
    if a == [] {
      assert a + b == b;
    } else {
      assert (a + b)[1..] == a[1..] + b;
      PipelineAppend(u, a[1..], b, Stage(u, a[0], p, dt), dt);
    }
  }

  /** Three stages spelled out. */
  lemma PipelineOfThree(u: Bindings, a: Channel, b: Channel, c: Channel, p: Particle, dt: real)
    ensures Pipeline(u, [a, b, c], p, dt) == Stage(u, c, Stage(u, b, Stage(u, a, p, dt), dt), dt)
  {
    var p1 := Stage(u, a, p, dt);
    var p2 := Stage(u, b, p1, dt);
    assert [a, b, c][1..] == [b, c] && [b, c][1..] == [c] && [c][1..] == [];
    assert Pipeline(u, [c], p2, dt) == Stage(u, c, p2, dt);
    assert Pipeline(u, [b, c], p1, dt) == Pipeline(u, [c], p2, dt);
  }

  /** Four stages spelled out. */
  lemma PipelineOfFour(u: Bindings, a: Channel, b: Channel, c: Channel, d: Channel, p: Particle, dt: real)
    ensures Pipeline(u, [a, b, c, d], p, dt) == Stage(u, d, Stage(u, c, Stage(u, b, Stage(u, a, p, dt), dt), dt), dt)
  {
    assert [a, b, c, d][1..] == [b, c, d];
    PipelineOfThree(u, b, c, d, Stage(u, a, p, dt), dt);
  }

  /** The motion channels stage by stage: the position chain, then the
      rotation chain. */
  lemma MotionStages(u: Bindings, p: Particle, dt: real)
    ensures var m := Stage(u, Acceleration, Stage(u, Velocity, Stage(u, Position, p, dt), dt), dt);
            Pipeline(u, MotionChannels, p, dt)
            == Stage(u, RotationalAcceleration, Stage(u, RotationalSpeed, Stage(u, Rotation, m, dt), dt), dt)
  {
    PipelineAppend(u, PositionChannels, RotationChannels, p, dt);
    PipelineOfThree(u, Position, Velocity, Acceleration, p, dt);
    PipelineOfThree(u, Rotation, RotationalSpeed, RotationalAcceleration, Pipeline(u, PositionChannels, p, dt), dt);
  }

  /** Every channel stage by stage: the display attributes, then the motion
      channels. */
  lemma ChannelStages(u: Bindings, p: Particle, dt: real)
    ensures var d := Stage(u, Alpha, Stage(u, Color, Stage(u, Size, Stage(u, AtlasIndex, p, dt), dt), dt), dt);
            Pipeline(u, ChannelOrder, p, dt) == Pipeline(u, MotionChannels, d, dt)
  {
    PipelineAppend(u, DisplayChannels, MotionChannels, p, dt);
    PipelineOfFour(u, AtlasIndex, Size, Color, Alpha, p, dt);
  }

  /** `advanceParticle`: ages the particle by `dt`, then runs the updaters. Its
      identity, liveness and life span are untouched. */
  function AdvanceParticle(u: Bindings, p: Particle, dt: real): (q: Particle)
    ensures q.id == p.id && q.alive == p.alive && q.lifeSpan == p.lifeSpan
    ensures q.age == p.age + dt
  {
    Pipeline(u, ChannelOrder, p.(age := p.age + dt), dt)
  }

  /** `advanceParticle` as written, with the colour stage of the source. */
  function AdvanceParticleAsWritten(u: Bindings, p: Particle, dt: real): (q: Particle)
    ensures q.id == p.id && q.alive == p.alive && q.lifeSpan == p.lifeSpan
    ensures q.age == p.age + dt
  {
    var aged := p.(age := p.age + dt);
    var p1 := Apply(u(AtlasIndex), aged, AtlasIndex, dt);
    var p2 := Apply(u(Size), p1, Size, dt);
    var p3 := ColorStageAsWritten(u(Color), p2, dt);
    var p4 := Apply(u(Alpha), p3, Alpha, dt);
    Pipeline(u, MotionChannels, p4, dt)
  }

  /** `resetParticle`: age 0, not alive, then every initializer in the order of
      the updaters, each with elapsed time 0. */
  function ResetParticle(i: Bindings, p: Particle): (q: Particle)
    ensures q.id == p.id && q.lifeSpan == p.lifeSpan
    ensures q.age == 0.0 && !q.alive
  {
    Pipeline(i, ChannelOrder, p.(age := 0.0, alive := false), 0.0)
  }

  /** `activateParticle`: reset, then the configured life span and alive. */
  function ActivateParticle(i: Bindings, lifeSpan: real, p: Particle): (q: Particle)
    ensures q.id == p.id
    ensures q.age == 0.0 && q.alive && q.lifeSpan == lifeSpan
  {
    ResetParticle(i, p).(lifeSpan := lifeSpan, alive := true)
  }

  /** `killParticle`: marks the particle dead and changes nothing else. */
  function KillParticle(p: Particle): (q: Particle)
    ensures !q.alive
    ensures q.(alive := p.alive) == p
  {
    p.(alive := false)
  }

  /** One particle's share of `advanceParticles`: advance it, and kill it once
      its age has passed its life span. */
  function StepParticle(u: Bindings, p: Particle, dt: real): (q: Particle)
    ensures q.id == p.id && q.lifeSpan == p.lifeSpan && q.age == p.age + dt
    ensures q.alive <==> p.alive && p.age + dt <= p.lifeSpan
  {
    var advanced := AdvanceParticle(u, p, dt);
    if advanced.age > advanced.lifeSpan then KillParticle(advanced) else advanced
  }

  /** The default initializer zeroes whatever target it is given and nothing
      else; the colour channel's target is the scratch vector. */
  lemma DefaultInitializerZeroes(p: Particle, c: Channel, dt: real)
    ensures var q := Apply(DefaultInitializer, p, c, dt);
            && q.atlasIndex == (if c == AtlasIndex then 0.0 else p.atlasIndex)
            && q.size == (if c == Size then Zero else p.size)
            && q.scratch == (if c == Color then Zero else p.scratch)
            && q.alpha == (if c == Alpha then 0.0 else p.alpha)
            && q.position == (if c == Position then Zero else p.position)
            && q.velocity == (if c == Velocity then Zero else p.velocity)
            && q.acceleration == (if c == Acceleration then Zero else p.acceleration)
            && q.rotation == (if c == Rotation then 0.0 else p.rotation)
            && q.rotationalSpeed == (if c == RotationalSpeed then 0.0 else p.rotationalSpeed)
            && q.rotationalAcceleration == (if c == RotationalAcceleration then 0.0 else p.rotationalAcceleration)
            && q.id == p.id && q.age == p.age && q.alive == p.alive && q.lifeSpan == p.lifeSpan && q.color == p.color
  {
  }

  /** With the default initializers, a reset particle has every channel zero. */
  lemma DefaultResetZeroes(p: Particle)
    ensures var q := ResetParticle(DefaultInitializers(), p);
            && q.size == Zero && q.color == Rgb(0.0, 0.0, 0.0) && q.alpha == 0.0 && q.atlasIndex == 0.0
            && q.position == Zero && q.velocity == Zero && q.acceleration == Zero
            && q.rotation == 0.0 && q.rotationalSpeed == 0.0 && q.rotationalAcceleration == 0.0
  {
    var u := DefaultInitializers();
    var p0 := p.(age := 0.0, alive := false);
    ChannelStages(u, p0, 0.0);
    var d := Stage(u, Alpha, Stage(u, Color, Stage(u, Size, Stage(u, AtlasIndex, p0, 0.0), 0.0), 0.0), 0.0);
    MotionStages(u, d, 0.0);
  }

  /** With the default updaters a frame is one explicit Euler step: position
      moves by the velocity from BEFORE this frame's velocity update, velocity by
      the acceleration, rotation by the rotational speed from before its update,
      rotational speed by the rotational acceleration; every other channel keeps
      its value. */
  lemma DefaultAdvanceIntegrates(p: Particle, dt: real)
    ensures AdvanceParticle(DefaultUpdaters(), p, dt)
            == p.(age := p.age + dt,
                  position := Add(p.position, Scale(p.velocity, dt)),
                  velocity := Add(p.velocity, Scale(p.acceleration, dt)),
                  rotation := p.rotation + p.rotationalSpeed * dt,
                  rotationalSpeed := p.rotationalSpeed + p.rotationalAcceleration * dt,
                  scratch := Scale(p.acceleration, dt))
  {
    var u := DefaultUpdaters();
    var aged := p.(age := p.age + dt);
    ChannelStages(u, aged, dt);
    DefaultDisplayChain(aged, dt);
    var d := aged.(scratch := ColorVector(p.color));
    MotionStages(u, d, dt);
    var m3 := Stage(u, Acceleration, Stage(u, Velocity, Stage(u, Position, d, dt), dt), dt);
    DefaultPositionChain(d, dt);
    DefaultRotationChain(m3, dt);
  }

  /** The default display chain keeps every display attribute; only the
      scratch vector is left holding the colour. */
  lemma DefaultDisplayChain(p: Particle, dt: real)
    ensures var u := DefaultUpdaters();
            Stage(u, Alpha, Stage(u, Color, Stage(u, Size, Stage(u, AtlasIndex, p, dt), dt), dt), dt)
            == p.(scratch := ColorVector(p.color))
  {
    var u := DefaultUpdaters();
    assert u(AtlasIndex) == DefaultUpdater && u(Size) == DefaultUpdater;
    assert u(Color) == DefaultUpdater && u(Alpha) == DefaultUpdater;
  }

  /** The default position chain: position moves by the velocity, then
      velocity by the acceleration, which stays. */
  lemma DefaultPositionChain(p: Particle, dt: real)
    ensures var u := DefaultUpdaters();
            var q := Stage(u, Acceleration, Stage(u, Velocity, Stage(u, Position, p, dt), dt), dt);
            q == p.(scratch := Scale(p.acceleration, dt),
                    position := Add(p.position, Scale(p.velocity, dt)),
                    velocity := Add(p.velocity, Scale(p.acceleration, dt)))
  {
    var u := DefaultUpdaters();
    assert u(Position) == DefaultPositionUpdater && u(Velocity) == DefaultVelocityUpdater;
    assert u(Acceleration) == DefaultUpdater;
  }

  /** The default rotation chain: rotation moves by the rotational speed,
      then the speed by the rotational acceleration, which stays. */
  lemma DefaultRotationChain(p: Particle, dt: real)
    ensures var u := DefaultUpdaters();
            var q := Stage(u, RotationalAcceleration, Stage(u, RotationalSpeed, Stage(u, Rotation, p, dt), dt), dt);
            q == p.(rotation := p.rotation + p.rotationalSpeed * dt,
                    rotationalSpeed := p.rotationalSpeed + p.rotationalAcceleration * dt)
  {
    var u := DefaultUpdaters();
    assert u(Rotation) == DefaultRotationUpdater && u(RotationalSpeed) == DefaultRotationalSpeedUpdater;
    assert u(RotationalAcceleration) == DefaultUpdater;
  }

  /** The display chain as written, under the default updaters: the colour is
      set from the scratch vector and nothing else changes. */
  lemma DefaultDisplayChainAsWritten(p: Particle, dt: real)
    ensures var u := DefaultUpdaters();
            var p2 := Apply(u(Size), Apply(u(AtlasIndex), p, AtlasIndex, dt), Size, dt);
            Apply(u(Alpha), ColorStageAsWritten(u(Color), p2, dt), Alpha, dt) == p.(color := RGB(p.scratch))
  {
    var u := DefaultUpdaters();
    assert u(AtlasIndex) == DefaultUpdater && u(Size) == DefaultUpdater;
    assert u(Color) == DefaultUpdater && u(Alpha) == DefaultUpdater;
  }

  /** As written, under the default updaters, a frame is the same Euler step
      except that it sets the colour from the scratch vector as the previous
      frame left it, and leaves acceleration * dt there (written by the default
      velocity updater). */
  lemma DefaultAdvanceAsWrittenColor(p: Particle, dt: real)
    ensures AdvanceParticleAsWritten(DefaultUpdaters(), p, dt)
            == p.(age := p.age + dt,
                  color := RGB(p.scratch),
                  position := Add(p.position, Scale(p.velocity, dt)),
                  velocity := Add(p.velocity, Scale(p.acceleration, dt)),
                  rotation := p.rotation + p.rotationalSpeed * dt,
                  rotationalSpeed := p.rotationalSpeed + p.rotationalAcceleration * dt,
                  scratch := Scale(p.acceleration, dt))
  {
    var u := DefaultUpdaters();
    var aged := p.(age := p.age + dt);
    DefaultDisplayChainAsWritten(aged, dt);
    var p4 := aged.(color := RGB(p.scratch));
    MotionStages(u, p4, dt);
    DefaultPositionChain(p4, dt);
    var m3 := Stage(u, Acceleration, Stage(u, Velocity, Stage(u, Position, p4, dt), dt), dt);
    DefaultRotationChain(m3, dt);
  }

  /** The source's colour stage does not keep the colour under the default
      updater: after two frames with a constant acceleration, the colour holds
      the first frame's acceleration * dt. The intended stage keeps it white. */
  lemma ColorStageAsWrittenLeaksScratch()
    ensures var p := NewParticle(1).(alive := true, lifeSpan := 10.0, acceleration := Vec3(0.0, -1.0, 0.0));
            var u := DefaultUpdaters();
            && AdvanceParticleAsWritten(u, AdvanceParticleAsWritten(u, p, 1.0), 1.0).color == Rgb(0.0, -1.0, 0.0)
            && AdvanceParticle(u, AdvanceParticle(u, p, 1.0), 1.0).color == Rgb(1.0, 1.0, 1.0)
  {
    var p := NewParticle(1).(alive := true, lifeSpan := 10.0, acceleration := Vec3(0.0, -1.0, 0.0));
    var u := DefaultUpdaters();
    var first := AdvanceParticleAsWritten(u, p, 1.0);
    DefaultAdvanceAsWrittenColor(p, 1.0);
    DefaultAdvanceAsWrittenColor(first, 1.0);
    assert Scale(Vec3(0.0, -1.0, 0.0), 1.0) == Vec3(0.0, -1.0, 0.0);
    DefaultAdvanceIntegrates(p, 1.0);
    DefaultAdvanceIntegrates(AdvanceParticle(u, p, 1.0), 1.0);
  }

}
