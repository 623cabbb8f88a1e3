/** The particle system: a fixed pool of particles split into a live and a
    dead array, the emission controller that moves particles from one to the
    other, the per-frame simulation, the optional depth sort, and the vertex
    writer that feeds the mesh. */
module ParticleSystems {

  import opened Options
  import opened Vectors
  import opened Sequences
  import opened Particles
  import opened ParticleSeqs
  import opened DepthSort
  import opened Emission
  import opened TextureAtlas
  import opened VertexBuffers

  /** The global particle counter: every constructed particle takes the next
      id, starting from 1. */
  class IdCounter {
    var last: nat

    constructor ()
      ensures last == 0
    {
      last := 0;
    }

    method Next() returns (id: nat)
      modifies this
      ensures id == old(last) + 1 && last == id
    {
      last := last + 1;
      id := last;
    }
  }

  /** The key the depth sort orders particles by, from an abstract depth of
      their position (the projected z coordinate). */
  function DepthKey(depth: Vec3 -> real): Particle -> real {
    (q: Particle) => depth(q.position)
  }

  /** The `n` particles `initializeParticleArray` creates after the counter
      stood at `last`: consecutive new identities, each particle reset by the
      initializers, so none is alive. */
  function FreshPool(initializers: Bindings, last: nat, n: nat): (r: seq<Particle>)
    ensures |r| == n
    ensures forall j :: 0 <= j < n ==> r[j].id == last + j + 1 && !r[j].alive
    ensures forall j :: 0 <= j < n ==> r[j].age == 0.0 && r[j].lifeSpan == 0.0
  {
    if n == 0 then [] else FreshPool(initializers, last, n - 1) + [ResetParticle(initializers, NewParticle(last + n))]
  }

  /** The `j`-th fresh particle is the new particle with id `last + j + 1`,
      reset by the initializers. */
  lemma {:induction false} FreshPoolAt(initializers: Bindings, last: nat, n: nat, j: nat)
    requires j < n
    ensures FreshPool(initializers, last, n)[j] == ResetParticle(initializers, NewParticle(last + j + 1))
    decreases n
  {
    if j < n - 1 {
      FreshPoolAt(initializers, last, n - 1, j);
    }
  }

  /** The particles `activateParticles` takes from the top of the dead
      stack `pool` in `k` rounds: the `j`-th is the `j`-th particle from the
      top, reset by the initializers and brought to life with `lifeSpan`. */
  function Activations(initializers: Bindings, lifeSpan: real, pool: seq<Particle>, k: nat): (r: seq<Particle>)
    requires k <= |pool|
    ensures |r| == k
    ensures forall j :: 0 <= j < k ==> r[j] == ActivateParticle(initializers, lifeSpan, pool[|pool| - 1 - j])
  {
    seq(k, j requires 0 <= j < k => ActivateParticle(initializers, lifeSpan, pool[|pool| - 1 - j]))
  }

  /** The particles activated from the top of the dead stack, together with
      the dead particles left under them, hold the identities the stack held. */
  lemma ActivationsKeepIds(initializers: Bindings, lifeSpan: real, pool: seq<Particle>, k: nat)
    requires k <= |pool|
    ensures multiset(Ids(Activations(initializers, lifeSpan, pool, k))) + multiset(Ids(pool[..|pool| - k]))
            == multiset(Ids(pool))
  {
    var acts := Activations(initializers, lifeSpan, pool, k);
    var rest, top := pool[..|pool| - k], pool[|pool| - k..];
    assert forall j :: 0 <= j < k ==> Ids(acts)[j] == Ids(top)[k - 1 - j];
    ReversalPermutes(Ids(acts), Ids(top));
    assert pool == rest + top;
    IdsAppend(rest, top);
  }

  /** Moving `k` particles from the top of the dead stack to the end of the
      live list, activated, keeps the pool's identities, leaves every live
      particle alive and every dead one dead. */
  lemma PooledActivations(initializers: Bindings, lifeSpan: real, live: seq<Particle>,
                          dead: seq<Particle>, members: multiset<nat>, k: nat,
                          live': seq<Particle>, dead': seq<Particle>)
    requires Pooled(live, dead, members) && AllAlive(live) && k <= |dead|
    requires live' == live + Activations(initializers, lifeSpan, dead, k)
    requires dead' == dead[..|dead| - k]
    ensures Pooled(live', dead', members) && AllAlive(live')
  {
    var acts := Activations(initializers, lifeSpan, dead, k);
    ActivationsKeepIds(initializers, lifeSpan, dead, k);
    assert AllAlive(acts);
    IdsAppend(live, acts);
  }

  /** The loop of `initializeParticleArray`: every slot of `pool` gets a newly
      created particle, with the next id, reset by the initializers. */
  method FillPool(pool: array<Particle>, initializers: Bindings, ids: IdCounter)
    modifies pool, ids
    ensures ids.last == old(ids.last) + pool.Length
    ensures pool[..] == FreshPool(initializers, old(ids.last), pool.Length)
  {
    var i := 0;
    while i < pool.Length
      invariant 0 <= i <= pool.Length
      invariant ids.last == old(ids.last) + i
      invariant pool[..i] == FreshPool(initializers, old(ids.last), i)
    {
      var id := ids.Next();
      pool[i] := ResetParticle(initializers, NewParticle(id));
      assert pool[..i + 1] == pool[..i] + [pool[i]];
      i := i + 1;
    }
  }

  /** The number of particles `activateParticles(count)` moves: as many as
      asked, but no more than the dead array holds or the live array has room
      for, and none for a non-positive request. */
  function ActivationCount(count: int, available: nat, room: nat): (k: nat)
    ensures k <= available && k <= room && k <= (if count > 0 then count else 0)
    ensures count <= 0 ==> k == 0
    ensures count > 0 ==> k == count || k == available || k == room
  {
    if count <= 0 then 0
    else if count <= available && count <= room then count
    else if available <= room then available
    else room
  }

  /** The loop of `activateParticles` on the live array `live`, holding `n`
      particles, and the dead stack `dead`, holding `d`: up to `count` times,
      while the live array has room and a dead particle is left, the top dead
      particle is activated and appended to the live ones. */
  method ActivateFromPool(live: array<Particle>, n: nat, dead: array<Particle>, d: nat, count: int,
                          initializers: Bindings, lifeSpan: real) returns (n': nat, d': nat)
    requires live != dead && n <= live.Length && d <= dead.Length
    modifies live
    ensures n' - n == ActivationCount(count, d, live.Length - n) && d' == d - (n' - n)
    ensures live[..n'] == old(live[..n]) + Activations(initializers, lifeSpan, dead[..d], n' - n)
    ensures forall k :: n' <= k < live.Length ==> live[k] == old(live[k])
  {
    ghost var live0, pool := live[..n], dead[..d];
    n', d' := n, d;
    var i := 0;
    while i < count
      invariant 0 <= i <= (if count > 0 then count else 0)
      invariant n' == n + i <= live.Length && d' == d - i >= 0
      invariant live[..n] == live0
      invariant forall k :: n <= k < n' ==> live[k] == ActivateParticle(initializers, lifeSpan, pool[|pool| - 1 - (k - n)])
      invariant forall k :: n' <= k < live.Length ==> live[k] == old(live[k])
      decreases count - i
    {
      if n' < live.Length && d' > 0 {
        live[n'] := ActivateParticle(initializers, lifeSpan, dead[d' - 1]);
        d', n' := d' - 1, n' + 1;
      } else {
        break;
      }
      i := i + 1;
    }
    assert live[..n'] == live0 + Activations(initializers, lifeSpan, pool, i);
  }

  /** The depths of the particles' positions ascend. */
  ghost predicate DepthAscending(depth: Vec3 -> real, s: seq<Particle>) {
    forall i, j :: 0 <= i < j < |s| ==> depth(s[i].position) <= depth(s[j].position)
  }

  /** `sortParticleArray`'s result: the particles rearranged so that the
      depths of their positions ascend, those of equal depth in their old
      order. */
  function DepthSorted(depth: Vec3 -> real, s: seq<Particle>): (r: seq<Particle>)
    ensures multiset(r) == multiset(s)
    ensures DepthAscending(depth, r)
  {
    SortBy(DepthKey(depth), s)
  }

  /** Sorting the live particles by depth keeps the pool's identities and
      leaves every live particle alive. */
  lemma PooledSorted(depth: Vec3 -> real, live: seq<Particle>, dead: seq<Particle>, members: multiset<nat>)
    requires Pooled(live, dead, members) && AllAlive(live)
    ensures Pooled(DepthSorted(depth, live), dead, members) && AllAlive(DepthSorted(depth, live))
  {
    var sorted := DepthSorted(depth, live);
    PooledRearrange(live, dead, sorted, dead, members);
    AllAliveRearranged(live, sorted);
  }

  /** The particles after `activateParticles(count)` on the live particles
      `live0` and the dead stack `dead0` of a pool of `capacity`: the top
      ActivationCount particles of the dead stack, activated, follow the live
      ones, and the rest of the stack stays as it was. */
  ghost predicate Activated(initializers: Bindings, lifeSpan: real, capacity: nat, count: int,
                            live0: seq<Particle>, dead0: seq<Particle>, live: seq<Particle>, dead: seq<Particle>)
  {
    var k := ActivationCount(count, |dead0|, if |live0| <= capacity then capacity - |live0| else 0);
    live == live0 + Activations(initializers, lifeSpan, dead0, k) && dead == dead0[..|dead0| - k]
  }

  lemma ActivatedBy(initializers: Bindings, lifeSpan: real, capacity: nat, count: int,
                    live0: seq<Particle>, dead0: seq<Particle>, live: seq<Particle>, dead: seq<Particle>, k: nat)
    requires |live0| <= capacity
    requires k == ActivationCount(count, |dead0|, capacity - |live0|)
    requires live == live0 + Activations(initializers, lifeSpan, dead0, k) && dead == dead0[..|dead0| - k]
    ensures Activated(initializers, lifeSpan, capacity, count, live0, dead0, live, dead)
  {
  }

  /** The particles after the emission part of a frame whose controller
      decided `e`: unchanged without a request, activated as above with one. */
  ghost predicate Emitted(initializers: Bindings, lifeSpan: real, capacity: nat, e: Emission,
                          live0: seq<Particle>, dead0: seq<Particle>, live: seq<Particle>, dead: seq<Particle>)
  {
    match e.request
    case None => live == live0 && dead == dead0
    case Some(count) => Activated(initializers, lifeSpan, capacity, count, live0, dead0, live, dead)
  }

  /** Emission keeps the pool: the same identities, every live particle
      alive, no dead one alive, no more live particles than the capacity, and
      a request asks for no more than it gets only when the pool runs short. */
  lemma EmittedKeepsPool(initializers: Bindings, lifeSpan: real, capacity: nat, e: Emission,
                         live0: seq<Particle>, dead0: seq<Particle>, live: seq<Particle>, dead: seq<Particle>,
                         members: multiset<nat>)
    requires Pooled(live0, dead0, members) && AllAlive(live0) && |live0| <= capacity
    requires Emitted(initializers, lifeSpan, capacity, e, live0, dead0, live, dead)
    ensures Pooled(live, dead, members) && AllAlive(live)
    ensures |live| + |dead| == |live0| + |dead0| && |live0| <= |live| <= capacity
    ensures e.request.Some? && |live| < |live0| + e.request.value ==> dead == [] || |live| == capacity
  {
    if e.request.Some? {
      var k := ActivationCount(e.request.value, |dead0|, capacity - |live0|);
      PooledActivations(initializers, lifeSpan, live0, dead0, members, k, live, dead);
    }
  }

  /** After a frame, `live` and the part of `dead` above the old stack
      `dead0` hold exactly the alive and the dead ones of the stepped
      particles, in some order, and the old stack is untouched. */
  ghost predicate Survivors(u: Bindings, dt: real, live0: seq<Particle>, dead0: seq<Particle>,
                            live: seq<Particle>, dead: seq<Particle>)
  {
    Compacted(Steps(u, live0, dt), dead0, live, dead)
  }

  /** A frame loses and invents no particle, and every survivor is alive and
      within its life span. */
  lemma SurvivorsKeepParticles(u: Bindings, dt: real, live0: seq<Particle>, dead0: seq<Particle>,
                               live: seq<Particle>, dead: seq<Particle>)
    requires Survivors(u, dt, live0, dead0, live, dead)
    ensures multiset(live) + multiset(dead) == multiset(Steps(u, live0, dt)) + multiset(dead0)
    ensures |live| + |dead| == |live0| + |dead0|
    ensures forall i :: 0 <= i < |live| ==> live[i].alive && live[i].age <= live[i].lifeSpan
  {
    var stepped := Steps(u, live0, dt);
    SplitIsPartition(stepped);
    assert dead == dead0 + dead[|dead0|..];
    assert multiset(dead) == multiset(dead0) + multiset(dead[|dead0|..]);
    assert |multiset(live) + multiset(dead)| == |multiset(stepped) + multiset(dead0)|;
    StepsWithinLifeSpan(u, live0, dt, live);
  }

  /** `advanceParticles`' result: the survivors of one frame, and, when
      nobody died, the stepped particles themselves, in their order, with the
      dead stack unchanged. */
  ghost predicate Advanced(u: Bindings, dt: real, live0: seq<Particle>, dead0: seq<Particle>,
                           live: seq<Particle>, dead: seq<Particle>)
  {
    && Survivors(u, dt, live0, dead0, live, dead)
    && (AllAlive(Steps(u, live0, dt)) ==> live == Steps(u, live0, dt) && dead == dead0)
  }

  /** The particle part of a frame: the survivors of one step, sorted by
      depth when `zSort` is set; when nobody died they are the stepped
      particles, in their order or sorted, and the dead stack is unchanged. */
  ghost predicate Simulated(u: Bindings, dt: real, zSort: bool, depth: Vec3 -> real,
                            live0: seq<Particle>, dead0: seq<Particle>, live: seq<Particle>, dead: seq<Particle>)
  {
    match zSort
    case true =>
      && Survivors(u, dt, live0, dead0, live, dead)
      && DepthAscending(depth, live)
      && (AllAlive(Steps(u, live0, dt)) ==> dead == dead0 && live == DepthSorted(depth, Steps(u, live0, dt)))
    case false =>
      Advanced(u, dt, live0, dead0, live, dead)
  }

  /** Sorting the result of a step, when `zSort` asks for it, gives the
      particle part of a frame. */
  lemma SimulatedOfAdvanced(u: Bindings, dt: real, zSort: bool, depth: Vec3 -> real,
                            live0: seq<Particle>, dead0: seq<Particle>, mid: seq<Particle>, dead: seq<Particle>)
    requires Advanced(u, dt, live0, dead0, mid, dead)
    ensures Simulated(u, dt, zSort, depth, live0, dead0, if zSort then DepthSorted(depth, mid) else mid, dead)
  {
  }

  /** The termination measure of the partition loop of
      `cleanupDeadParticles`: the distance between the two cursors, plus one
      for each cursor that still has to move. */
  function PartitionMeasure(s: seq<Particle>, top: int, bottom: int): nat {
    if 0 <= bottom < top < |s| then
      top - bottom + (if s[top].alive then 1 else 0) + (if s[bottom].alive then 0 else 1)
    else 0
  }

  /** The first inner loop of `cleanupDeadParticles`: from `top` down to the
      nearest alive particle, stopping at index 0. */
  method SkipDead(a: array<Particle>, top: int) returns (t: int)
    requires 0 <= top < a.Length
    ensures 0 <= t <= top
    ensures a[t].alive || t == 0
    ensures forall i :: t < i <= top ==> !a[i].alive
  {
    t := top;
    while !a[t].alive && t > 0
      invariant 0 <= t <= top
      invariant forall i :: t < i <= top ==> !a[i].alive
    {
      t := t - 1;
    }
  }

  /** The second inner loop: from `bottom` up to the nearest dead particle,
      stopping at index `last`. */
  method SkipAlive(a: array<Particle>, bottom: int, last: int) returns (b: int)
    requires 0 <= bottom <= last < a.Length
    ensures bottom <= b <= last
    ensures !a[b].alive || b == last
    ensures forall i :: bottom <= i < b ==> a[i].alive
  {
    b := bottom;
    while a[b].alive && b < last
      invariant bottom <= b <= last
      invariant forall i :: bottom <= i < b ==> a[i].alive
    {
      b := b + 1;
    }
  }

  /** Exchanges `a[i]` and `a[j]`, which rearranges the first `n` entries and
      leaves the rest alone. */
  method Swap(a: array<Particle>, n: nat, i: nat, j: nat)
    requires i < n && j < n && n <= a.Length
    modifies a
    ensures a[i] == old(a[j]) && a[j] == old(a[i])
    ensures forall k :: 0 <= k < a.Length && k != i && k != j ==> a[k] == old(a[k])
    ensures multiset(a[..n]) == multiset(old(a[..n]))
    ensures a[n..] == old(a[n..])
  {
    ghost var s := a[..n];
    a[i], a[j] := a[j], a[i];
    assert a[..n] == s[i := s[j]][j := s[i]];
    SwapPermutes(s, i, j);
  }

  /** The first loop of `cleanupDeadParticles`: `topAlive` walks down past
      dead particles, `bottomDead` walks up past live ones, and the two found
      are swapped, until the cursors meet. The first `n` entries are then
      rearranged so that the alive ones come first. */
  method PartitionLive(a: array<Particle>, n: nat) returns (ghost m: nat)
    requires n <= a.Length
    modifies a
    ensures m <= n
    ensures multiset(a[..n]) == multiset(old(a[..n]))
    ensures a[n..] == old(a[n..])
    ensures forall i :: 0 <= i < m ==> a[i].alive
    ensures forall i :: m <= i < n ==> !a[i].alive
  {
    var topAlive: int := n - 1;
    var bottomDead: int := 0;
    while topAlive > bottomDead
      invariant -1 <= topAlive < n
      invariant 0 <= bottomDead <= (if n == 0 then 0 else n - 1)
      invariant n == 0 ==> topAlive == -1
      invariant forall i :: topAlive < i < n ==> !a[i].alive
      invariant forall i :: 0 <= i < bottomDead ==> a[i].alive
      invariant multiset(a[..n]) == multiset(old(a[..n]))
      invariant a[n..] == old(a[n..])
      decreases PartitionMeasure(a[..n], topAlive, bottomDead)
    {
      ghost var top0, bottom0, s0 := topAlive, bottomDead, a[..n];
      topAlive := SkipDead(a, topAlive);
      bottomDead := SkipAlive(a, bottomDead, n - 1);
      if topAlive <= bottomDead {
        break;
      }
      assert a[topAlive].alive && !a[bottomDead].alive;
      assert topAlive - bottomDead < PartitionMeasure(s0, top0, bottom0);
      Swap(a, n, bottomDead, topAlive);
    }
    if topAlive < bottomDead {
      m := topAlive + 1;
    } else {
      m := if a[topAlive].alive then topAlive + 1 else topAlive;
    }
  }

  /** The second loop of `cleanupDeadParticles`: with the first `n` entries
      of `live` alive before index `m` and dead from there on, dead entries are
      moved from the end of `live` onto `dead` (which holds `d` entries) until
      the last live entry is alive. The new counts are returned. */
  method PopDead(live: array<Particle>, n: nat, dead: array<Particle>, d: nat, ghost m: nat)
      returns (n': nat, d': nat)
    requires live != dead && n <= live.Length && n + d <= dead.Length
    requires m <= n
    requires forall i :: 0 <= i < m ==> live[i].alive
    requires forall i :: m <= i < n ==> !live[i].alive
    requires NoneAlive(dead[..d])
    modifies dead
    ensures n' == m && d' == d + (n - m)
    ensures forall k :: 0 <= k < d ==> dead[k] == old(dead[k])
    ensures forall k :: d' <= k < dead.Length ==> dead[k] == old(dead[k])
    ensures multiset(dead[..d']) == multiset(old(dead[..d])) + multiset(live[m..n])
    ensures NoneAlive(dead[..d'])
    ensures dead[..d'][..d] == old(dead[..d])
  {
    n', d' := n, d;
    while n' > 0 && !live[n' - 1].alive
      invariant m <= n' <= n && d' == d + (n - n')
      invariant forall k :: 0 <= k < d ==> dead[k] == old(dead[k])
      invariant forall k :: d' <= k < dead.Length ==> dead[k] == old(dead[k])
      invariant forall k :: d <= k < d' ==> dead[k] == live[n + d - 1 - k]
    {
      dead[d'] := live[n' - 1];
      d', n' := d' + 1, n' - 1;
    }
    ReversalPermutes(dead[d..d'], live[m..n]);
    assert dead[..d'] == dead[..d] + dead[d..d'];
    assert dead[..d] == old(dead[..d]);
  }

  /** Both loops of `cleanupDeadParticles` on the first `n` entries of `live`
      and the first `d` of `dead`: afterwards the live prefix holds exactly
      the alive particles, the dead ones follow the old dead prefix, and the
      identities held by the two prefixes are those held before. */
  method CompactLive(live: array<Particle>, n: nat, dead: array<Particle>, d: nat, ghost members: multiset<nat>)
      returns (n': nat, d': nat)
    requires live != dead && n <= live.Length && n + d <= dead.Length
    requires Pooled(live[..n], dead[..d], members)
    modifies live, dead
    ensures n' + d' == n + d && n' <= n
    ensures AllAlive(live[..n']) && Pooled(live[..n'], dead[..d'], members)
    ensures dead[..d'][..d] == old(dead[..d])
    ensures multiset(live[..n']) + multiset(dead[..d']) == multiset(old(live[..n])) + multiset(old(dead[..d]))
  {
    ghost var live0, dead0 := live[..n], dead[..d];
    ghost var m := PartitionLive(live, n);
    ghost var parted := live[..n];
    n', d' := PopDead(live, n, dead, d, m);
    assert live[..n'] == parted[..m] && live[m..n] == parted[m..];
    PartitionKeepsPool(live0, dead0, parted, m, dead[..d'], members);
  }

  /** The first loop of `sortParticleArray`: the first `n` particles of `a`,
      each keyed by the depth of its position, with its index. */
  method KeyByDepth(a: array<Particle>, n: nat, depth: Vec3 -> real) returns (keyed: seq<Keyed>)
    requires n <= a.Length
    ensures keyed == KeyedBy(DepthKey(depth), a[..n])
  {
    keyed := [];
    var p := 0;
    while p < n
      invariant 0 <= p <= n
      invariant keyed == KeyedBy(DepthKey(depth), a[..p])
    {
      keyed := keyed + [Keyed(depth(a[p].position), p)];
      p := p + 1;
    }
  }

  /** The second loop of `sortParticleArray`: the first `n` entries of `dst`
      become those of `src` in the order `order` names them. */
  method GatherInto(src: array<Particle>, dst: array<Particle>, n: nat, order: seq<Keyed>)
    requires src != dst && n <= src.Length && n <= dst.Length
    requires |order| == n && IndicesIn(order, src[..n])
    modifies dst
    ensures dst[..n] == Gather(src[..n], order)
    ensures forall k :: n <= k < dst.Length ==> dst[k] == old(dst[k])
  {
    var p := 0;
    while p < n
      invariant 0 <= p <= n
      invariant forall k :: 0 <= k < p ==> dst[k] == src[order[k].index]
      invariant forall k :: n <= k < dst.Length ==> dst[k] == old(dst[k])
    {
      dst[p] := src[order[p].index];
      p := p + 1;
    }
  }

  /** `sortParticleArray` on the first `n` particles of `src`: keyed by
      depth, sorted, and gathered into `dst`; the rest of `dst` is kept. */
  method SortInto(src: array<Particle>, dst: array<Particle>, n: nat, depth: Vec3 -> real)
    requires src != dst && n <= src.Length && n <= dst.Length
    modifies dst
    ensures dst[..n] == DepthSorted(depth, src[..n])
    ensures forall k :: n <= k < dst.Length ==> dst[k] == old(dst[k])
  {
    var keyed := KeyByDepth(src, n, depth);
    var sorted := SortByKey(keyed);
    KeyedSortIsSortBy(DepthKey(depth), src[..n]);
    GatherInto(src, dst, n, sorted);
  }

  /** The loop of `advanceParticles` on the first `n` particles of `a`: each
      advanced and, once its age has passed its life span, killed;
      `deadCount` is the number killed and the rest of `a` is kept. */
  method StepAll(a: array<Particle>, n: nat, updaters: Bindings, deltaTime: real) returns (deadCount: nat)
    requires n <= a.Length && AllAlive(a[..n])
    modifies a
    ensures a[..n] == Steps(updaters, old(a[..n]), deltaTime)
    ensures forall k :: n <= k < a.Length ==> a[k] == old(a[k])
    ensures deadCount == 0 <==> AllAlive(a[..n])
  {
    ghost var s0 := a[..n];
    assert forall k :: 0 <= k < n ==> s0[k].alive;
    deadCount := 0;
    var i := 0;
    while i < n
      invariant 0 <= i <= n
      invariant forall k :: 0 <= k < i ==> a[k] == StepParticle(updaters, s0[k], deltaTime)
      invariant forall k :: i <= k < a.Length ==> a[k] == old(a[k])
      invariant deadCount == 0 <==> AllAlive(a[..i])
    {
      var particle := AdvanceParticle(updaters, a[i], deltaTime);
      if particle.age > particle.lifeSpan {
        particle := KillParticle(particle);
        deadCount := deadCount + 1;
      }
      assert particle == StepParticle(updaters, s0[i], deltaTime);
      a[i] := particle;
      assert a[..i + 1] == a[..i] + [particle];
      i := i + 1;
    }
    assert a[..n] == a[..i];
  }

  class ParticleSystem {
    const config: Config
    const maxParticleCount: nat
    const averageParticleLifeSpan: real
    const atlas: Atlas
    const geometry: Geometry

    var liveParticleArray: array<Particle>
    var tempParticleArray: array<Particle>
    const deadParticleArray: array<Particle>
    var liveParticleCount: nat
    var deadParticleCount: nat

    var initializers: Bindings
    var updaters: Bindings

    var timeSinceLastEmit: real
    var hasInitialReleaseOccurred: bool
    var emitting: bool
    var age: real
    var isActive: bool

    /** The identities of the pooled particles. */
    ghost var members: multiset<nat>

    /** The live particles, `liveParticleArray[0 .. liveParticleCount)`. */
    ghost function Live(): seq<Particle>
      reads this`liveParticleArray, this`liveParticleCount, liveParticleArray
      requires liveParticleCount <= liveParticleArray.Length
    {
      liveParticleArray[..liveParticleCount]
    }

    /** The dead particles, `deadParticleArray[0 .. deadParticleCount)`. */
    ghost function Dead(): seq<Particle>
      reads this`deadParticleCount, deadParticleArray
      requires deadParticleCount <= deadParticleArray.Length
    {
      deadParticleArray[..deadParticleCount]
    }

    /** The emission controller's state. */
    ghost function Controls(): (real, bool, bool, real, bool)
      reads this`timeSinceLastEmit, this`hasInitialReleaseOccurred, this`emitting, this`age, this`isActive
    {
      (timeSinceLastEmit, hasInitialReleaseOccurred, emitting, age, isActive)
    }

    /** The arrays are sized for the capacity and distinct, and the atlas and
        the vertex buffers are well formed. */
    ghost predicate Frame()
      reads this`liveParticleArray, this`tempParticleArray, atlas
    {
      && liveParticleArray.Length == maxParticleCount
      && tempParticleArray.Length == maxParticleCount
      && deadParticleArray.Length == maxParticleCount
      && liveParticleArray != tempParticleArray
      && liveParticleArray != deadParticleArray
      && tempParticleArray != deadParticleArray
      && atlas.Valid() && geometry.Valid()
      && geometry.vertexCount == VerticesPerParticle * maxParticleCount
    }

    /** Every pooled particle is either live or dead, never both and never
        twice, and no dead particle is alive. */
    ghost predicate Pool()
      reads this`liveParticleArray, this`tempParticleArray, this`liveParticleCount, this`deadParticleCount, this`members
      reads liveParticleArray, deadParticleArray, atlas
    {
      && Frame()
      && liveParticleCount + deadParticleCount == maxParticleCount
      && Pooled(Live(), Dead(), members)
    }

    /** Between operations, moreover, every live particle is alive. */
    ghost predicate Valid()
      reads this`liveParticleArray, this`tempParticleArray, this`liveParticleCount, this`deadParticleCount, this`members
      reads liveParticleArray, deadParticleArray, atlas
    {
      Pool() && AllAlive(Live())
    }

    /** The constructor together with `initialize`: the configured capacity
        (which must be a whole number, since it becomes an array length) and
        average life span, the default modifiers, a pool of fresh particles all
        dead, an inactive system that has not released yet. */
    constructor (cfg: Config, atlas: Atlas, ids: IdCounter)
      requires atlas.Valid()
      requires IsCount(MaxParticleCount(cfg))
      modifies ids
      ensures Valid() && Initial(cfg, atlas)
      ensures maxParticleCount as real == MaxParticleCount(cfg)
      ensures averageParticleLifeSpan == cfg.particleLifeSpan
      ensures liveParticleCount == 0 && deadParticleCount == maxParticleCount
      ensures ids.last == old(ids.last) + maxParticleCount
      ensures deadParticleArray[..] == FreshPool(initializers, old(ids.last), maxParticleCount)
      ensures fresh(geometry) && geometry.drawCount == None
    {
      ghost var last := ids.last;
      config := cfg;
      this.atlas := atlas;
      var capacity: nat := MaxParticleCount(cfg).Floor;
      maxParticleCount := capacity;
      var average := CalculateAverageParticleLifeSpan(cfg.particleLifeSpan);
      averageParticleLifeSpan := average;
      geometry := new Geometry(capacity * VerticesPerParticle);
      liveParticleArray := new Particle[capacity];
      tempParticleArray := new Particle[capacity];
      deadParticleArray := new Particle[capacity];
      liveParticleCount := 0;
      deadParticleCount := 0;
      initializers := DefaultInitializers();
      updaters := DefaultUpdaters();
      timeSinceLastEmit := 0.0;
      hasInitialReleaseOccurred := false;
      emitting := true;
      age := 0.0;
      isActive := false;
      members := multiset{};
      new;
      assert Initial(cfg, atlas) && ids.last == last;
      InitializeParticleArray(ids);
    }

    /** The state the constructor leaves behind apart from the pool: the
        configuration and atlas it was given, the default modifiers, a zero
        emission timer, no release yet, emitting, age zero and inactive. */
    ghost predicate Initial(cfg: Config, atlas: Atlas)
      reads this`initializers, this`updaters, this`timeSinceLastEmit,
            this`hasInitialReleaseOccurred, this`emitting, this`age, this`isActive
    {
      && config == cfg && this.atlas == atlas
      && initializers == DefaultInitializers() && updaters == DefaultUpdaters()
      && timeSinceLastEmit == 0.0 && !hasInitialReleaseOccurred && emitting && age == 0.0 && !isActive
    }

    /** `initializeParticleArray`: one new particle per slot of the pool, each
        reset by the initializers, all dead and none live. */
    method InitializeParticleArray(ids: IdCounter)
      requires Frame()
      modifies this`liveParticleCount, this`deadParticleCount, this`members, deadParticleArray, ids
      ensures Valid()
      ensures liveParticleCount == 0 && deadParticleCount == maxParticleCount
      ensures ids.last == old(ids.last) + maxParticleCount
      ensures deadParticleArray[..] == FreshPool(initializers, old(ids.last), maxParticleCount)
    {
      FillPool(deadParticleArray, initializers, ids);
      liveParticleCount := 0;
      deadParticleCount := maxParticleCount;
      assert Dead() == deadParticleArray[..];
      assert NoneAlive(Dead());
      assert forall i, j :: 0 <= i < j < deadParticleCount ==> Ids(Dead())[i] < Ids(Dead())[j];
      IncreasingHasNoDuplicates(Ids(Dead()));
      members := multiset(Ids(Dead()));
      assert Live() == [];
    }

    /** `activateParticles`: up to `count` particles move from the top of the
        dead array to the end of the live array, in pop order, each activated
        with the configured life span. The loop stops early, without failing,
        once the pool is exhausted. */
    method ActivateParticles(count: int)
      requires Valid()
      modifies this`liveParticleCount, this`deadParticleCount, liveParticleArray
      ensures Valid()
      ensures liveParticleCount - old(liveParticleCount)
              == ActivationCount(count, old(deadParticleCount), maxParticleCount - old(liveParticleCount))
      ensures deadParticleCount == old(deadParticleCount) - (liveParticleCount - old(liveParticleCount))
      ensures Live() == old(Live()) + Activations(initializers, config.particleLifeSpan, old(Dead()),
                                                  liveParticleCount - old(liveParticleCount))
      ensures Dead() == old(Dead())[..deadParticleCount]
      ensures Activated(initializers, config.particleLifeSpan, maxParticleCount, count, old(Live()), old(Dead()), Live(), Dead())
    {
      ghost var live0, dead0 := Live(), Dead();
      var lc, dc := ActivateFromPool(liveParticleArray, liveParticleCount, deadParticleArray, deadParticleCount,
                                     count, initializers, config.particleLifeSpan);
      ghost var k := lc - liveParticleCount;
      ghost var live1, dead1 := liveParticleArray[..lc], deadParticleArray[..dc];
      assert live1 == live0 + Activations(initializers, config.particleLifeSpan, dead0, k);
      assert dead1 == dead0[..dc];
      PooledActivations(initializers, config.particleLifeSpan, live0, dead0, members, k, live1, dead1);
      ActivatedBy(initializers, config.particleLifeSpan, maxParticleCount, count, live0, dead0, live1, dead1, k);
      liveParticleCount, deadParticleCount := lc, dc;
    }

    /** `advanceParticles`: every live particle is advanced by `deltaTime` and
        killed once its age passes its life span; if any died, the live array
        is compacted. */
    method AdvanceParticles(deltaTime: real)
      requires Valid()
      modifies this`liveParticleCount, this`deadParticleCount, liveParticleArray, deadParticleArray
      ensures Valid()
      ensures liveParticleCount <= old(liveParticleCount)
      ensures deadParticleCount == old(deadParticleCount) + (old(liveParticleCount) - liveParticleCount)
      ensures Dead()[..old(deadParticleCount)] == old(Dead())
      ensures Advanced(updaters, deltaTime, old(Live()), old(Dead()), Live(), Dead())
      ensures multiset(Live()) + multiset(Dead()) == multiset(Steps(updaters, old(Live()), deltaTime)) + multiset(old(Dead()))
      ensures forall i :: 0 <= i < liveParticleCount ==> Live()[i].age <= Live()[i].lifeSpan
    {
      ghost var live0, dead0 := Live(), Dead();
      var deadCount := StepLiveParticles(deltaTime);
      CleanupIfAnyDied(deadCount);
      SurvivorsKeepParticles(updaters, deltaTime, live0, dead0, Live(), Dead());
    }

    /** The loop of `advanceParticles`: each live particle advanced and, if
        its age has passed its life span, killed; `deadCount` is the number
        killed. */
    method StepLiveParticles(deltaTime: real) returns (deadCount: nat)
      requires Valid()
      modifies liveParticleArray
      ensures Pool()
      ensures Live() == Steps(updaters, old(Live()), deltaTime)
      ensures deadCount == 0 <==> AllAlive(Live())
    {
      ghost var live0 := Live();
      deadCount := StepAll(liveParticleArray, liveParticleCount, updaters, deltaTime);
      assert Live() == liveParticleArray[..liveParticleCount];
      PooledSteps(updaters, live0, Dead(), members, deltaTime);
    }

    /** The end of `advanceParticles`: the live array is compacted only when
        a particle died, so that without a death nothing moves. */
    method CleanupIfAnyDied(deadCount: nat)
      requires Pool()
      requires deadCount == 0 <==> AllAlive(Live())
      modifies this`liveParticleCount, this`deadParticleCount, liveParticleArray, deadParticleArray
      ensures Valid()
      ensures Compacted(old(Live()), old(Dead()), Live(), Dead())
      ensures AllAlive(old(Live())) ==> Live() == old(Live()) && Dead() == old(Dead())
    {
      if deadCount > 0 {
        CleanupDeadParticles();
      } else {
        AliveOnlyOfAllAlive(Live());
        assert Dead()[|Dead()|..] == [];
      }
    }

    /** `cleanupDeadParticles`: the live array is partitioned in place, alive
        particles first, and the dead ones are then popped from its end onto
        the dead array. Afterwards every live particle is alive, the live ones
        are those alive before, the earlier dead entries are unchanged and the
        new ones are those that were dead. */
    method CleanupDeadParticles()
      requires Pool()
      modifies this`liveParticleCount, this`deadParticleCount, liveParticleArray, deadParticleArray
      ensures Valid()
      ensures liveParticleCount <= old(liveParticleCount)
      ensures deadParticleCount == old(deadParticleCount) + (old(liveParticleCount) - liveParticleCount)
      ensures Dead()[..old(deadParticleCount)] == old(Dead())
      ensures multiset(Live()) + multiset(Dead()) == multiset(old(Live())) + multiset(old(Dead()))
      ensures Compacted(old(Live()), old(Dead()), Live(), Dead()) && liveParticleCount == |AliveOnly(old(Live()))|
    {
      ghost var live0, dead0 := Live(), Dead();
      CompactPool();
      CompactionSelects(live0, dead0, Live(), Dead());
    }

    /** Both loops of `cleanupDeadParticles` on the pool's arrays: only alive
        particles stay live, only dead ones are pushed, above the old dead
        stack, and nothing is lost or added. */
    method CompactPool()
      requires Pool()
      modifies this`liveParticleCount, this`deadParticleCount, liveParticleArray, deadParticleArray
      ensures Valid()
      ensures liveParticleCount <= old(liveParticleCount)
      ensures deadParticleCount == old(deadParticleCount) + (old(liveParticleCount) - liveParticleCount)
      ensures Dead()[..old(deadParticleCount)] == old(Dead())
      ensures multiset(Live()) + multiset(Dead()) == multiset(old(Live())) + multiset(old(Dead()))
    {
      liveParticleCount, deadParticleCount :=
        CompactLive(liveParticleArray, liveParticleCount, deadParticleArray, deadParticleCount, members);
    }

    /** `bindInitializer`: a named channel gets a new initializer; no name
        changes nothing. */
    method BindInitializer(name: Option<Channel>, modifier: Modifier)
      modifies this`initializers
      ensures initializers == Rebind(old(initializers), name, modifier)
    {
      if name.Some? {
        initializers := Rebind(initializers, name, modifier);
      }
    }

    /** `bindUpdater`. */
    method BindUpdater(name: Option<Channel>, modifier: Modifier)
      modifies this`updaters
      ensures updaters == Rebind(old(updaters), name, modifier)
    {
      if name.Some? {
        updaters := Rebind(updaters, name, modifier);
      }
    }

    /** `bindModifier`: the same modifier as initializer and updater. */
    method BindModifier(name: Option<Channel>, modifier: Modifier)
      modifies this`initializers, this`updaters
      ensures initializers == Rebind(old(initializers), name, modifier)
      ensures updaters == Rebind(old(updaters), name, modifier)
    {
      BindInitializer(name, modifier);
      BindUpdater(name, modifier);
    }

    /** `activate`, as far as the system's own state goes. */
    method Activate()
      modifies this`isActive
      ensures isActive
    {
      if !isActive {
        isActive := true;
      }
    }

    /** `deactivate`, as far as the system's own state goes. */
    method Deactivate()
      modifies this`isActive
      ensures !isActive
    {
      if isActive {
        isActive := false;
      }
    }

    /** `sortParticleArray`: every live particle is keyed by the depth of its
        position and its index, the keys are sorted ascending (keeping the
        order of equal keys), the particles are gathered into the spare array
        in that order, and the two arrays swap roles. */
    method SortParticleArray(depth: Vec3 -> real)
      requires Valid()
      modifies this`liveParticleArray, this`tempParticleArray, tempParticleArray
      ensures Valid()
      ensures liveParticleArray == old(tempParticleArray) && tempParticleArray == old(liveParticleArray)
      ensures Live() == DepthSorted(depth, old(Live()))
      ensures Dead() == old(Dead())
    {
      ghost var live0, dead0 := Live(), Dead();
      SortInto(liveParticleArray, tempParticleArray, liveParticleCount, depth);
      assert Dead() == dead0;
      liveParticleArray, tempParticleArray := tempParticleArray, liveParticleArray;
      assert Frame() && Live() == DepthSorted(depth, live0);
      PooledSorted(depth, live0, dead0, members);
    }

    /** Every vertex of the live slots holds its particle, drawn with the
        particle's atlas image. */
    ghost predicate LiveDrawn()
      reads this`liveParticleArray, this`tempParticleArray, this`liveParticleCount, this`deadParticleCount, this`members
      reads liveParticleArray, deadParticleArray, atlas
      reads geometry.position, geometry.uv, geometry.customColor, geometry.size, geometry.rotation, geometry.customIndex
      requires Valid()
    {
      forall i :: 0 <= i < VerticesPerParticle * liveParticleCount ==>
        Drawn(geometry, atlas, i, Live()[i / VerticesPerParticle])
    }

    /** The end of an active frame, against the age, the emitting flag and the
        buffers before it. The write succeeded exactly when every live particle
        has an atlas image; then every live slot is drawn, and the system has
        aged by `dt` and applied the lifespan cutoff. After a failed write, age
        and emitting are as they were. Either way no buffer cell past the live
        slots has changed, and the draw range is the live vertices after a
        successful write with some particle live, and as it was otherwise. */
    ghost predicate Finished(ok: bool, age0: real, emitting0: bool, dt: real, cells0: Buffers, drawCount0: Option<nat>)
      reads this`liveParticleArray, this`tempParticleArray, this`liveParticleCount, this`deadParticleCount, this`members
      reads this`age, this`emitting, liveParticleArray, deadParticleArray, atlas
      reads geometry`drawCount, geometry.position, geometry.uv, geometry.customColor, geometry.size, geometry.rotation, geometry.customIndex
      requires Valid()
    {
      match ok
      case true =>
        && Drawable(atlas, Live()) && LiveDrawn()
        && age == age0 + dt && emitting == StillEmitting(emitting0, age0 + dt, config.lifespan)
        && KeptFrom(geometry.Contents(), cells0, VerticesPerParticle * liveParticleCount)
        && geometry.drawCount == if liveParticleCount > 0 then Some(VerticesPerParticle * liveParticleCount) else drawCount0
      case false =>
        && !Drawable(atlas, Live())
        && age == age0 && emitting == emitting0
        && KeptFrom(geometry.Contents(), cells0, VerticesPerParticle * liveParticleCount)
        && geometry.drawCount == drawCount0
    }

    /** `updateAttributesWithParticleData`: live particle `p` is written to
        the six vertices of slot `p`. It succeeds exactly when every live
        particle has an atlas image; then every vertex of the live slots holds
        its particle with that image, and the draw range becomes the live
        vertices unless no particle is live, in which case the draw range is
        left as it was. A failed write leaves the draw range alone as well. */
    method UpdateAttributesWithParticleData() returns (ok: bool)
      requires Valid()
      modifies geometry`drawCount, geometry.position, geometry.uv, geometry.customColor
      modifies geometry.size, geometry.rotation, geometry.customIndex
      ensures Valid()
      ensures ok <==> Drawable(atlas, Live())
      ensures ok ==> LiveDrawn()
      ensures geometry.drawCount == if ok && liveParticleCount > 0 then Some(VerticesPerParticle * liveParticleCount)
                                    else old(geometry.drawCount)
      ensures KeptFrom(geometry.Contents(), old(geometry.Contents()), VerticesPerParticle * liveParticleCount)
    {
      ok := WriteLiveParticles(geometry, atlas, liveParticleArray, liveParticleCount);
      if ok && liveParticleCount > 0 {
        geometry.SetDrawRange(VerticesPerParticle * liveParticleCount);
      }
      assert Live() == liveParticleArray[..liveParticleCount];
    }

    /** What the emission controller decides at the start of a frame of
        length `deltaTime`: nothing, not even a tick of the emission timer,
        while the system is not emitting, and a release on the first frame
        that emits. */
    function EmissionNow(deltaTime: real): (e: Emission)
      reads this`liveParticleCount, this`timeSinceLastEmit, this`hasInitialReleaseOccurred, this`emitting
      ensures !emitting ==> e == Emission(None, timeSinceLastEmit, hasInitialReleaseOccurred)
      ensures emitting && !hasInitialReleaseOccurred ==> e.request.Some? && e.timer == 0.0 && e.released
    {
      if emitting then
        EmissionStep(config, averageParticleLifeSpan, maxParticleCount, liveParticleCount,
                     timeSinceLastEmit, hasInitialReleaseOccurred, deltaTime)
      else Emission(None, timeSinceLastEmit, hasInitialReleaseOccurred)
    }

    /** The emission part of `update`, given the controller's decision `e`:
        the particles it asks for are activated (as many as the pool can
        supply), and its timer and release flag are stored. */
    method Emit(e: Emission)
      requires Valid()
      modifies this`liveParticleCount, this`deadParticleCount, liveParticleArray
      modifies this`timeSinceLastEmit, this`hasInitialReleaseOccurred
      ensures Valid()
      ensures timeSinceLastEmit == e.timer && hasInitialReleaseOccurred == e.released
      ensures e.request.None? ==> Live() == old(Live()) && Dead() == old(Dead())
      ensures Emitted(initializers, config.particleLifeSpan, maxParticleCount, e, old(Live()), old(Dead()), Live(), Dead())
    {
      if e.request.Some? {
        ActivateParticles(e.request.value);
      }
      timeSinceLastEmit, hasInitialReleaseOccurred := e.timer, e.released;
    }

    /** The particle part of `update` after emission: every live particle
        takes one step, and the particles are sorted by depth when `zSort` is
        set. */
    method Simulate(deltaTime: real, depth: Vec3 -> real)
      requires Valid()
      modifies this`liveParticleCount, this`deadParticleCount, this`liveParticleArray, this`tempParticleArray
      modifies liveParticleArray, tempParticleArray, deadParticleArray
      ensures Valid()
      ensures Simulated(updaters, deltaTime, config.zSort, depth, old(Live()), old(Dead()), Live(), Dead())
    {
      ghost var live0, dead0 := Live(), Dead();
      AdvanceParticles(deltaTime);
      SimulatedOfAdvanced(updaters, deltaTime, config.zSort, depth, live0, dead0, Live(), Dead());
      if config.zSort {
        SortParticleArray(depth);
      }
    }

    /** The end of `update`: the system ages by `deltaTime` and stops
        emitting, for good, once its age passes a nonzero lifespan. */
    method AgeBy(deltaTime: real)
      requires Valid()
      modifies this`age, this`emitting
      ensures Valid()
      ensures age == old(age) + deltaTime
      ensures emitting == StillEmitting(old(emitting), age, config.lifespan)
    {
      age := age + deltaTime;
      emitting := StillEmitting(emitting, age, config.lifespan);
    }

    /** The start of `update`, given the controller's decision `e`:
        emission, then the particle step and the sort. The controller's timer
        and release flag are left as emission set them. */
    method EmitAndSimulate(e: Emission, deltaTime: real, depth: Vec3 -> real)
      returns (ghost live1: seq<Particle>, ghost dead1: seq<Particle>)
      requires Valid()
      modifies this`liveParticleCount, this`deadParticleCount, this`liveParticleArray, this`tempParticleArray
      modifies liveParticleArray, tempParticleArray, deadParticleArray
      modifies this`timeSinceLastEmit, this`hasInitialReleaseOccurred
      ensures Valid()
      ensures timeSinceLastEmit == e.timer && hasInitialReleaseOccurred == e.released
      ensures Emitted(initializers, config.particleLifeSpan, maxParticleCount, e, old(Live()), old(Dead()), live1, dead1)
      ensures Simulated(updaters, deltaTime, config.zSort, depth, live1, dead1, Live(), Dead())
    {
      Emit(e);
      live1, dead1 := Live(), Dead();
      Simulate(deltaTime, depth);
    }

    /** The end of `update`: the live particles are written to the vertex
        buffers and, if that succeeds, the system ages by `deltaTime`. */
    method WriteAndAge(deltaTime: real) returns (ok: bool)
      requires Valid()
      modifies this`emitting, this`age
      modifies geometry`drawCount, geometry.position, geometry.uv, geometry.customColor
      modifies geometry.size, geometry.rotation, geometry.customIndex
      ensures Valid()
      ensures ok <==> Drawable(atlas, Live())
      ensures ok ==> && age == old(age) + deltaTime
                     && emitting == StillEmitting(old(emitting), old(age) + deltaTime, config.lifespan)
                     && LiveDrawn()
      ensures !ok ==> age == old(age) && emitting == old(emitting)
      ensures Live() == old(Live()) && Dead() == old(Dead())
      ensures KeptFrom(geometry.Contents(), old(geometry.Contents()), VerticesPerParticle * liveParticleCount)
      ensures Finished(ok, old(age), old(emitting), deltaTime, old(geometry.Contents()), old(geometry.drawCount))
    {
      ok := UpdateAttributesWithParticleData();
      if !ok {
        return;
      }
      ghost var live := Live();
      assert LiveDrawn();
      AgeBy(deltaTime);
      assert Live() == live;
      assert LiveDrawn();
    }

    /** `update` of an active system, given the controller's decision `e`:
        emission, the particle step and the sort, then the write to the
        vertex buffers and, if that succeeds, the ageing of the system. */
    method UpdateActive(e: Emission, deltaTime: real, depth: Vec3 -> real)
      returns (ok: bool, ghost live1: seq<Particle>, ghost dead1: seq<Particle>)
      requires Valid()
      modifies this`liveParticleCount, this`deadParticleCount, this`liveParticleArray, this`tempParticleArray
      modifies liveParticleArray, tempParticleArray, deadParticleArray
      modifies this`timeSinceLastEmit, this`hasInitialReleaseOccurred, this`emitting, this`age
      modifies geometry`drawCount, geometry.position, geometry.uv, geometry.customColor
      modifies geometry.size, geometry.rotation, geometry.customIndex
      ensures Valid()
      ensures Finished(ok, old(age), old(emitting), deltaTime, old(geometry.Contents()), old(geometry.drawCount))
      ensures Emitted(initializers, config.particleLifeSpan, maxParticleCount, e, old(Live()), old(Dead()), live1, dead1)
      ensures Simulated(updaters, deltaTime, config.zSort, depth, live1, dead1, Live(), Dead())
    {
      live1, dead1 := EmitAndSimulate(e, deltaTime, depth);
      ok := WriteAndAge(deltaTime);
    }

    /** `update`: an inactive system does nothing. An active one runs the
        emission controller and activates what it asks for, advances every
        live particle, sorts them by depth when `zSort` is set, and writes
        them to the vertex buffers; the depth is computed from the camera,
        which is outside this model, so it is a parameter. If the write fails
        the frame stops there; otherwise the system ages by `deltaTime` and
        stops emitting once its age passes a nonzero lifespan. The pool keeps
        its particles' identities throughout. */
    method Update(deltaTime: real, depth: Vec3 -> real)
      returns (ok: bool, ghost live1: seq<Particle>, ghost dead1: seq<Particle>)
      requires Valid()
      modifies this`liveParticleCount, this`deadParticleCount, this`liveParticleArray, this`tempParticleArray
      modifies liveParticleArray, tempParticleArray, deadParticleArray
      modifies this`timeSinceLastEmit, this`hasInitialReleaseOccurred, this`emitting, this`age
      modifies geometry`drawCount, geometry.position, geometry.uv, geometry.customColor
      modifies geometry.size, geometry.rotation, geometry.customIndex
      ensures Valid()
      ensures !old(isActive) ==> && ok && Controls() == old(Controls())
                                 && liveParticleArray == old(liveParticleArray) && Live() == old(Live())
                                 && Dead() == old(Dead()) && geometry.drawCount == old(geometry.drawCount)
                                 && geometry.Contents() == old(geometry.Contents())
      ensures old(isActive) ==> Finished(ok, old(age), old(emitting), deltaTime, old(geometry.Contents()), old(geometry.drawCount))
      ensures old(isActive) ==>
                && Emitted(initializers, config.particleLifeSpan, maxParticleCount, old(EmissionNow(deltaTime)),
                           old(Live()), old(Dead()), live1, dead1)
                && Simulated(updaters, deltaTime, config.zSort, depth, live1, dead1, Live(), Dead())
    {
      if !isActive {
        ok, live1, dead1 := true, Live(), Dead();
        return;
      }
      ok, live1, dead1 := UpdateActive(EmissionNow(deltaTime), deltaTime, depth);
    }
  }
}
