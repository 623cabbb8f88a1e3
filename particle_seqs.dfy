/** Sequences of particles as the pool keeps them: their identities, the
    alive/dead split, and one frame applied to every live particle. */
module ParticleSeqs {

  import opened Sequences
  import opened Particles

  /** The identities of the particles, in order. */
  function Ids(s: seq<Particle>): (r: seq<nat>)
    ensures |r| == |s|
    ensures forall i :: 0 <= i < |s| ==> r[i] == s[i].id
  {
    MapSeq((p: Particle) => p.id, s)
  }

  lemma IdsAppend(a: seq<Particle>, b: seq<Particle>)
    ensures Ids(a + b) == Ids(a) + Ids(b)
  {
  }

  /** Rearranging particles rearranges their identities. */
  lemma IdsPermutation(a: seq<Particle>, b: seq<Particle>)
    requires multiset(a) == multiset(b)
    ensures multiset(Ids(a)) == multiset(Ids(b))
  {
    MapPreservesPermutation((p: Particle) => p.id, a, b);
  }

  /** Every particle alive. */
  predicate AllAlive(s: seq<Particle>) {
    forall i :: 0 <= i < |s| ==> s[i].alive
  }

  /** No particle alive. */
  predicate NoneAlive(s: seq<Particle>) {
    forall i :: 0 <= i < |s| ==> !s[i].alive
  }

  /** Rearranging particles that are all alive leaves them all alive. */
  lemma AllAliveRearranged(a: seq<Particle>, b: seq<Particle>)
    requires AllAlive(a) && multiset(a) == multiset(b)
    ensures AllAlive(b)
  {
    forall i | 0 <= i < |b|
      ensures b[i].alive
    {
      assert b[i] in multiset(a);
    }
  }

  /** The alive particles, in order. */
  function AliveOnly(s: seq<Particle>): (r: seq<Particle>)
    ensures AllAlive(r) && |r| <= |s|
  {
    if |s| == 0 then []
    else (if s[0].alive then [s[0]] else []) + AliveOnly(s[1..])
  }

  /** The particles that are not alive, in order. */
  function DeadOnly(s: seq<Particle>): (r: seq<Particle>)
    ensures NoneAlive(r) && |r| <= |s|
  {
    if |s| == 0 then []
    else (if s[0].alive then [] else [s[0]]) + DeadOnly(s[1..])
  }

  /** In a multiset of particles, the alive ones are those of AliveOnly and
      the others those of DeadOnly. */
  lemma {:induction false} SplitCounts(s: seq<Particle>, p: Particle)
    ensures multiset(AliveOnly(s))[p] == if p.alive then multiset(s)[p] else 0
    ensures multiset(DeadOnly(s))[p] == if p.alive then 0 else multiset(s)[p]
    decreases |s|
  {
    if |s| > 0 {
      SplitCounts(s[1..], p);
      assert s == [s[0]] + s[1..];
      assert multiset(s) == multiset{s[0]} + multiset(s[1..]);
      assert multiset(AliveOnly(s)) == (if s[0].alive then multiset{s[0]} else multiset{}) + multiset(AliveOnly(s[1..]));
      assert multiset(DeadOnly(s)) == (if s[0].alive then multiset{} else multiset{s[0]}) + multiset(DeadOnly(s[1..]));
    }
  }

  /** Splitting a sequence into alive and dead loses and adds nothing. */
  lemma SplitIsPartition(s: seq<Particle>)
    ensures multiset(AliveOnly(s)) + multiset(DeadOnly(s)) == multiset(s)
    ensures |AliveOnly(s)| + |DeadOnly(s)| == |s|
  {
    forall p ensures (multiset(AliveOnly(s)) + multiset(DeadOnly(s)))[p] == multiset(s)[p] {
      SplitCounts(s, p);
    }
    assert multiset(AliveOnly(s)) + multiset(DeadOnly(s)) == multiset(s);
    assert |multiset(AliveOnly(s)) + multiset(DeadOnly(s))| == |multiset(s)|;
  }

  /** Any split of `s` into an all-alive part and a none-alive part holds
      exactly the alive and the dead particles of `s`. */
  lemma SplitIsUnique(s: seq<Particle>, alive: seq<Particle>, dead: seq<Particle>)
    requires multiset(alive) + multiset(dead) == multiset(s)
    requires AllAlive(alive) && NoneAlive(dead)
    ensures multiset(alive) == multiset(AliveOnly(s))
    ensures multiset(dead) == multiset(DeadOnly(s))
  {
    forall p ensures multiset(alive)[p] == multiset(AliveOnly(s))[p] && multiset(dead)[p] == multiset(DeadOnly(s))[p] {
      SplitCounts(s, p);
      if p.alive {
        assert p !in multiset(dead);
      } else {
        assert p !in multiset(alive);
      }
    }
    assert multiset(alive) == multiset(AliveOnly(s));
    assert multiset(dead) == multiset(DeadOnly(s));
  }

  /** Whatever holds exactly the survivors of a frame is alive and within
      its life span: a particle survives a frame only if its new age has not
      passed its life span. */
  lemma StepsWithinLifeSpan(u: Bindings, s: seq<Particle>, dt: real, live: seq<Particle>)
    requires multiset(live) == multiset(AliveOnly(Steps(u, s, dt)))
    ensures forall i :: 0 <= i < |live| ==> live[i].alive && live[i].age <= live[i].lifeSpan
  {
    var stepped := Steps(u, s, dt);
    forall i | 0 <= i < |live|
      ensures live[i].alive && live[i].age <= live[i].lifeSpan
    {
      var x := live[i];
      assert x in multiset(live);
      SplitCounts(stepped, x);
      assert x in stepped;
      var j :| 0 <= j < |stepped| && stepped[j] == x;
      assert x == StepParticle(u, s[j], dt);
    }
  }

  /** A sequence with no dead particle is its own alive part. */
  lemma AliveOnlyOfAllAlive(s: seq<Particle>)
    requires AllAlive(s)
    ensures AliveOnly(s) == s
    ensures DeadOnly(s) == []
  {
    if |s| > 0 {
      AliveOnlyOfAllAlive(s[1..]);
    }
  }

  /** One frame of `advanceParticles` applied to every particle of `s`. */
  function Steps(u: Bindings, s: seq<Particle>, dt: real): (r: seq<Particle>)
    ensures |r| == |s|
    ensures forall i :: 0 <= i < |s| ==> r[i] == StepParticle(u, s[i], dt)
  {
    seq(|s|, i requires 0 <= i < |s| => StepParticle(u, s[i], dt))
  }

  /** A frame keeps every particle's identity. */
  lemma StepsKeepIds(u: Bindings, s: seq<Particle>, dt: real)
    ensures Ids(Steps(u, s, dt)) == Ids(s)
  {
  }

  /** A particle survives a frame exactly when it was alive and its new age
      does not pass its life span; with every particle alive and young enough,
      the frame kills none. */
  lemma StepsSurvivors(u: Bindings, s: seq<Particle>, dt: real)
    requires AllAlive(s)
    requires forall i :: 0 <= i < |s| ==> s[i].age + dt <= s[i].lifeSpan
    ensures AllAlive(Steps(u, s, dt))
    ensures AliveOnly(Steps(u, s, dt)) == Steps(u, s, dt)
  {
    AliveOnlyOfAllAlive(Steps(u, s, dt));
  }

  /** Two sequences holding, together, the particles two others hold hold
      the same identities. */
  lemma RearrangeKeepsIds(a0: seq<Particle>, b0: seq<Particle>, a: seq<Particle>, b: seq<Particle>)
    requires multiset(a) + multiset(b) == multiset(a0) + multiset(b0)
    ensures multiset(Ids(a)) + multiset(Ids(b)) == multiset(Ids(a0)) + multiset(Ids(b0))
  {
    IdsPermutation(a + b, a0 + b0);
    IdsAppend(a, b);
    IdsAppend(a0, b0);
  }

  /** When the alive particles of `s` are kept and the others appended to
      `dead0`, giving `dead`, the kept ones are exactly the alive ones of
      `s` and the appended ones exactly the dead ones, whatever their order. */
  lemma CompactionSelects(s: seq<Particle>, dead0: seq<Particle>, live: seq<Particle>, dead: seq<Particle>)
    requires |dead0| <= |dead| && dead[..|dead0|] == dead0
    requires multiset(live) + multiset(dead) == multiset(s) + multiset(dead0)
    requires AllAlive(live) && NoneAlive(dead)
    ensures multiset(live) == multiset(AliveOnly(s)) && |live| == |AliveOnly(s)|
    ensures multiset(dead[|dead0|..]) == multiset(DeadOnly(s))
    ensures Compacted(s, dead0, live, dead)
  {
    var popped := dead[|dead0|..];
    assert dead == dead0 + popped;
    assert multiset(dead) == multiset(dead0) + multiset(popped);
    forall x ensures (multiset(live) + multiset(popped))[x] == multiset(s)[x] {
      assert (multiset(live) + multiset(dead))[x] == (multiset(s) + multiset(dead0))[x];
    }
    assert multiset(live) + multiset(popped) == multiset(s);
    assert NoneAlive(popped) by {
      forall i | 0 <= i < |popped| ensures !popped[i].alive {
        assert popped[i] == dead[|dead0| + i];
      }
    }
    SplitIsUnique(s, live, popped);
    assert |multiset(live)| == |multiset(AliveOnly(s))|;
  }

  /** `live` holds the alive particles of `s` and the part of `dead` above
      the old stack `dead0` the others, in some order; the old stack is
      untouched. */
  ghost predicate Compacted(s: seq<Particle>, dead0: seq<Particle>, live: seq<Particle>, dead: seq<Particle>) {
    && |dead0| <= |dead| && dead[..|dead0|] == dead0
    && multiset(live) == multiset(AliveOnly(s))
    && multiset(dead[|dead0|..]) == multiset(DeadOnly(s))
  }

  /** The pool invariant on values: the identities held by the live and the
      dead particles are exactly `members`, none of them twice, and no dead
      particle is alive. */
  ghost predicate Pooled(live: seq<Particle>, dead: seq<Particle>, members: multiset<nat>) {
    && multiset(Ids(live)) + multiset(Ids(dead)) == members
    && (forall id :: members[id] <= 1)
    && NoneAlive(dead)
  }

  /** Moving particles between the two sides, or reordering either, keeps the
      pool as long as no dead particle ends up alive. */
  lemma PooledRearrange(live0: seq<Particle>, dead0: seq<Particle>, live: seq<Particle>, dead: seq<Particle>,
                        members: multiset<nat>)
    requires Pooled(live0, dead0, members)
    requires multiset(live) + multiset(dead) == multiset(live0) + multiset(dead0)
    requires NoneAlive(dead)
    ensures Pooled(live, dead, members)
  {
    RearrangeKeepsIds(live0, dead0, live, dead);
  }

  /** Moving the dead tail of a partitioned live prefix onto the dead stack
      keeps the pool and the particles it holds. */
  lemma PartitionKeepsPool(live0: seq<Particle>, dead0: seq<Particle>, parted: seq<Particle>, m: nat,
                           dead: seq<Particle>, members: multiset<nat>)
    requires Pooled(live0, dead0, members)
    requires m <= |parted| && multiset(parted) == multiset(live0)
    requires multiset(dead) == multiset(dead0) + multiset(parted[m..])
    requires NoneAlive(dead)
    ensures multiset(parted[..m]) + multiset(dead) == multiset(live0) + multiset(dead0)
    ensures Pooled(parted[..m], dead, members)
  {
    assert parted == parted[..m] + parted[m..];
    PooledRearrange(live0, dead0, parted[..m], dead, members);
  }

  /** A frame of the live particles keeps the pool. */
  lemma PooledSteps(u: Bindings, live: seq<Particle>, dead: seq<Particle>, members: multiset<nat>, dt: real)
    requires Pooled(live, dead, members)
    ensures Pooled(Steps(u, live, dt), dead, members)
  {
    StepsKeepIds(u, live, dt);
  }

  /** Compacting the live particles `live0` onto the dead stack `dead0`, with
      only alive ones kept and only dead ones popped, keeps the pool and
      selects exactly the alive and the dead ones. */
  lemma CompactionKeepsPool(live0: seq<Particle>, dead0: seq<Particle>, live: seq<Particle>, dead: seq<Particle>,
                            members: multiset<nat>)
    requires Pooled(live0, dead0, members)
    requires |dead0| <= |dead| && dead[..|dead0|] == dead0
    requires multiset(live) + multiset(dead) == multiset(live0) + multiset(dead0)
    requires AllAlive(live) && NoneAlive(dead)
    ensures Pooled(live, dead, members)
    ensures Compacted(live0, dead0, live, dead) && |live| == |AliveOnly(live0)|
  {
    PooledRearrange(live0, dead0, live, dead, members);
    CompactionSelects(live0, dead0, live, dead);
  }
}
