/** The interval updaters shared by the two preloaders: the particle tick (move, age, drop the
    dead), particle generation, the clamped progress counter and the phase cycle. Each updater
    is a pure function of the previous state value and of the random draws it makes. */
module LoadingTicks {
  import opened JsValues

  datatype Particle = Particle(id: nat, x: real, y: real, vx: real, vy: real, life: real)

  // ---------------------------------------------------------------------------
  // Particle tick

  /** One particle advanced by one tick: moved by its velocity, aged by `decay`, slowed by 1%. */
  function Advance(p: Particle, decay: real): (q: Particle)
    ensures q.id == p.id && q.life == p.life - decay
  {
    p.(x := p.x + p.vx, y := p.y + p.vy, life := p.life - decay, vx := p.vx * 0.99, vy := p.vy * 0.99)
  }

  /** `prev.map(advance).filter(p => p.life > 0)`. */
  function Tick(ps: seq<Particle>, decay: real): (r: seq<Particle>)
    ensures |r| <= |ps|
    ensures forall i :: 0 <= i < |r| ==> r[i].life > 0.0
  {
    if ps == [] then []
    else
      var q := Advance(ps[0], decay);
      if q.life > 0.0 then [q] + Tick(ps[1..], decay) else Tick(ps[1..], decay)
  }

  /** A particle survives the tick exactly when it is the advanced form of a particle whose
      life was still above `decay`. */
  lemma {:induction false} TickMembers(ps: seq<Particle>, decay: real, q: Particle)
    ensures q in Tick(ps, decay) <==> exists p :: p in ps && q == Advance(p, decay) && p.life > decay
  {
    if ps != [] {
      TickMembers(ps[1..], decay, q);
      var p0 := ps[0];
      if q == Advance(p0, decay) && p0.life > decay {
        assert q in Tick(ps, decay);
      }
      forall p | p in ps[1..] ensures p in ps {
      }
      if q in Tick(ps[1..], decay) {
        assert q in Tick(ps, decay);
      }
      if exists p :: p in ps && q == Advance(p, decay) && p.life > decay {
        var p :| p in ps && q == Advance(p, decay) && p.life > decay;
        if p != p0 {
          assert p in ps[1..];
        }
      }
    }
  }

  function Ids(ps: seq<Particle>): (r: seq<nat>)
    ensures |r| == |ps| && forall i :: 0 <= i < |ps| ==> r[i] == ps[i].id
  {
    if ps == [] then [] else [ps[0].id] + Ids(ps[1..])
  }

  /** `a` is obtained from `b` by deleting entries, keeping the order of the rest. */
  predicate IsSubsequence(a: seq<nat>, b: seq<nat>) {
    if a == [] then true
    else if b == [] then false
    else if a[0] == b[0] then IsSubsequence(a[1..], b[1..])
    else IsSubsequence(a, b[1..])
  }

  /** The survivors keep their ids and their relative order. */
  lemma {:induction false} TickKeepsIdOrder(ps: seq<Particle>, decay: real)
    ensures IsSubsequence(Ids(Tick(ps, decay)), Ids(ps))
  {
    if ps != [] {
      TickKeepsIdOrder(ps[1..], decay);
      var rest := Tick(ps[1..], decay);
      assert Ids(ps)[1..] == Ids(ps[1..]);
      if Advance(ps[0], decay).life > 0.0 {
        assert Ids(Tick(ps, decay))[1..] == Ids(rest);
      } else {
        SubsequenceOfTail(Ids(rest), Ids(ps));
      }
    }
  }

  lemma {:induction false} SubsequenceOfTail(a: seq<nat>, b: seq<nat>)
    requires b != [] && IsSubsequence(a, b[1..])
    ensures IsSubsequence(a, b)
    decreases |a| + |b|
  {
    if a != [] && a[0] == b[0] {
      SubsequenceDropHead(a, b[1..]);
    }
  }

  lemma {:induction false} SubsequenceDropHead(a: seq<nat>, c: seq<nat>)
    requires a != [] && IsSubsequence(a, c)
    ensures IsSubsequence(a[1..], c)
    decreases |a| + |c|
  {
    if a[0] == c[0] {
      SubsequenceOfTail(a[1..], c);
    } else {
      SubsequenceDropHead(a, c[1..]);
      SubsequenceOfTail(a[1..], c);
    }
  }

  predicate StrictlyIncreasing(s: seq<nat>) {
    forall i, j :: 0 <= i < j < |s| ==> s[i] < s[j]
  }

  /** Since the ids of a generated list are increasing, they stay increasing (and so distinct)
      through any number of ticks. */
  lemma {:induction false} TickKeepsIdsIncreasing(ps: seq<Particle>, decay: real)
    requires StrictlyIncreasing(Ids(ps))
    ensures StrictlyIncreasing(Ids(Tick(ps, decay)))
  {
    TickKeepsIdOrder(ps, decay);
    SubsequenceKeepsIncreasing(Ids(Tick(ps, decay)), Ids(ps));
  }

  lemma {:induction false} SubsequenceKeepsIncreasing(a: seq<nat>, b: seq<nat>)
    requires IsSubsequence(a, b) && StrictlyIncreasing(b)
    ensures StrictlyIncreasing(a)
    ensures a != [] ==> b != [] && b[0] <= a[0]
    decreases |b|
  {
    if a != [] {
      if a[0] == b[0] {
        SubsequenceKeepsIncreasing(a[1..], b[1..]);
        forall j | 0 < j < |a| ensures a[0] < a[j] {
          assert a[1..][j - 1] == a[j];
        }
      } else {
        SubsequenceKeepsIncreasing(a, b[1..]);
      }
    }
  }

  // ---------------------------------------------------------------------------
  // Particle generation

  /** Particle `i` of a fresh list: five draws in order for x, y, vx, vy and life. */
  function FreshParticle(i: nat, speed: real, width: real, height: real, rand: nat -> real): Particle {
    Particle(i, rand(5 * i) * width, rand(5 * i + 1) * height,
             (rand(5 * i + 2) - 0.5) * speed, (rand(5 * i + 3) - 0.5) * speed, rand(5 * i + 4) * 100.0)
  }

  /** `generateParticles`: `count` fresh particles with ids `0 .. count - 1`. */
  function Generate(count: nat, speed: real, width: real, height: real, rand: nat -> real): (r: seq<Particle>)
    ensures |r| == count
    ensures forall i :: 0 <= i < count ==> r[i] == FreshParticle(i, speed, width, height, rand)
    ensures Ids(r) == seq(count, i => i)
  {
    seq(count, i requires 0 <= i => FreshParticle(i, speed, width, height, rand))
  }

  /** Fresh particles start with a life in [0, 100). */
  lemma FreshParticleLife(i: nat, speed: real, width: real, height: real, rand: nat -> real)
    requires UnitStream(rand)
    ensures 0.0 <= FreshParticle(i, speed, width, height, rand).life < 100.0
  {
    assert 0.0 <= rand(5 * i + 4) < 1.0;
  }

  /** The ids of a fresh list are increasing. */
  lemma GeneratedIdsIncreasing(count: nat, speed: real, width: real, height: real, rand: nat -> real)
    ensures StrictlyIncreasing(Ids(Generate(count, speed, width, height, rand)))
  {
    var ids := Ids(Generate(count, speed, width, height, rand));
    assert forall i :: 0 <= i < count ==> ids[i] == i;
  }

  /** The particle interval updater: the tick is applied to the previous list, and then, when
      the list length captured by the effect was below the threshold, the list is replaced by a
      fresh one (the later of the two state updates wins). */
  function ParticleUpdate(prev: seq<Particle>, decay: real, capturedLength: nat, threshold: real,
                          regenerated: seq<Particle>): (r: seq<Particle>)
    ensures capturedLength as real < threshold ==> r == regenerated
    ensures capturedLength as real >= threshold ==> |r| <= |prev| && r == Tick(prev, decay)
  {
    if (capturedLength as real) < threshold then regenerated else Tick(prev, decay)
  }

  // ---------------------------------------------------------------------------
  // Progress and phase

  /** The progress updater: once 100 is reached it stays exactly 100, otherwise it adds
      `r * span + 2` for a draw `r`. */
  function NextProgress(prev: real, r: real, span: real): (p: real)
    ensures prev >= 100.0 ==> p == 100.0
    ensures prev < 100.0 && 0.0 <= r < 1.0 && span > 0.0 ==> prev + 2.0 <= p < prev + span + 2.0
  {
    if prev >= 100.0 then 100.0 else prev + r * span + 2.0
  }

  /** The progress after one tick per draw in `rs`. */
  function RunProgress(prev: real, rs: seq<real>, span: real): real
    decreases |rs|
  {
    if rs == [] then prev else RunProgress(NextProgress(prev, rs[0], span), rs[1..], span)
  }

  predicate UnitDraws(rs: seq<real>) {
    forall i :: 0 <= i < |rs| ==> 0.0 <= rs[i] < 1.0
  }

  /** Starting from 0, progress never goes negative and stays below `100 + span + 2`
      (110 with the span 8, 114 with the span 12). */
  lemma {:induction false} ProgressBounded(prev: real, rs: seq<real>, span: real)
    requires 0.0 <= prev < 100.0 + span + 2.0 && span > 0.0 && UnitDraws(rs)
    ensures 0.0 <= RunProgress(prev, rs, span) < 100.0 + span + 2.0
    decreases |rs|
  {
    if rs != [] {
      ProgressBounded(NextProgress(prev, rs[0], span), rs[1..], span);
    }
  }

  /** Each tick below 100 adds at least 2, so `n + 1` ticks from a progress of at least
      `100 - 2n` end at exactly 100; from 0, 51 ticks suffice. */
  lemma {:induction false} ProgressReachesHundred(prev: real, rs: seq<real>, span: real)
    requires span > 0.0 && UnitDraws(rs) && |rs| >= 1
    requires prev + 2.0 * (|rs| - 1) as real >= 100.0
    ensures RunProgress(prev, rs, span) == 100.0
    decreases |rs|
  {
    var next := NextProgress(prev, rs[0], span);
    if |rs| == 1 {
      assert prev >= 100.0;
    } else {
      ProgressReachesHundred(next, rs[1..], span);
    }
  }

  /** The number of loading phases. */
  const PhaseCount: nat := 5

  /** The phase updater: one step round the cycle of five phases. */
  function NextPhase(prev: nat): (r: nat)
    ensures r < PhaseCount
    ensures prev < PhaseCount - 1 ==> r == prev + 1
    ensures prev == PhaseCount - 1 ==> r == 0
  {
    (prev + 1) % PhaseCount
  }

  function RunPhase(prev: nat, n: nat): nat
    decreases n
  {
    if n == 0 then prev else RunPhase(NextPhase(prev), n - 1)
  }

  /** After `n` phase ticks from phase `p` the phase is `(p + n) mod 5`. */
  lemma {:induction false} PhaseAfter(p: nat, n: nat)
    requires p < PhaseCount
    ensures RunPhase(p, n) == (p + n) % PhaseCount
    decreases n
  {
    if n > 0 {
      PhaseAfter(NextPhase(p), n - 1);
      assert NextPhase(p) == (p + 1) % PhaseCount;
    }
  }
}
