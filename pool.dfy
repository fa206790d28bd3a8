/**
 * The particles sketch: its pool of particles and the parameters the
 * sliders set. `setupParticles`, `updateParams`, `moveParticles` and
 * `draw` change them in place and are proved against `PoolSpec`.
 */
module Pool {
  import opened Controls
  import opened ParticleSpec
  import opened Particles
  import opened PoolSpec

  /** No particle object appears twice in the pool. */
  ghost predicate Distinct(ps: seq<Particle>) {
    forall i, j :: 0 <= i < j < |ps| ==> ps[i] != ps[j]
  }

  /** The states of the particles of `ps`, in order. */
  ghost function StatesOf(ps: seq<Particle>): (r: seq<PState>)
    reads set p | p in ps
    ensures |r| == |ps|
    ensures forall j :: 0 <= j < |ps| ==> r[j] == ps[j].State()
    decreases |ps|
  {
    if ps == [] then [] else [ps[0].State()] + StatesOf(ps[1..])
  }

  /**
   * One step of the sweep, on values: the turn of particle `i` either
   * leaves its new state in place or splices it out and appends its
   * replacement, and its draw call joins the calls made so far.
   */
  lemma SweepStep(ps: seq<PState>, ds: seq<UnitTurnDraw>, step: (PState, UnitTurnDraw) -> PState, born: UnitTurnDraw -> PState,
                  call: (PState, UnitTurnDraw) -> DrawCall, i: nat, k: nat, before: seq<PState>)
    requires i < k <= |ps| == |ds|
    requires before == Partial(ps, ds, step, born, i + 1, k)
    ensures before[i] == ps[i]
    ensures Alive(step(ps[i], ds[i])) ==>
      before[i := step(ps[i], ds[i])] == Partial(ps, ds, step, born, i, k)
    ensures !Alive(step(ps[i], ds[i])) ==>
      before[..i] + before[i + 1..] + [born(ds[i])] == Partial(ps, ds, step, born, i, k)
    ensures Emitted(ps[i..k], ds[i..k], call) == Emitted(ps[i + 1..k], ds[i + 1..k], call) + [call(ps[i], ds[i])]
  {
    var q := step(ps[i], ds[i]);
    var kept := Kept(ps[i + 1..k], ds[i + 1..k], step);
    var newborns := Respawned(ps[i + 1..k], ds[i + 1..k], step, born);
    assert ps[i..k][1..] == ps[i + 1..k] && ds[i..k][1..] == ds[i + 1..k];
    assert Kept(ps[i..k], ds[i..k], step) == (if Alive(q) then [q] else []) + kept;
    assert Respawned(ps[i..k], ds[i..k], step, born) == newborns + (if Alive(q) then [] else [born(ds[i])]);
    assert ps[..i + 1] == ps[..i] + [ps[i]];
    assert before == ps[..i] + [ps[i]] + (kept + ps[k..] + newborns);
  }

  /** The pool once the sweep has visited indices `i` to `k - 1`. */
  ghost function Partial(ps: seq<PState>, ds: seq<UnitTurnDraw>, step: (PState, UnitTurnDraw) -> PState, born: UnitTurnDraw -> PState,
                         i: nat, k: nat): seq<PState>
    requires i <= k <= |ps| == |ds|
  {
    ps[..i] + Kept(ps[i..k], ds[i..k], step) + ps[k..] + Respawned(ps[i..k], ds[i..k], step, born)
  }

  /** Before the sweep nothing has changed; after it, the pool is `Swept` and the calls are `SweptCalls`. */
  lemma PartialEnds(ps: seq<PState>, ds: seq<UnitTurnDraw>, t: Tunables, sin: real -> real, k: nat)
    requires |ps| == |ds| && k == SliceCount(|ps|, t.count)
    ensures Partial(ps, ds, TurnStep(t, sin), Newborn(t.climate), k, k) == ps
    ensures Emitted(ps[k..k], ds[k..k], TurnCall(t, sin)) == []
    ensures Partial(ps, ds, TurnStep(t, sin), Newborn(t.climate), 0, k) == Swept(ps, t, sin, ds)
    ensures Emitted(ps[0..k], ds[0..k], TurnCall(t, sin)) == SweptCalls(ps, t, sin, ds)
  {
    assert ps[k..k] == [] && ps[..k] + ps[k..] == ps;
    assert ps[0..k] == ps[..k] && ds[0..k] == ds[..k] && ps[..0] == [];
  }

  /** The pool built from one more draw ends with that draw's spawn. */
  lemma InitialisedGrows(draws: seq<SpawnDraw>, i: nat)
    requires i < |draws| && forall j :: 0 <= j < |draws| ==> draws[j].Valid()
    ensures Initialised(draws[..i + 1]) == Initialised(draws[..i]) + [Spawn(InitialClimate, draws[i])]
  {
    var a := Initialised(draws[..i + 1]);
    var b := Initialised(draws[..i]) + [Spawn(InitialClimate, draws[i])];
    assert |a| == |b|;
    forall j | 0 <= j < |a|
      ensures a[j] == b[j]
    {
      assert draws[..i + 1][j] == draws[j];
      if j < i {
        assert draws[..i][j] == draws[j];
      }
    }
  }

  /** Splicing one particle out of a pool of distinct particles leaves them distinct. */
  lemma DistinctSplice(ps: seq<Particle>, i: nat)
    requires i < |ps| && Distinct(ps)
    ensures Distinct(ps[..i] + ps[i + 1..])
    ensures forall j :: 0 <= j < i ==> (ps[..i] + ps[i + 1..])[j] == ps[j]
  {
    var r := ps[..i] + ps[i + 1..];
    forall a, b | 0 <= a < b < |r|
      ensures r[a] != r[b]
    {
      var a' := if a < i then a else a + 1;
      var b' := if b < i then b else b + 1;
      assert r[a] == ps[a'] && r[b] == ps[b'];
    }
  }

  /** Splicing one particle out of the pool splices its state out of the states. */
  lemma StatesOfSplice(ps: seq<Particle>, i: nat)
    requires i < |ps|
    ensures StatesOf(ps[..i] + ps[i + 1..]) == StatesOf(ps)[..i] + StatesOf(ps)[i + 1..]
  {
    var a := StatesOf(ps[..i] + ps[i + 1..]);
    var b := StatesOf(ps)[..i] + StatesOf(ps)[i + 1..];
    assert |a| == |b|;
    forall j | 0 <= j < |a|
      ensures a[j] == b[j]
    {
      if j < i {
        assert (ps[..i] + ps[i + 1..])[j] == ps[j];
      } else {
        assert (ps[..i] + ps[i + 1..])[j] == ps[j + 1];
      }
    }
  }

  class Sketch {
    var particles: seq<Particle>
    var params: Tunables

    /** The pool's particles are distinct objects, each in a well-formed state. */
    ghost predicate Valid()
      reads this, set p | p in particles
    {
      Distinct(particles) && AllWellFormed(StatesOf(particles))
    }

    /** The states of the pool, in order. */
    ghost function States(): seq<PState>
      reads this, set p | p in particles
    {
      StatesOf(particles)
    }

    /**
     * `setup`: the parameters hold their initial values (only `climate` is
     * set, to 5) and `setupParticles` fills the pool.
     */
    constructor (draws: seq<SpawnDraw>)
      requires |draws| == NParticles
      requires forall j :: 0 <= j < |draws| ==> draws[j].Valid()
      ensures Valid()
      ensures params == Initial
      ensures States() == Initialised(draws)
    {
      params := Initial;
      particles := [];
      new;
      SetupParticles(draws);
      InitialisedWellFormed(draws);
    }

    /** `setupParticles`: `nParticles` new particles, spawned at the current climate. */
    method SetupParticles(draws: seq<SpawnDraw>)
      requires |draws| == NParticles
      requires forall j :: 0 <= j < |draws| ==> draws[j].Valid()
      requires params.climate == InitialClimate
      modifies this
      ensures params == old(params)
      ensures Distinct(particles)
      ensures States() == Initialised(draws)
    {
      particles := [];
      for i := 0 to NParticles
        invariant params == old(params)
        invariant Distinct(particles)
        invariant StatesOf(particles) == Initialised(draws[..i])
      {
        InitialisedGrows(draws, i);
        Push(params.climate, draws[i]);
      }
      assert draws[..NParticles] == draws;
    }

    /** `updateParams`: read the sliders and derive the field and colour parameters. */
    method UpdateParams(s: Sliders)
      modifies this
      ensures params == Controls.UpdateParams(s)
      ensures particles == old(particles)
    {
      params := Controls.UpdateParams(s);
    }

    /**
     * `moveParticles`: visit the first `N` particles from the highest index
     * down; each moves and draws itself, and one that has died is spliced
     * out and a newborn particle pushed at the end.
     */
    method MoveParticles(sin: real -> real, ds: seq<UnitTurnDraw>) returns (calls: seq<DrawCall>)
      requires Valid() && |ds| == |particles|
      modifies this, set p | p in particles
      ensures Valid()
      ensures params == old(params)
      ensures States() == Swept(old(States()), params, sin, ds)
      ensures calls == SweptCalls(old(States()), params, sin, ds)
    {
      ghost var ps := States();
      ghost var start := particles;
      var k := SliceCount(|particles|, params.count);
      calls := [];
      PartialEnds(ps, ds, params, sin, k);
      for i := k downto 0
        invariant |particles| == |ps|
        invariant forall j :: 0 <= j < i ==> particles[j] == start[j]
        invariant Distinct(particles)
        invariant params == old(params)
        invariant StatesOf(particles) == Partial(ps, ds, TurnStep(params, sin), Newborn(params.climate), i, k)
        invariant calls == Emitted(ps[i..k], ds[i..k], TurnCall(params, sin))
      {
        var call := Visit(i, k, sin, ds, ps);
        calls := calls + [call];
      }
      SweptWellFormed(ps, params, sin, ds);
    }

    /**
     * The body of the loop of `moveParticles` for index `i`: the particle
     * moves and draws itself, and if it has died it is spliced out and a
     * newborn pushed at the end.
     */
    method Visit(i: nat, k: nat, sin: real -> real, ds: seq<UnitTurnDraw>, ghost ps: seq<PState>) returns (call: DrawCall)
      requires i < k <= |ps| == |ds| == |particles|
      requires Distinct(particles)
      requires StatesOf(particles) == Partial(ps, ds, TurnStep(params, sin), Newborn(params.climate), i + 1, k)
      modifies this, particles[i]
      ensures params == old(params)
      ensures |particles| == |ps| && Distinct(particles)
      ensures forall j :: 0 <= j < i ==> particles[j] == old(particles)[j]
      ensures StatesOf(particles) == Partial(ps, ds, TurnStep(params, sin), Newborn(params.climate), i, k)
      ensures Emitted(ps[i..k], ds[i..k], TurnCall(params, sin))
          == Emitted(ps[i + 1..k], ds[i + 1..k], TurnCall(params, sin)) + [call]
    {
      ghost var step := TurnStep(params, sin);
      ghost var born := Newborn(params.climate);
      ghost var draw := TurnCall(params, sin);
      ghost var before := StatesOf(particles);
      SweepStep(ps, ds, step, born, draw, i, k, before);
      call := Turn(i, sin, ds[i].walk);
      assert StatesOf(particles) == before[i := step(ps[i], ds[i])];
      assert call == draw(ps[i], ds[i]);
      if particles[i].age <= DeathAge {
        assert !Alive(step(ps[i], ds[i]));
        Replace(i, params.climate, ds[i].spawn);
        assert Spawn(params.climate, ds[i].spawn) == born(ds[i]);
      } else {
        assert Alive(step(ps[i], ds[i]));
      }
    }

    /**
     * One particle's turn inside `moveParticles`: particle `i` moves and
     * draws itself; no other particle changes.
     */
    method Turn(i: nat, sin: real -> real, w: WalkDraw) returns (call: DrawCall)
      requires i < |particles| && Distinct(particles) && w.Valid()
      modifies particles[i]
      ensures StatesOf(particles) == old(StatesOf(particles))[i := Step(old(particles[i].State()), params, sin, w)]
      ensures call == Render(particles[i].State(), params)
    {
      var p := particles[i];
      p.Move(params, sin, w);
      call := p.Show(params);
      forall j | 0 <= j < |particles| && j != i
        ensures particles[j].State() == old(particles[j].State())
      {
        assert particles[j] != p;
      }
    }

    /**
     * `particles.splice(i, 1)` followed by the push of a newborn: the
     * particle at `i` leaves, those after it shift down, and the newborn
     * comes last.
     */
    method Replace(i: nat, climate: real, d: SpawnDraw)
      requires i < |particles| && Distinct(particles) && d.Valid()
      modifies this
      ensures params == old(params)
      ensures |particles| == |old(particles)| && Distinct(particles)
      ensures forall j :: 0 <= j < i ==> particles[j] == old(particles)[j]
      ensures StatesOf(particles) == old(StatesOf(particles))[..i] + old(StatesOf(particles))[i + 1..] + [Spawn(climate, d)]
    {
      StatesOfSplice(particles, i);
      DistinctSplice(particles, i);
      particles := particles[..i] + particles[i + 1..];
      Push(climate, d);
    }

    /** `particles.push(new Particle(sketch))`: a newborn particle at the end of the pool. */
    method Push(climate: real, d: SpawnDraw)
      requires Distinct(particles) && d.Valid()
      modifies this
      ensures params == old(params)
      ensures Distinct(particles)
      ensures |particles| == |old(particles)| + 1
      ensures forall j :: 0 <= j < |old(particles)| ==> particles[j] == old(particles)[j]
      ensures StatesOf(particles) == old(StatesOf(particles)) + [Spawn(climate, d)]
    {
      var p := new Particle(climate, d);
      particles := particles + [p];
    }

    /** `draw`: read the sliders, then sweep the pool (the background wash is not modelled). */
    method Draw(s: Sliders, sin: real -> real, ds: seq<UnitTurnDraw>) returns (calls: seq<DrawCall>)
      requires Valid() && |ds| == |particles|
      modifies this, set p | p in particles
      ensures Valid()
      ensures params == Controls.UpdateParams(s)
      ensures States() == Swept(old(States()), params, sin, ds)
      ensures calls == SweptCalls(old(States()), params, sin, ds)
    {
      UpdateParams(s);
      calls := MoveParticles(sin, ds);
    }
  }
}
