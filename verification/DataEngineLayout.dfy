/** Every generator by its place in the list: what it drives, how often, and what it starts with. */
module DataEngineLayout {
  import opened Options
  import opened DataEngineModel
  import opened DataEngineStructure

  /** Where the generator of the `k`-th platform's beam is. */
  function BeamAt(k: nat): nat {
    7 * k + (if k >= 2 then 2 else 0) + (if k >= 5 then 1 else 0) + (if k == 1 || k == 4 then 2 else 1)
  }

  /** The generator at `i` is of the given kind and interval. */
  predicate Is(e: Engine, i: nat, kind: Kind, interval: real) {
    i < |e.generators| && e.generators[i].kind == kind && e.generators[i].interval == interval
  }

  /**
    The six generators that every platform has besides its own: its beam, the beam's draw state every 5 and its colour
    every 2 from 13 times the platform's number on, its gate, and the gate's, its colours from 5 further on.
   */
  predicate Furnished(e: Engine, k: nat, id: nat) {
    var b := BeamAt(k);
    && (if k == 3 then Is(e, b, CyclingTargetBeam(id + 1), 4.0) else Is(e, b, RotatingBeam(id + 1), 0.0))
    && Is(e, b + 1, ToggleDrawState(id + 1), 5.0) && Is(e, b + 2, CycleColor(id + 1, 13 * (k + 1)), 2.0)
    && Is(e, b + 3, RotatingGate(id + 2), 0.0)
    && Is(e, b + 4, ToggleDrawState(id + 2), 5.0) && Is(e, b + 5, CycleColor(id + 2, 13 * (k + 1) + 5), 2.0)
  }

  // -------------------------------------------------------------------- the blocks

  lemma LeadContents(ps: seq<nat>)
    requires ps != []
    ensures var k := |ps| - 1;
            var lead := Lead(ps);
            && |lead| == (if k == 1 || k == 4 then 2 else 1)
            && lead[0].kind == CirclingPlatform(ps[k], k) && lead[0].interval == 0.0
            && (k == 1 ==> lead[1].kind == ToggleIcon(ps[1]) && lead[1].interval == 3.0)
            && (k == 4 ==> lead[1].kind == CyclingAnimatedLine(ps[3]) && lead[1].interval == 2.0 &&
                           lead[1].targets == [ps[2], ps[4]])
  {
  }

  /** The element at `i` of a block that stands at `at`. */
  lemma PlaceOf(e: Engine, k: nat, i: nat)
    requires Registered(e) && k < |e.platforms| && i < |Block(e.platforms[..k + 1])|
    ensures Size(k) + i < |e.generators| && Alike(e.generators[Size(k) + i], Block(e.platforms[..k + 1])[i])
  {
    assert BlockAt(e.generators, Size(k), Block(e.platforms[..k + 1]));
    Member(e.generators, Size(k), Block(e.platforms[..k + 1]), i);
  }

  lemma PlaceInLead(e: Engine, k: nat, i: nat)
    requires Registered(e) && k < |e.platforms| && i < |Lead(e.platforms[..k + 1])|
    ensures Size(k) + i < |e.generators| && Alike(e.generators[Size(k) + i], Lead(e.platforms[..k + 1])[i])
  {
    PlaceOf(e, k, i);
  }

  lemma PlaceOfBeam(e: Engine, k: nat)
    requires Registered(e) && k < |e.platforms|
    ensures BeamAt(k) < |e.generators| && Alike(e.generators[BeamAt(k)], BeamGenerator(e.platforms[..k + 1]))
  {
    var ps := e.platforms[..k + 1];
    LeadContents(ps);
    PlaceOf(e, k, |Lead(ps)|);
    assert Block(ps)[|Lead(ps)|] == BeamGenerator(ps);
  }

  lemma PlaceInTrail(e: Engine, k: nat, i: nat)
    requires Registered(e) && k < |e.platforms| && i < |Trail(k + 1, e.platforms[k] + 1)|
    ensures BeamAt(k) + 1 + i < |e.generators|
    ensures Alike(e.generators[BeamAt(k) + 1 + i], Trail(k + 1, e.platforms[k] + 1)[i])
  {
    var ps := e.platforms[..k + 1];
    LeadContents(ps);
    PlaceOf(e, k, |Lead(ps)| + 1 + i);
    assert Block(ps)[|Lead(ps)| + 1 + i] == Trail(k + 1, e.platforms[k] + 1)[i];
  }

  lemma IsFurnished(e: Engine, k: nat)
    requires Registered(e) && k < |e.platforms|
    ensures Furnished(e, k, e.platforms[k])
  {
    PlaceOfBeam(e, k);
    PlaceInTrail(e, k, 0);
    PlaceInTrail(e, k, 1);
    PlaceInTrail(e, k, 2);
    PlaceInTrail(e, k, 3);
    PlaceInTrail(e, k, 4);
  }

  // ------------------------------------------------------------------- the missile

  /** The missile has the id after the second gate, and further platforms have later ids. */
  predicate MissileApart(e: Engine) {
    |e.platforms| >= 2 ==>
      && e.platforms[1] + 3 <= |e.store| && e.store[e.platforms[1] + 2] == PlatformEntity
      && forall j :: 2 <= j < |e.platforms| ==> e.platforms[j] > e.platforms[1] + 3
  }

  lemma CreateKeepsMissile(e: Engine, now: real)
    requires MissileApart(e)
    ensures MissileApart(Create(e, now))
  {
    var c, n := Create(e, now), |e.platforms| + 1;
    assert c.store == e.store + NewEntities(n, |e.store| + 1);
    if n == 2 {
      assert c.store[c.platforms[1] + 2] == NewEntities(n, |e.store| + 1)[3];
    }
  }

  lemma {:induction false} MissileAlways(store: seq<Entity>, evs: seq<Event>)
    ensures MissileApart(Serve(NewServer(store), evs).engine)
  {
    if evs != [] {
      var front, ev := evs[..|evs| - 1], evs[|evs| - 1];
      MissileAlways(store, front);
      if ev.Frame? {
        CreateKeepsMissile(Serve(NewServer(store), front).engine, ev.now);
      }
    }
  }

  // ------------------------------------------------------------------ after any events

  /** The `k`-th platform's own generator, right before the beam's or before the one that comes between. */
  predicate Circles(e: Engine, k: nat, id: nat) {
    Is(e, BeamAt(k) - (if k == 1 || k == 4 then 2 else 1), CirclingPlatform(id, k), 0.0)
  }

  /** From the second platform on its icon is toggled every 3 and there is a missile, a platform of its own. */
  predicate SecondIsSpecial(e: Engine)
    requires |e.platforms| >= 2
  {
    var ps := e.platforms;
    && Is(e, 8, ToggleIcon(ps[1]), 3.0) && Is(e, 15, MissileLaunchPlatform(ps[1] + 3), 0.0)
    && ps[1] + 3 <= |e.store| && e.store[ps[1] + 2] == PlatformEntity && ps[1] + 3 !in ps
  }

  /** From the fifth on the animated line leads from the fourth and cycles every 2 between the third and the fifth. */
  predicate FifthIsSpecial(e: Engine)
    requires |e.platforms| >= 5
  {
    && Is(e, 31, CyclingAnimatedLine(e.platforms[3]), 2.0)
    && e.generators[31].targets == [e.platforms[2], e.platforms[4]]
  }

  lemma PlatformCircles(e: Engine, k: nat)
    requires Registered(e) && k < |e.platforms|
    ensures Circles(e, k, e.platforms[k])
  {
    LeadContents(e.platforms[..k + 1]);
    PlaceInLead(e, k, 0);
  }

  lemma SecondHasMissile(e: Engine)
    requires Registered(e) && Placed(e) && MissileApart(e) && |e.platforms| >= 2
    ensures Is(e, 15, MissileLaunchPlatform(e.platforms[1] + 3), 0.0) && e.platforms[1] + 3 !in e.platforms
  {
    PlaceInTrail(e, 1, 5);
    assert e.platforms[0] + 2 < e.platforms[1];
  }

  lemma SecondToggles(e: Engine)
    requires Registered(e) && |e.platforms| >= 2
    ensures Is(e, 8, ToggleIcon(e.platforms[1]), 3.0)
  {
    LeadContents(e.platforms[..2]);
    PlaceInLead(e, 1, 1);
  }

  lemma FifthHasLine(e: Engine)
    requires Registered(e) && |e.platforms| >= 5
    ensures FifthIsSpecial(e)
  {
    LeadContents(e.platforms[..5]);
    PlaceInLead(e, 4, 1);
  }

  /**
    After any events every platform has its own generator and the six of its beam and gate in their places, its three
    entities are in the store, and the second and fifth have what is special to them.
   */
  lemma EveryGeneratorInPlace(store: seq<Entity>, evs: seq<Event>)
    ensures var e := Serve(NewServer(store), evs).engine;
            var ps := e.platforms;
            && (forall k :: 0 <= k < |ps| ==> Circles(e, k, ps[k]) && Furnished(e, k, ps[k]) && Hosted(e.store, ps[k]))
            && (|ps| >= 2 ==> SecondIsSpecial(e))
            && (|ps| >= 5 ==> FifthIsSpecial(e))
  {
    ShapeAlways(store, evs);
    MissileAlways(store, evs);
    AllInPlace(Serve(NewServer(store), evs).engine);
  }

  lemma AllInPlace(e: Engine)
    requires Shape(e) && MissileApart(e)
    ensures forall k :: 0 <= k < |e.platforms| ==>
              Circles(e, k, e.platforms[k]) && Furnished(e, k, e.platforms[k]) && Hosted(e.store, e.platforms[k])
    ensures |e.platforms| >= 2 ==> SecondIsSpecial(e)
    ensures |e.platforms| >= 5 ==> FifthIsSpecial(e)
  {
    forall k | 0 <= k < |e.platforms| ensures Circles(e, k, e.platforms[k]) && Furnished(e, k, e.platforms[k]) {
      PlatformCircles(e, k);
      IsFurnished(e, k);
    }
    if |e.platforms| >= 2 {
      SecondHasMissile(e);
      SecondToggles(e);
    }
    if |e.platforms| >= 5 {
      FifthHasLine(e);
    }
  }
}
