/** Which target the target beam is at, as a function of the calls of the engine alone. */
module DataEngineTargets {
  import opened DataEngineModel
  import opened DataEngineStructure

  const TARGET_INTERVAL: real := 4.0

  /** Platforms so far, the beam's current target, when it last moved on, and how often. */
  datatype Cycle = Cycle(platforms: nat, cursor: nat, last: real, moves: nat)

  const START := Cycle(0, 0, 0.0, 0)

  /**
    One call: it may create a platform; from the fourth on, if the interval has passed, the beam moves on to the next
    of the other platforms there are then, or back to the first.
   */
  function Cycled(c: Cycle, call: Call): Cycle {
    var n := c.platforms + if call.created then 1 else 0;
    if n >= 4 && call.now >= c.last + TARGET_INTERVAL
    then Cycle(n, if c.cursor + 1 < n - 1 then c.cursor + 1 else 0, call.now, c.moves + 1)
    else c.(platforms := n)
  }

  function CycleOf(calls: seq<Call>): Cycle {
    if calls == [] then START else Cycled(CycleOf(calls[..|calls| - 1]), calls[|calls| - 1])
  }

  ghost predicate AtTarget(e: Engine, c: Cycle) {
    && c.platforms == |e.platforms|
    && (|e.platforms| < 4 ==> c == Cycle(|e.platforms|, 0, 0.0, 0))
    && (|e.platforms| >= 4 ==>
          && TARGET_BEAM < |e.generators|
          && var g := e.generators[TARGET_BEAM];
             g.cursor == c.cursor && g.lastTime == c.last && |g.fired| == c.moves && g.interval == TARGET_INTERVAL)
  }

  /** The beam as the round of idle calls finds it. */
  ghost predicate ReadyAt(e: Engine, c: Cycle, n: nat) {
    && |e.platforms| == n
    && (n >= 4 ==>
          && TARGET_BEAM < |e.generators|
          && var g := e.generators[TARGET_BEAM];
          && g.kind.CyclingTargetBeam? && g.kind.id != 0 && |g.targets| == n - 1
          && g.cursor == c.cursor && g.lastTime == c.last && |g.fired| == c.moves && g.interval == TARGET_INTERVAL)
  }

  lemma OldBeamReady(e: Engine, c: Cycle)
    requires Shape(e) && AtTarget(e, c)
    ensures ReadyAt(e, c, |e.platforms|)
  {
    if |e.platforms| >= 4 {
      TargetBeamKind(e);
    }
  }

  /** The fourth platform brings the beam, further ones a target each. */
  lemma NewBeamReady(e: Engine, c: Cycle, now: real)
    requires Shape(e) && AtTarget(e, c)
    ensures ReadyAt(Create(e, now), c, |e.platforms| + 1)
  {
    var v, n := Create(e, now), |e.platforms|;
    if n >= 4 {
      TargetBeamKind(e);
      assert v.generators[TARGET_BEAM] == WithTarget(e.generators, e.targetBeam, |e.store| + 1)[TARGET_BEAM];
    } else if n == 3 {
      BlockSize(v.platforms);
      assert Block(v.platforms)[1] == BeamGenerator(v.platforms);
      assert v.generators[TARGET_BEAM] == BeamGenerator(v.platforms);
    }
  }

  lemma CallCycles(e: Engine, c: Cycle, call: Call)
    requires Shape(e) && AtTarget(e, c) && call.created == CreatesAt(e, call.now)
    ensures AtTarget(GenerateData(e, call.now), Cycled(c, call))
  {
    var now := call.now;
    var m := if CreatesAt(e, now) then Create(e, now) else e;
    if CreatesAt(e, now) {
      NewBeamReady(e, c, now);
    } else {
      OldBeamReady(e, c);
    }
    var v := GenerateData(e, now);
    assert v.platforms == m.platforms && |v.generators| == |m.generators|;
    if |m.platforms| >= 4 {
      assert v.generators[TARGET_BEAM] == Idled(m.generators[TARGET_BEAM], now);
    }
  }

  /**
    After any events: the target beam is at the target, and has moved on as often, as going through the calls says:
    at each call from its creation on at which its interval has passed since it last moved, it moves on to the next
    of the platforms other than its host that exist then, and from the last back to the first.
   */
  lemma {:induction false} TargetsCycle(store: seq<Entity>, evs: seq<Event>)
    ensures var s := Serve(NewServer(store), evs);
            AtTarget(s.engine, CycleOf(s.calls))
  {
    if evs != [] {
      var front, ev := evs[..|evs| - 1], evs[|evs| - 1];
      var s, v := Serve(NewServer(store), front), Serve(NewServer(store), evs);
      TargetsCycle(store, front);
      ShapeAlways(store, front);
      if v.calls != s.calls {
        assert v.calls[..|v.calls| - 1] == s.calls;
        CallCycles(s.engine, CycleOf(s.calls), v.calls[|v.calls| - 1]);
      }
    }
  }

  lemma {:induction false} CursorInCycle(calls: seq<Call>)
    ensures var c := CycleOf(calls);
            if c.platforms < 4 then c.cursor == 0 else c.cursor < c.platforms - 1
  {
    if calls != [] {
      CursorInCycle(calls[..|calls| - 1]);
    }
  }

  /** Each time it moves on, the beam points at another platform than before. */
  lemma MovingChangesTarget(calls: seq<Call>, call: Call)
    requires CycleOf(calls + [call]).moves == CycleOf(calls).moves + 1
    ensures CycleOf(calls + [call]).cursor != CycleOf(calls).cursor
  {
    assert (calls + [call])[..|calls|] == calls;
    CursorInCycle(calls);
  }
}
