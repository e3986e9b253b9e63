/** The classes of the SimpleServer data engine, proved to compute what `DataEngineModel` says. */
module DataEngine {
  import opened Options
  import opened DataEngineModel

  class DataGenerator {
    var state: Generator

    constructor (g: Generator)
      ensures state == g
    {
      state := g;
    }

    method AddTarget(target: nat)
      modifies this
      ensures state == old(state).(targets := old(state).targets + [target])
    {
      state := state.(targets := state.targets + [target]);
    }

    method Idle(scenarioTime: real)
      modifies this
      ensures state == Idled(old(state), scenarioTime)
    {
      if scenarioTime >= state.lastTime + state.interval {
        state := state.(lastTime := scenarioTime, fired := state.fired + [scenarioTime]);
        Generate();
      }
    }

    /** The part of `generate_` that carries over to the next call. */
    method Generate()
      modifies this
      ensures state == old(state).(cursor := NextCursor(old(state)))
    {
      match state.kind {
        case CyclingTargetBeam(id) =>
          if state.targets != [] && id != 0 {
            Cycle();
          }
        case CyclingAnimatedLine(anchor) =>
          if state.targets != [] && anchor != 0 {
            Cycle();
          }
        case ToggleIcon(_) =>
          state := state.(cursor := 1 - state.cursor % 2);
        case ToggleDrawState(_) =>
          state := state.(cursor := 1 - state.cursor % 2);
        case CycleColor(_, _) =>
          state := state.(cursor := state.cursor + 1);
        case CirclingPlatform(_, _) =>
        case RotatingBeam(_) =>
        case RotatingGate(_) =>
        case MissileLaunchPlatform(_) =>
      }
    }

    method Cycle()
      requires state.targets != []
      modifies this
      ensures state == old(state).(cursor := NextTarget(old(state)))
      ensures state.cursor < |state.targets|
    {
      state := state.(cursor := state.cursor + 1);
      if state.cursor >= |state.targets| {
        state := state.(cursor := 0);
      }
    }
  }

  class DataEngine {
    var store: seq<Entity>
    var platforms: seq<nat>
    var lastCreateTime: real
    var targetBeam: DataGenerator?  // also one of the generators
    var generators: seq<DataGenerator>
    var log: seq<IdleCall>
    ghost var targetAt: nat

    ghost predicate Valid()
      reads this
    {
      && (forall i, j :: 0 <= i < j < |generators| ==> generators[i] != generators[j])
      && (targetBeam != null ==> targetAt < |generators| && generators[targetAt] == targetBeam)
    }

    ghost function States(): (r: seq<Generator>)
      reads this, generators
      ensures |r| == |generators| && forall i :: 0 <= i < |r| ==> r[i] == generators[i].state
    {
      seq(|generators|, i requires 0 <= i < |generators| reads this, generators => generators[i].state)
    }

    ghost function Abs(): Engine
      reads this, generators
    {
      Engine(store, platforms, lastCreateTime, if targetBeam == null then None else Some(targetAt), States(), log)
    }

    constructor (dataStore: seq<Entity>)
      ensures Valid() && Abs() == NewEngine(dataStore)
      ensures generators == []
    {
      store, platforms, lastCreateTime := dataStore, [], 0.0;
      targetBeam, generators, log := null, [], [];
    }

    /** Adds an entity to the data store, which numbers its entities from 1. */
    method AddEntity(e: Entity) returns (id: nat)
      requires Valid()
      modifies `store
      ensures Valid() && id == |store| && store == old(store) + [e]
    {
      store := store + [e];
      id := |store|;
    }

    /** Since the start of the caller, `generators` has only grown, and by new objects. */
    twostate predicate Grown()
      reads this
    {
      && old(generators) <= generators
      && (forall i :: |old(generators)| <= i < |generators| ==> fresh(generators[i]))
    }

    method Register(g: Generator) returns (generator: DataGenerator)
      requires Valid()
      modifies `generators
      ensures Valid() && Grown() && generators == old(generators) + [generator]
      ensures States() == old(States()) + [g]
    {
      generator := new DataGenerator(g);
      generators := generators + [generator];
    }

    /** The new platform becomes a target of the target beam, if there is one. */
    method AddToTargets(id: nat)
      requires Valid()
      modifies targetBeam
      ensures Valid()
      ensures States() == WithTarget(old(States()), old(Abs()).targetBeam, id)
    {
      if targetBeam != null {
        targetBeam.AddTarget(id);
      }
    }

    /** The platform and what is registered before its beam. */
    method CreatePlatform(now: real) returns (id: nat)
      requires Valid()
      modifies this
      ensures Valid() && Grown() && targetBeam == old(targetBeam) && targetAt == old(targetAt) && log == old(log)
      ensures id == |old(store)| + 1 && platforms == old(platforms) + [id]
      ensures store == old(store) + [PlatformEntity] && lastCreateTime == now
      ensures States() == old(States()) + Lead(platforms)
    {
      ghost var gens := States();
      lastCreateTime := now;
      var offset := |platforms|;
      id := AddEntity(PlatformEntity);
      platforms := platforms + [id];
      var _ := Register(NewGenerator(CirclingPlatform(id, offset), 0.0, []));
      ghost var first := States();
      if |platforms| == 5 {
        var _ := Register(NewGenerator(CyclingAnimatedLine(platforms[3]), 2.0, [platforms[2], platforms[4]]));
        assert States() == gens + Lead(platforms);
      } else if |platforms| == 2 {
        var _ := Register(NewGenerator(ToggleIcon(platforms[1]), 3.0, []));
        assert States() == gens + Lead(platforms);
      } else {
        assert States() == gens + Lead(platforms);
      }
    }

    /** The beam: the fourth platform's cycles over the others. */
    method CreateBeam() returns (id: nat)
      requires Valid() && platforms != []
      modifies this
      ensures Valid() && Grown() && platforms == old(platforms)
      ensures lastCreateTime == old(lastCreateTime) && log == old(log)
      ensures id == |old(store)| + 1
      ensures store == old(store) + [BeamEntity(platforms[|platforms| - 1])]
      ensures |platforms| == 4 ==> targetBeam != null && targetAt == |old(generators)|
      ensures |platforms| != 4 ==> targetBeam == old(targetBeam) && targetAt == old(targetAt)
      ensures States() == old(States()) +
                [if |platforms| == 4 then NewGenerator(CyclingTargetBeam(id), 4.0, platforms[..3])
                 else NewGenerator(RotatingBeam(id), 0.0, [])]
    {
      if |platforms| == 4 {
        id := AddEntity(BeamEntity(platforms[3]));
        CreateTargetBeam(id);
      } else {
        id := AddEntity(BeamEntity(platforms[|platforms| - 1]));
        var _ := Register(NewGenerator(RotatingBeam(id), 0.0, []));
      }
    }

    method CreateTargetBeam(id: nat)
      requires Valid() && |platforms| == 4
      modifies `generators, `targetBeam, `targetAt
      ensures Valid() && Grown() && targetBeam != null && targetAt == |old(generators)|
      ensures States() == old(States()) + [NewGenerator(CyclingTargetBeam(id), 4.0, platforms[..3])]
    {
      var beam := Register(NewGenerator(CyclingTargetBeam(id), 4.0, []));
      targetBeam, targetAt := beam, |generators| - 1;
      var k := 0;
      while k < 3
        invariant 0 <= k <= 3 && Valid() && Grown() && beam == targetBeam && targetAt == |old(generators)|
        invariant generators == old(generators) + [beam]
        invariant States() == old(States()) + [NewGenerator(CyclingTargetBeam(id), 4.0, platforms[..k])]
      {
        assert platforms[..k + 1] == platforms[..k] + [platforms[k]];
        assert beam.state == States()[targetAt];
        targetBeam.AddTarget(platforms[k]);
        k := k + 1;
      }
    }

    /** Toggles the entity's draw state and cycles its colours. */
    method Animate(id: nat, start: nat)
      requires Valid()
      modifies `generators
      ensures Valid() && Grown()
      ensures States() == old(States()) +
                [NewGenerator(ToggleDrawState(id), 5.0, []), NewGenerator(CycleColor(id, start), 2.0, [])]
    {
      ghost var gens := States();
      var _ := Register(NewGenerator(ToggleDrawState(id), 5.0, []));
      var _ := Register(NewGenerator(CycleColor(id, start), 2.0, []));
    }

    method CreateGate(beamId: nat) returns (id: nat)
      requires Valid()
      modifies `store, `generators
      ensures Valid() && Grown() && id == |old(store)| + 1 && store == old(store) + [GateEntity(beamId)]
      ensures States() == old(States()) + [NewGenerator(RotatingGate(id), 0.0, [])]
    {
      id := AddEntity(GateEntity(beamId));
      var _ := Register(NewGenerator(RotatingGate(id), 0.0, []));
    }

    /** The missile goes with the second platform. */
    method CreateMissile()
      requires Valid()
      modifies `store, `generators
      ensures Valid() && Grown()
      ensures store == old(store) + (if |platforms| == 2 then [PlatformEntity] else [])
      ensures States() == old(States()) +
                (if |platforms| == 2 then [NewGenerator(MissileLaunchPlatform(|old(store)| + 1), 0.0, [])] else [])
    {
      if |platforms| == 2 {
        var id := AddEntity(PlatformEntity);
        var _ := Register(NewGenerator(MissileLaunchPlatform(id), 0.0, []));
      }
    }

    /** What follows the beam. */
    method CreateTrail(beamId: nat)
      requires Valid() && beamId == |store|
      modifies `store, `generators
      ensures Valid() && Grown()
      ensures store == old(store) + [GateEntity(beamId)] + (if |platforms| == 2 then [PlatformEntity] else [])
      ensures States() == old(States()) + Trail(|platforms|, beamId)
    {
      Animate(beamId, |platforms| * 13);
      var gateId := CreateGate(beamId);
      Animate(gateId, |platforms| * 13 + 5);
      CreateMissile();
    }

    /** The beam of the newest platform, and what follows it. */
    method CreateBeamAndTrail()
      requires Valid() && platforms != [] && platforms[|platforms| - 1] == |store|
      modifies this
      ensures Valid() && Grown() && platforms == old(platforms)
      ensures lastCreateTime == old(lastCreateTime) && log == old(log)
      ensures old(store) <= store && [PlatformEntity] + store[|old(store)|..] == NewEntities(|platforms|, |old(store)|)
      ensures |platforms| == 4 ==> targetBeam != null && targetAt == |old(generators)|
      ensures |platforms| != 4 ==> targetBeam == old(targetBeam) && targetAt == old(targetAt)
      ensures States() == old(States()) + ([BeamGenerator(platforms)] + Trail(|platforms|, |old(store)| + 1))
    {
      var beamId := CreateBeam();
      CreateTrail(beamId);
    }

    method CreateTargetedPlatform(now: real)
      requires Valid()
      modifies this, targetBeam
      ensures Valid() && Grown() && targetBeam == old(targetBeam) && targetAt == old(targetAt) && log == old(log)
      ensures platforms == old(platforms) + [|store|]
      ensures store == old(store) + [PlatformEntity] && lastCreateTime == now
      ensures States() == WithTarget(old(States()), old(Abs()).targetBeam, |store|) + Lead(platforms)
    {
      ghost var gens := States();
      var id := CreatePlatform(now);
      assert States() == gens + Lead(platforms);
      AddToTargets(id);
    }

    /** A platform with its beam and gate, and everything that depends on their number. */
    method CreateAll(nowTime: real)
      requires Valid()
      modifies this, targetBeam
      ensures Valid() && Grown() && Abs() == Create(old(Abs()), nowTime)
    {
      ghost var before := Abs();
      CreateTargetedPlatform(nowTime);
      CreateBeamAndTrail();
      assert store == before.store + NewEntities(|platforms|, |before.store| + 1);
    }

    method IdleAll(nowTime: real)
      requires Valid()
      modifies `log, generators
      ensures Valid()
      ensures log == old(log) + Round(|generators|, nowTime) && States() == AllIdled(old(States()), nowTime)
    {
      ghost var gens := States();
      var i := 0;
      while i < |generators|
        invariant 0 <= i <= |generators| == |gens| && Valid()
        invariant log == old(log) + Round(i, nowTime)
        invariant forall j :: 0 <= j < |generators| ==>
                    generators[j].state == if j < i then Idled(gens[j], nowTime) else gens[j]
      {
        generators[i].Idle(nowTime);
        log := log + [IdleCall(i, nowTime)];
        i := i + 1;
      }
    }

    method GenerateData(nowTime: real)
      requires Valid()
      modifies this, generators
      ensures Valid() && Grown() && Abs() == DataEngineModel.GenerateData(old(Abs()), nowTime)
    {
      if |platforms| < NUM_ROTATING_PLATFORMS && nowTime > lastCreateTime + NEW_PLATFORM_TIMEOUT {
        CreateAll(nowTime);
      }
      IdleAll(nowTime);
    }
  }

  class GenerateDataTimer {
    const engine: DataEngine
    var lastIdle: real

    constructor (engine: DataEngine)
      ensures this.engine == engine && lastIdle == 0.0
    {
      this.engine, lastIdle := engine, 0.0;
    }

    /** Handles an event; nothing but a frame is looked at, and none is consumed. */
    method Handle(ev: Event, ghost calls: seq<Call>) returns (handled: bool)
      requires engine.Valid()
      modifies this, engine, engine.generators
      ensures engine.Valid() && !handled
      ensures var s := DataEngineModel.Handle(Server(old(lastIdle), old(engine.Abs()), calls), ev);
              lastIdle == s.lastIdle && engine.Abs() == s.engine
    {
      if ev.Frame? {
        var nowTime := ev.at;
        if nowTime > lastIdle + IDLE_TIMEOUT {
          lastIdle := nowTime;
          engine.GenerateData(ev.now);
        }
      }
      handled := false;
    }
  }
}
