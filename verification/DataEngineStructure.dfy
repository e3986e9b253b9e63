/** What the engine has built after any events: which generators there are and what they hang on. */
module DataEngineStructure {
  import opened Options
  import opened DataEngineModel

  /** How many generators go with `n` platforms. */
  function Size(n: nat): nat {
    7 * n + (if n >= 2 then 2 else 0) + (if n >= 5 then 1 else 0)
  }

  /** The platform `id` has the beam and the gate with the next two ids. */
  predicate Hosted(store: seq<Entity>, id: nat) {
    && 1 <= id && id + 2 <= |store|
    && store[id - 1] == PlatformEntity && store[id] == BeamEntity(id) && store[id + 1] == GateEntity(id + 1)
  }

  predicate Placed(e: Engine) {
    && (forall k :: 0 <= k < |e.platforms| ==> Hosted(e.store, e.platforms[k]))
    && (forall j, k :: 0 <= j < k < |e.platforms| ==> e.platforms[j] + 2 < e.platforms[k])
  }

  /** The same generator, up to what it has done; the target beam's targets are counted separately. */
  predicate Alike(g: Generator, h: Generator) {
    g.kind == h.kind && g.interval == h.interval && (g.kind.CyclingTargetBeam? || g.targets == h.targets)
  }

  /** From position `at` on, the generators are those of `block`. */
  predicate BlockAt(gens: seq<Generator>, at: nat, block: seq<Generator>) {
    && at + |block| <= |gens|
    && forall i :: 0 <= i < |block| ==> Alike(gens[at + i], block[i])
  }

  predicate Registered(e: Engine) {
    && |e.generators| == Size(|e.platforms|)
    && forall k :: 0 <= k < |e.platforms| ==> BlockAt(e.generators, Size(k), Block(e.platforms[..k + 1]))
  }

  /** Where the target beam goes in the list: after the 23 generators of three platforms, and the fourth. */
  const TARGET_BEAM: nat := Size(3) + 1

  function Others(ps: seq<nat>): seq<nat>
    requires |ps| >= 4
  {
    ps[..3] + ps[4..]
  }

  predicate Targeting(e: Engine) {
    if |e.platforms| < 4 then e.targetBeam == None
    else e.targetBeam == Some(TARGET_BEAM) && TARGET_BEAM < |e.generators| &&
         e.generators[TARGET_BEAM].targets == Others(e.platforms)
  }

  predicate Shape(e: Engine) {
    |e.platforms| <= NUM_ROTATING_PLATFORMS && Placed(e) && Registered(e) && Targeting(e)
  }

  // ------------------------------------------------------------ it is preserved

  lemma BlockSize(ps: seq<nat>)
    requires ps != []
    ensures Size(|ps| - 1) + |Block(ps)| == Size(|ps|)
    ensures |Lead(ps)| == 1 + (if |ps| == 5 || |ps| == 2 then 1 else 0)
  {
  }

  lemma CreatePlaces(e: Engine, now: real)
    requires Placed(e)
    ensures Placed(Create(e, now))
  {
    var c, id := Create(e, now), |e.store| + 1;
    forall k | 0 <= k < |c.platforms| ensures Hosted(c.store, c.platforms[k]) {
      if k < |e.platforms| {
        assert Hosted(e.store, e.platforms[k]);
      }
    }
    forall j, k | 0 <= j < k < |c.platforms| ensures c.platforms[j] + 2 < c.platforms[k] {
      assert Hosted(e.store, e.platforms[j]);
    }
  }

  lemma AlikeAfterTarget(e: Engine, id: nat, i: nat)
    requires i < |e.generators|
    requires e.targetBeam.Some? && e.targetBeam.value < |e.generators| ==>
               e.generators[e.targetBeam.value].kind.CyclingTargetBeam?
    ensures Alike(WithTarget(e.generators, e.targetBeam, id)[i], e.generators[i])
  {
  }

  lemma TargetBeamKind(e: Engine)
    requires Registered(e) && |e.platforms| >= 4
    ensures TARGET_BEAM < |e.generators| && e.generators[TARGET_BEAM].kind == CyclingTargetBeam(e.platforms[3] + 1)
  {
    var ps := e.platforms[..4];
    BlockSize(ps);
    assert BlockAt(e.generators, Size(3), Block(e.platforms[..3 + 1]));
    assert Block(ps)[1] == BeamGenerator(ps);
    assert Alike(e.generators[Size(3) + 1], Block(ps)[1]);
  }

  /** A list that agrees with `gens` as far as that goes has the same blocks. */
  lemma BlockKept(gens: seq<Generator>, more: seq<Generator>, at: nat, block: seq<Generator>)
    requires BlockAt(gens, at, block) && |gens| <= |more|
    requires forall i :: 0 <= i < |gens| ==> Alike(more[i], gens[i])
    ensures BlockAt(more, at, block)
  {
    forall i | 0 <= i < |block| ensures Alike(more[at + i], block[i]) {
      assert Alike(gens[at + i], block[i]);
    }
  }

  lemma BlockAppended(gens: seq<Generator>, block: seq<Generator>)
    ensures BlockAt(gens + block, |gens|, block)
  {
  }

  lemma OldBlocksStay(e: Engine, now: real, k: nat)
    requires Registered(e) && Targeting(e) && k < |e.platforms|
    ensures BlockAt(Create(e, now).generators, Size(k), Block(e.platforms[..k + 1]))
  {
    var more := Create(e, now).generators;
    if e.targetBeam.Some? {
      TargetBeamKind(e);
    }
    forall i | 0 <= i < |e.generators| ensures Alike(more[i], e.generators[i]) {
      AlikeAfterTarget(e, |e.store| + 1, i);
    }
    BlockKept(e.generators, more, Size(k), Block(e.platforms[..k + 1]));
  }

  lemma NewBlockIsThere(e: Engine, now: real)
    requires Registered(e)
    ensures var c := Create(e, now);
            && BlockAt(c.generators, Size(|e.platforms|), Block(c.platforms))
            && |c.generators| == Size(|c.platforms|)
  {
    var ps := e.platforms + [|e.store| + 1];
    BlockSize(ps);
    BlockAppended(WithTarget(e.generators, e.targetBeam, |e.store| + 1), Block(ps));
  }

  lemma CreateRegisters(e: Engine, now: real)
    requires Registered(e) && Targeting(e)
    ensures Registered(Create(e, now))
  {
    var c, n := Create(e, now), |e.platforms|;
    NewBlockIsThere(e, now);
    forall k | 0 <= k < |c.platforms| ensures BlockAt(c.generators, Size(k), Block(c.platforms[..k + 1])) {
      if k < n {
        assert c.platforms[..k + 1] == e.platforms[..k + 1];
        OldBlocksStay(e, now, k);
      } else {
        assert k == n && c.platforms[..k + 1] == c.platforms;
      }
    }
  }

  lemma CreateTargets(e: Engine, now: real)
    requires Registered(e) && Targeting(e)
    ensures Targeting(Create(e, now))
  {
    var c, n := Create(e, now), |e.platforms|;
    BlockSize(c.platforms);
    if n >= 4 {
      assert Others(c.platforms) == Others(e.platforms) + [|e.store| + 1];
    } else if n == 3 {
      assert Block(c.platforms)[1] == BeamGenerator(c.platforms);
      assert c.platforms[..3] == Others(c.platforms);
    }
  }

  lemma IdleKeepsShape(e: Engine, now: real)
    requires Shape(e)
    ensures Shape(e.(generators := AllIdled(e.generators, now)))
  {
    var v := e.(generators := AllIdled(e.generators, now));
    forall k | 0 <= k < |v.platforms| ensures BlockAt(v.generators, Size(k), Block(v.platforms[..k + 1])) {
      assert BlockAt(e.generators, Size(k), Block(e.platforms[..k + 1]));
    }
  }

  lemma GenerateKeepsShape(e: Engine, now: real)
    requires Shape(e)
    ensures Shape(GenerateData(e, now))
  {
    var c := if CreatesAt(e, now) then Create(e, now) else e;
    if CreatesAt(e, now) {
      CreatePlaces(e, now);
      CreateRegisters(e, now);
      CreateTargets(e, now);
    }
    IdleKeepsShape(c, now);
    var v := c.(generators := AllIdled(c.generators, now));
    assert GenerateData(e, now) == v.(log := GenerateData(e, now).log);
  }

  lemma {:induction false} ShapeAlways(store: seq<Entity>, evs: seq<Event>)
    ensures Shape(Serve(NewServer(store), evs).engine)
  {
    if evs != [] {
      var front := evs[..|evs| - 1];
      ShapeAlways(store, front);
      var ev := evs[|evs| - 1];
      if ev.Frame? {
        GenerateKeepsShape(Serve(NewServer(store), front).engine, ev.now);
      }
    }
  }

  // ------------------------------------------------------------ what it gives

  predicate IsGate(store: seq<Entity>, id: nat) {
    1 <= id <= |store| && store[id - 1].GateEntity?
  }

  predicate IsBeam(store: seq<Entity>, id: nat) {
    1 <= id <= |store| && store[id - 1].BeamEntity?
  }

  /**
    The generator at `i` is for a gate that hangs on the beam registered three places before it, which hangs on a
    platform of the engine.
   */
  predicate GateOnOwnBeam(e: Engine, i: nat)
    requires i < |e.generators| && e.generators[i].kind.RotatingGate?
  {
    var gate := e.generators[i].kind.id;
    && IsGate(e.store, gate) && i >= 3
    && var beam := e.store[gate - 1].host;
    && IsBeam(e.store, beam) && e.store[beam - 1].host in e.platforms
    && (e.generators[i - 3].kind == RotatingBeam(beam) || e.generators[i - 3].kind == CyclingTargetBeam(beam))
  }

  /** Every generator belongs to one platform's block. */
  lemma {:induction false} WhichBlock(e: Engine, i: nat, n: nat) returns (k: nat)
    requires Registered(e) && n <= |e.platforms| && i < Size(n)
    ensures k < n && Size(k) <= i < Size(k + 1)
  {
    if i >= Size(n - 1) {
      k := n - 1;
    } else {
      k := WhichBlock(e, i, n - 1);
    }
  }

  lemma GateInBlock(ps: seq<nat>, i: nat)
    requires ps != [] && i < |Block(ps)| && Block(ps)[i].kind.RotatingGate?
    ensures i == |Lead(ps)| + 3 && Block(ps)[i].kind.id == ps[|ps| - 1] + 2
    ensures Block(ps)[i - 3] == BeamGenerator(ps)
  {
    BlockSize(ps);
    if i < |Lead(ps)| {
    } else if i > |Lead(ps)| {
      assert Block(ps)[i] == Trail(|ps|, ps[|ps| - 1] + 1)[i - |Lead(ps)| - 1];
    }
  }

  /**
    After any events at any clock readings, with `n` platforms: at most ten; 7n generators, two more from the second
    platform on and one more from the fifth; a target beam exactly from the fourth on, hosted there, its targets all
    the platforms in order but its host; and every gate on a beam of its own platform.
   */
  lemma StructureHolds(store: seq<Entity>, evs: seq<Event>)
    ensures var e := Serve(NewServer(store), evs).engine;
            var ps := e.platforms;
            && |ps| <= 10
            && |e.generators| == 7 * |ps| + (if |ps| >= 2 then 2 else 0) + (if |ps| >= 5 then 1 else 0)
            && (e.targetBeam.Some? <==> |ps| >= 4)
            && (e.targetBeam.Some? ==>
                  && e.targetBeam.value < |e.generators|
                  && var g := e.generators[e.targetBeam.value];
                  && g.kind.CyclingTargetBeam? && IsBeam(e.store, g.kind.id) && e.store[g.kind.id - 1].host == ps[3]
                  && g.targets == ps[..3] + ps[4..])
            && (forall i :: 0 <= i < |e.generators| && e.generators[i].kind.RotatingGate? ==> GateOnOwnBeam(e, i))
  {
    ShapeAlways(store, evs);
    var e := Serve(NewServer(store), evs).engine;
    if |e.platforms| >= 4 {
      TargetBeamKind(e);
      assert Hosted(e.store, e.platforms[3]);
    }
    forall i | 0 <= i < |e.generators| && e.generators[i].kind.RotatingGate? ensures GateOnOwnBeam(e, i) {
      GateIsPlaced(e, i);
    }
  }

  lemma Member(gens: seq<Generator>, at: nat, block: seq<Generator>, i: nat)
    requires BlockAt(gens, at, block) && i < |block|
    ensures at + i < |gens| && Alike(gens[at + i], block[i])
  {
  }

  lemma GateInGenerators(gens: seq<Generator>, at: nat, ps: seq<nat>, i: nat)
    requires ps != [] && BlockAt(gens, at, Block(ps)) && at <= i < at + |Block(ps)| && gens[i].kind.RotatingGate?
    ensures i >= 3 && gens[i].kind.id == ps[|ps| - 1] + 2 && gens[i - 3].kind == BeamGenerator(ps).kind
  {
    Member(gens, at, Block(ps), i - at);
    GateInBlock(ps, i - at);
    Member(gens, at, Block(ps), i - at - 3);
  }

  lemma GatePosition(e: Engine, i: nat) returns (k: nat)
    requires Registered(e) && i < |e.generators| && e.generators[i].kind.RotatingGate?
    ensures k < |e.platforms| && i >= 3 && e.generators[i].kind.id == e.platforms[k] + 2
    ensures e.generators[i - 3].kind == BeamGenerator(e.platforms[..k + 1]).kind
  {
    k := WhichBlock(e, i, |e.platforms|);
    BlockSize(e.platforms[..k + 1]);
    GateInGenerators(e.generators, Size(k), e.platforms[..k + 1], i);
  }

  lemma GateIsPlaced(e: Engine, i: nat)
    requires Shape(e) && i < |e.generators| && e.generators[i].kind.RotatingGate?
    ensures GateOnOwnBeam(e, i)
  {
    var k := GatePosition(e, i);
    var id := e.platforms[k];
    assert Hosted(e.store, id);
    assert BeamGenerator(e.platforms[..k + 1]).kind == RotatingBeam(id + 1) ||
           BeamGenerator(e.platforms[..k + 1]).kind == CyclingTargetBeam(id + 1);
  }

  // ------------------------------------------------ what they drive is in the store

  predicate IsPlatform(store: seq<Entity>, id: nat) {
    1 <= id <= |store| && store[id - 1].PlatformEntity?
  }

  predicate ArePlatforms(store: seq<Entity>, ids: seq<nat>) {
    forall i :: 0 <= i < |ids| ==> IsPlatform(store, ids[i])
  }

  /** What the generator updates, commands or points at exists and is of the kind it takes it for. */
  predicate Live(store: seq<Entity>, g: Generator) {
    match g.kind
    case CirclingPlatform(id, _) => IsPlatform(store, id)
    case ToggleIcon(id) => IsPlatform(store, id)
    case MissileLaunchPlatform(id) => IsPlatform(store, id)
    case CyclingAnimatedLine(anchor) => IsPlatform(store, anchor) && ArePlatforms(store, g.targets)
    case CyclingTargetBeam(id) => IsBeam(store, id) && ArePlatforms(store, g.targets)
    case RotatingBeam(id) => IsBeam(store, id)
    case RotatingGate(id) => IsGate(store, id)
    case ToggleDrawState(id) => IsBeam(store, id) || IsGate(store, id)
    case CycleColor(id, _) => IsBeam(store, id) || IsGate(store, id)
  }

  predicate AllLive(store: seq<Entity>, gens: seq<Generator>) {
    forall i :: 0 <= i < |gens| ==> Live(store, gens[i])
  }

  lemma LiveStays(store: seq<Entity>, more: seq<Entity>, g: Generator)
    requires Live(store, g)
    ensures Live(store + more, g)
  {
    if g.kind.CyclingAnimatedLine? || g.kind.CyclingTargetBeam? {
      assert forall i :: 0 <= i < |g.targets| ==> IsPlatform(store + more, g.targets[i]);
    }
  }

  lemma LeadLive(store: seq<Entity>, ps: seq<nat>)
    requires ps != [] && ArePlatforms(store, ps)
    ensures AllLive(store, Lead(ps))
  {
  }

  lemma TrailLive(store: seq<Entity>, n: nat, id: nat)
    requires IsBeam(store, id) && IsGate(store, id + 1) && (n == 2 ==> IsPlatform(store, id + 2))
    ensures AllLive(store, Trail(n, id))
  {
  }

  lemma TargetedLive(e: Engine, store: seq<Entity>, id: nat)
    requires AllLive(store, e.generators) && IsPlatform(store, id)
    ensures AllLive(store, WithTarget(e.generators, e.targetBeam, id))
  {
    var gens := WithTarget(e.generators, e.targetBeam, id);
    forall i | 0 <= i < |gens| ensures Live(store, gens[i]) {
      assert Live(store, e.generators[i]);
    }
  }

  lemma CreateKeepsLive(e: Engine, now: real)
    requires Placed(e) && AllLive(e.store, e.generators)
    ensures AllLive(Create(e, now).store, Create(e, now).generators)
  {
    var c, id := Create(e, now), |e.store| + 1;
    var ps, n := c.platforms, |c.platforms|;
    assert IsPlatform(c.store, id) && IsBeam(c.store, id + 1) && IsGate(c.store, id + 2);
    assert n == 2 ==> IsPlatform(c.store, id + 3);
    forall i | 0 <= i < n ensures IsPlatform(c.store, ps[i]) {
      if i < n - 1 {
        assert Hosted(e.store, e.platforms[i]);
      }
    }
    forall i | 0 <= i < |e.generators| ensures Live(c.store, e.generators[i]) {
      LiveStays(e.store, NewEntities(n, id), e.generators[i]);
    }
    TargetedLive(e, c.store, id);
    LeadLive(c.store, ps);
    TrailLive(c.store, n, id + 1);
    assert Live(c.store, BeamGenerator(ps));
  }

  lemma IdleKeepsLive(store: seq<Entity>, gens: seq<Generator>, now: real)
    requires AllLive(store, gens)
    ensures AllLive(store, AllIdled(gens, now))
  {
    forall i | 0 <= i < |gens| ensures Live(store, AllIdled(gens, now)[i]) {
      assert Live(store, gens[i]);
    }
  }

  /** After any events, no generator ever works on an entity that is missing from the store or of another kind. */
  lemma {:induction false} GeneratorsAreLive(store: seq<Entity>, evs: seq<Event>)
    ensures var e := Serve(NewServer(store), evs).engine;
            AllLive(e.store, e.generators)
  {
    if evs != [] {
      var front, ev := evs[..|evs| - 1], evs[|evs| - 1];
      GeneratorsAreLive(store, front);
      ShapeAlways(store, front);
      var e := Serve(NewServer(store), front).engine;
      if ev.Frame? {
        var c := if CreatesAt(e, ev.now) then Create(e, ev.now) else e;
        CreateKeepsLive(e, ev.now);
        IdleKeepsLive(c.store, c.generators, ev.now);
      }
    }
  }

  // --------------------------------------------------------- what they are doing

  /**
    Colours move on, icons, draw states and the two ends of the animated line alternate, once per firing; the target
    beam's target is in its list.
   */
  predicate CursorOk(g: Generator) {
    match g.kind
    case CycleColor(_, start) => g.cursor == start + |g.fired|
    case ToggleIcon(_) => g.cursor == |g.fired| % 2
    case ToggleDrawState(_) => g.cursor == |g.fired| % 2
    case CyclingTargetBeam(_) => g.targets != [] && g.cursor < |g.targets|
    case CyclingAnimatedLine(anchor) => anchor != 0 && |g.targets| == 2 && g.cursor == |g.fired| % 2
    case CirclingPlatform(_, _) => true
    case RotatingBeam(_) => true
    case RotatingGate(_) => true
    case MissileLaunchPlatform(_) => true
  }

  lemma IdledKeepsCursor(g: Generator, now: real)
    requires CursorOk(g)
    ensures CursorOk(Idled(g, now))
  {
  }

  predicate CursorsOk(gens: seq<Generator>) {
    forall i :: 0 <= i < |gens| ==> CursorOk(gens[i])
  }

  lemma BlockCursors(ps: seq<nat>)
    requires ps != [] && (|ps| == 5 ==> ps[3] != 0)
    ensures CursorsOk(Lead(ps)) && CursorOk(BeamGenerator(ps)) && CursorsOk(Trail(|ps|, ps[|ps| - 1] + 1))
  {
  }

  lemma TargetedCursors(e: Engine, id: nat)
    requires CursorsOk(e.generators) && Registered(e) && Targeting(e)
    ensures CursorsOk(WithTarget(e.generators, e.targetBeam, id))
  {
    var gens := WithTarget(e.generators, e.targetBeam, id);
    if e.targetBeam.Some? {
      TargetBeamKind(e);
    }
    forall i | 0 <= i < |gens| ensures CursorOk(gens[i]) {
      assert CursorOk(e.generators[i]);
    }
  }

  lemma CreateKeepsCursors(e: Engine, now: real)
    requires CursorsOk(e.generators) && Shape(e)
    ensures CursorsOk(Create(e, now).generators)
  {
    var ps := e.platforms + [|e.store| + 1];
    if |ps| == 5 {
      assert Hosted(e.store, e.platforms[3]);
    }
    TargetedCursors(e, |e.store| + 1);
    BlockCursors(ps);
  }

  lemma IdleKeepsCursors(gens: seq<Generator>, now: real)
    requires CursorsOk(gens)
    ensures CursorsOk(AllIdled(gens, now))
  {
    forall i | 0 <= i < |gens| ensures CursorOk(AllIdled(gens, now)[i]) {
      IdledKeepsCursor(gens[i], now);
    }
  }

  lemma {:induction false} CursorsAlways(store: seq<Entity>, evs: seq<Event>)
    ensures CursorsOk(Serve(NewServer(store), evs).engine.generators)
  {
    if evs != [] {
      var front, ev := evs[..|evs| - 1], evs[|evs| - 1];
      CursorsAlways(store, front);
      ShapeAlways(store, front);
      var e := Serve(NewServer(store), front).engine;
      if ev.Frame? {
        var c := if CreatesAt(e, ev.now) then Create(e, ev.now) else e;
        CreateKeepsCursors(e, ev.now);
        IdleKeepsCursors(c.generators, ev.now);
      }
    }
  }

  /** Once there is a target beam, what it points at is always a platform of the engine other than its host. */
  lemma TargetIsAnother(store: seq<Entity>, evs: seq<Event>)
    requires Serve(NewServer(store), evs).engine.targetBeam.Some?
    ensures var e := Serve(NewServer(store), evs).engine;
            && 4 <= |e.platforms| && e.targetBeam.value < |e.generators|
            && var g := e.generators[e.targetBeam.value];
            && g.cursor < |g.targets| && g.targets[g.cursor] in e.platforms && g.targets[g.cursor] != e.platforms[3]
  {
    ShapeAlways(store, evs);
    CursorsAlways(store, evs);
    var e := Serve(NewServer(store), evs).engine;
    TargetBeamKind(e);
    var g := e.generators[TARGET_BEAM];
    var c := g.cursor;
    assert CursorOk(g);
    assert g.targets[c] == e.platforms[if c < 3 then c else c + 1];
  }
}
