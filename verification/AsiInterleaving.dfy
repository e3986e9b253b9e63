/**
  Independence of interleaved streams: two command streams over disjoint ASI ids can be read in any interleaving,
  and the result is the two results side by side, up to the choice of store ids.
 */
module AsiInterleaving {
  import opened Options
  import opened AsiModel
  import opened AsiHosts
  import opened AsiMerge

  /** All ASI ids in a line: its own, its host's, its target's. */
  function Ids(c: Command): set<AsiId> {
    match c
    case PlatformID(id) => {id}
    case PlatformUse(id, _) => {id}
    case BeamID(host, id) => {host, id}
    case BeamAttribute(id, _) => {id}
    case BeamUse(id, BeamTargetIDCmd(_, target)) => {id, target}
    case BeamUse(id, _) => {id}
    case GateID(host, id) => {host, id}
    case GateType(id, _) => {id}
    case GateUse(id, _) => {id}
    case ProjectorID(host, id) => {host, id}
    case ProjectorUse(id, _) => {id}
    case _ => {}
  }

  /** The stream is about the entities in `x` only, and leaves the modes of the whole file alone. */
  ghost predicate Confined(cs: seq<Command>, x: set<AsiId>) {
    forall k :: 0 <= k < |cs| ==> !cs[k].DegreeAngles? && !cs[k].ReferenceYear? && Ids(cs[k]) <= x
  }

  ghost predicate Interleaves(w: seq<Command>, a: seq<Command>, b: seq<Command>) {
    if w == [] then a == [] && b == []
    else
      || (a != [] && a[|a| - 1] == w[|w| - 1] && Interleaves(w[..|w| - 1], a[..|a| - 1], b))
      || (b != [] && b[|b| - 1] == w[|w| - 1] && Interleaves(w[..|w| - 1], a, b[..|b| - 1]))
  }

  lemma {:induction false} InterleavesSwap(w: seq<Command>, a: seq<Command>, b: seq<Command>)
    requires Interleaves(w, a, b)
    ensures Interleaves(w, b, a)
  {
    if w != [] {
      if a != [] && a[|a| - 1] == w[|w| - 1] && Interleaves(w[..|w| - 1], a[..|a| - 1], b) {
        InterleavesSwap(w[..|w| - 1], a[..|a| - 1], b);
      } else {
        InterleavesSwap(w[..|w| - 1], a, b[..|b| - 1]);
      }
    }
  }

  // ------------------------------------------------ one line of the embedded stream

  /** The renaming after a line that may have added one entity. */
  ghost predicate Extended(s: State, t: State, p: seq<StoreId>, p': seq<StoreId>) {
    (p' == p && |t.store| == |s.store|) || (p' == p + [|s.store| + 1] && |t.store| == |s.store| + 1)
  }

  /** Both runs take the line alike: it faults in both, or the embedding continues and nothing else is touched. */
  ghost predicate Follows(a: State, s: State, a': State, s': State, p: seq<StoreId>, p': seq<StoreId>, x: set<AsiId>) {
    && (a'.faulted <==> s'.faulted)
    && (!a'.faulted ==> Embeds(a', s', p', x) && Touches(s, s', p, x) && Extended(s, s', p, p'))
  }

  lemma TouchesMore(s: State, s1: State, t: State, p: seq<StoreId>, p1: seq<StoreId>, x: set<AsiId>)
    requires Touches(s, s1, p, x) && Touches(s1, t, p1, x) && Extended(s, s1, p, p1)
    ensures Touches(s, t, p, x)
  {
    forall n | 1 <= n <= |s.store| && n !in p ensures t.store[n - 1] == s.store[n - 1] {
      assert n !in p1;
    }
  }

  /** A line that goes on to record an event, after `a1` and `s1` were reached alike. */
  lemma ThenRecord(a: State, s: State, a1: State, s1: State, p: seq<StoreId>, p1: seq<StoreId>, x: set<AsiId>,
                   id: AsiId, kind: Kind, e: Option<Event>)
    requires Follows(a, s, a1, s1, p, p1, x) && !a1.faulted && Grounded(a1) && id in x
    ensures Follows(a, s, Record(a1, id, kind, e), Record(s1, id, kind, RenMaybe(p1, e)), p, p1, x)
  {
    EmbedRecord(a1, s1, p1, x, id, kind, e);
    if !Record(a1, id, kind, e).faulted {
      TouchesMore(s, s1, Record(s1, id, kind, RenMaybe(p1, e)), p, p1, x);
    }
  }

  lemma ThenCount(a: State, s: State, a1: State, s1: State, p: seq<StoreId>, x: set<AsiId>, id: AsiId,
                  w: Window, w': Window)
    requires Follows(a, s, a1, s1, p, p, x) && !a1.faulted && id in x
    requires a1.dataCount == a.dataCount && s1.dataCount == s.dataCount && Embeds(a, s, p, x)
    ensures Follows(a, s, a1.(window := w, dataCount := CountData(a.dataCount, id)),
                    s1.(window := w', dataCount := CountData(s.dataCount, id)), p, p, x)
  {
    CountBoth(a.dataCount, s.dataCount, x, id);
  }

  lemma UnknownPlatform(s: State, id: AsiId, u: PlatformAction)
    requires id !in s.idMap
    ensures UsePlatform(s, id, u).faulted
  {
  }

  lemma KnownPlatform(s: State, id: AsiId, u: PlatformAction)
    requires id in s.idMap
    ensures var s1 := Record(s, id, PlatformKind, Some(PlatformEvent(s, u)));
            UsePlatform(s, id, u) ==
              if s1.faulted || !u.PlatformData? then s1
              else s1.(window := WithTime(s.window, TimeOf(s, u.time)), dataCount := CountData(s.dataCount, id))
  {
  }

  lemma PlatformFollows(a: State, s: State, p: seq<StoreId>, x: set<AsiId>, id: AsiId, u: PlatformAction)
    requires Embeds(a, s, p, x) && Grounded(a) && !a.faulted && !s.faulted && id in x
    ensures Follows(a, s, UsePlatform(a, id, u), UsePlatform(s, id, u), p, p, x)
  {
    assert id in a.idMap <==> id in s.idMap;
    if id in a.idMap {
      KnownPlatform(a, id, u);
      KnownPlatform(s, id, u);
      var e := PlatformEvent(a, u);
      assert PlatformEvent(s, u) == e && RenMaybe(p, Some(e)) == Some(e);
      ThenRecord(a, s, a, s, p, p, x, id, PlatformKind, Some(e));
      var a1, s1 := Record(a, id, PlatformKind, Some(e)), Record(s, id, PlatformKind, Some(e));
      if !a1.faulted && u.PlatformData? {
        var t := TimeOf(a, u.time);
        ThenCount(a, s, a1, s1, p, x, id, WithTime(a.window, t), WithTime(s.window, t));
      }
    } else {
      UnknownPlatform(a, id, u);
      UnknownPlatform(s, id, u);
    }
  }

  lemma BeamMapFollows(a: State, s: State, p: seq<StoreId>, x: set<AsiId>, id: AsiId, b: BeamData)
    requires Embeds(a, s, p, x) && !a.faulted && !s.faulted && id in x
    ensures Follows(a, s, a.(pendingBeams := a.pendingBeams[id := b]),
                    s.(pendingBeams := s.pendingBeams[id := b.(hostId := Ren(p, b.hostId))]), p, p, x)
  {
    PutBeam(a.pendingBeams, s.pendingBeams, p, x, id, b);
  }

  lemma GateMapFollows(a: State, s: State, p: seq<StoreId>, x: set<AsiId>, id: AsiId, g: GateData)
    requires Embeds(a, s, p, x) && !a.faulted && !s.faulted && id in x
    ensures Follows(a, s, a.(pendingGates := a.pendingGates[id := g]),
                    s.(pendingGates := s.pendingGates[id := g.(hostId := Ren(p, g.hostId))]), p, p, x)
  {
    PutGate(a.pendingGates, s.pendingGates, p, x, id, g);
  }

  lemma DeclareBeamFollows(a: State, s: State, p: seq<StoreId>, x: set<AsiId>, host: AsiId, id: AsiId)
    requires Embeds(a, s, p, x) && !a.faulted && !s.faulted && host in x && id in x
    ensures Follows(a, s, DeclareBeam(a, host, id), DeclareBeam(s, host, id), p, p, x)
  {
    assert host in a.idMap <==> host in s.idMap;
    assert id in a.pendingBeams <==> id in s.pendingBeams;
    if host in a.idMap && id !in a.pendingBeams {
      BeamMapFollows(a, s, p, x, id, NewBeamData(id, a.idMap[host]));
    }
  }

  lemma DeclareGateFollows(a: State, s: State, p: seq<StoreId>, x: set<AsiId>, host: AsiId, id: AsiId)
    requires Embeds(a, s, p, x) && !a.faulted && !s.faulted && host in x && id in x
    ensures Follows(a, s, DeclareGate(a, host, id), DeclareGate(s, host, id), p, p, x)
  {
    assert host in a.idMap <==> host in s.idMap;
    assert id in a.pendingGates <==> id in s.pendingGates;
    if host in a.idMap && id !in a.pendingGates {
      GateMapFollows(a, s, p, x, id, NewGateData(id, a.idMap[host]));
    }
  }

  lemma AttributeIgnoresHost(b: BeamData, host: StoreId, attr: BeamAttr)
    ensures WithBeamAttr(b.(hostId := host), attr) == WithBeamAttr(b, attr).(hostId := host)
    ensures WithBeamAttr(b, attr).hostId == b.hostId
  {
  }

  lemma AttributeFollows(a: State, s: State, p: seq<StoreId>, x: set<AsiId>, id: AsiId, attr: BeamAttr)
    requires Embeds(a, s, p, x) && !a.faulted && !s.faulted && id in x
    ensures Follows(a, s, SetBeamAttr(a, id, attr), SetBeamAttr(s, id, attr), p, p, x)
  {
    assert id in a.pendingBeams <==> id in s.pendingBeams;
    assert Ren(p, 0) == 0;
    var b := if id in a.pendingBeams then a.pendingBeams[id] else NewBeamData(0, 0);
    var b' := if id in s.pendingBeams then s.pendingBeams[id] else NewBeamData(0, 0);
    AttributeIgnoresHost(b, Ren(p, b.hostId), attr);
    assert b' == b.(hostId := Ren(p, b.hostId));
    BeamMapFollows(a, s, p, x, id, WithBeamAttr(b, attr));
  }

  lemma GateTypeFollows(a: State, s: State, p: seq<StoreId>, x: set<AsiId>, id: AsiId, text: string)
    requires Embeds(a, s, p, x) && !a.faulted && !s.faulted && id in x
    ensures Follows(a, s, SetGateType(a, id, text), SetGateType(s, id, text), p, p, x)
  {
    assert id in a.pendingGates <==> id in s.pendingGates;
    var g := if id in a.pendingGates then a.pendingGates[id] else NewGateData(0, 0);
    GateMapFollows(a, s, p, x, id, g.(gateType := TypeFromString(DeQuote(text))));
  }

  lemma CreateBeamFollows(a: State, s: State, p: seq<StoreId>, x: set<AsiId>, id: AsiId) returns (p': seq<StoreId>)
    requires Embeds(a, s, p, x) && Grounded(a) && !a.faulted && !s.faulted && id in x
    ensures Follows(a, s, CreateBeamIfNeeded(a, id), CreateBeamIfNeeded(s, id), p, p', x)
    ensures Grounded(CreateBeamIfNeeded(a, id))
  {
    p' := p;
    assert id in a.pendingBeams <==> id in s.pendingBeams;
    if id in a.pendingBeams {
      var e := CreatedBeam(id, a.pendingBeams[id]);
      assert CreatedBeam(id, s.pendingBeams[id]) == RenEntity(p, e);
      AddKeepsGrounded(a, id, e);
      EmbedAdd(a, s, p, x, id, e);
      p' := p + [|s.store| + 1];
      DropBeam(a.pendingBeams, s.pendingBeams, p', x, id);
    }
  }

  lemma CreateGateFollows(a: State, s: State, p: seq<StoreId>, x: set<AsiId>, id: AsiId) returns (p': seq<StoreId>)
    requires Embeds(a, s, p, x) && Grounded(a) && !a.faulted && !s.faulted && id in x
    ensures Follows(a, s, CreateGateIfNeeded(a, id), CreateGateIfNeeded(s, id), p, p', x)
    ensures Grounded(CreateGateIfNeeded(a, id))
  {
    p' := p;
    assert id in a.pendingGates <==> id in s.pendingGates;
    if id in a.pendingGates {
      var e := CreatedGate(a.pendingGates[id]);
      assert CreatedGate(s.pendingGates[id]) == RenEntity(p, e);
      AddKeepsGrounded(a, id, e);
      EmbedAdd(a, s, p, x, id, e);
      p' := p + [|s.store| + 1];
      DropGate(a.pendingGates, s.pendingGates, p', x, id);
    }
  }

  lemma EventsAgree(a: State, s: State, p: seq<StoreId>, x: set<AsiId>, id: AsiId, u: BeamAction, v: GateAction)
    requires Embeds(a, s, p, x)
    ensures Ids(BeamUse(id, u)) <= x ==> BeamEvent(s, u) == RenMaybe(p, BeamEvent(a, u))
    ensures Some(GateEvent(s, v)) == RenMaybe(p, Some(GateEvent(a, v)))
  {
    if u.BeamTargetIDCmd? && Ids(BeamUse(id, u)) <= x {
      assert u.targetId in Ids(BeamUse(id, u));
      assert u.targetId in a.idMap <==> u.targetId in s.idMap;
    }
  }

  lemma BeamFollows(a: State, s: State, p: seq<StoreId>, x: set<AsiId>, id: AsiId, u: BeamAction)
    returns (p': seq<StoreId>)
    requires Embeds(a, s, p, x) && Grounded(a) && !a.faulted && !s.faulted && id in x && Ids(BeamUse(id, u)) <= x
    ensures Follows(a, s, UseBeam(a, id, u), UseBeam(s, id, u), p, p', x)
  {
    p' := CreateBeamFollows(a, s, p, x, id);
    var a1, s1 := CreateBeamIfNeeded(a, id), CreateBeamIfNeeded(s, id);
    EventsAgree(a1, s1, p', x, id, u, GateOnOffCmd("", 0));
    ThenRecord(a, s, a1, s1, p, p', x, id, BeamKind, BeamEvent(a1, u));
  }

  lemma GateFollows(a: State, s: State, p: seq<StoreId>, x: set<AsiId>, id: AsiId, u: GateAction)
    returns (p': seq<StoreId>)
    requires Embeds(a, s, p, x) && Grounded(a) && !a.faulted && !s.faulted && id in x
    ensures Follows(a, s, UseGate(a, id, u), UseGate(s, id, u), p, p', x)
  {
    p' := CreateGateFollows(a, s, p, x, id);
    var a1, s1 := CreateGateIfNeeded(a, id), CreateGateIfNeeded(s, id);
    EventsAgree(a1, s1, p', x, id, BeamOnOffCmd("", 0), u);
    ThenRecord(a, s, a1, s1, p, p', x, id, GateKind, Some(GateEvent(a1, u)));
  }

  lemma AddFollows(a: State, s: State, p: seq<StoreId>, x: set<AsiId>, id: AsiId, e: Entity)
    requires Embeds(a, s, p, x) && Grounded(a) && !a.faulted && !s.faulted && id in x
    requires e == Platform([]) || (e.Projector? && e.events == [])
    ensures Follows(a, s, AddEntity(a, id, e), AddEntity(s, id, e), p, p + [|s.store| + 1], x)
  {
    assert RenEntity(p, e) == e;
    EmbedAdd(a, s, p, x, id, e);
  }

  lemma ProjectorFollows(a: State, s: State, p: seq<StoreId>, x: set<AsiId>, id: AsiId, u: ProjectorAction)
    requires Embeds(a, s, p, x) && Grounded(a) && !a.faulted && !s.faulted && id in x
    ensures Follows(a, s, Record(a, id, ProjectorKind, Some(ProjectorEvent(a, u))),
                    Record(s, id, ProjectorKind, Some(ProjectorEvent(s, u))), p, p, x)
  {
    var e := ProjectorEvent(a, u);
    assert ProjectorEvent(s, u) == e && RenMaybe(p, Some(e)) == Some(e);
    EmbedRecord(a, s, p, x, id, ProjectorKind, Some(e));
  }

  /** One line of the embedded stream, read by both runs. */
  lemma StepFollows(a: State, s: State, p: seq<StoreId>, x: set<AsiId>, c: Command) returns (p': seq<StoreId>)
    requires Embeds(a, s, p, x) && Grounded(a) && !a.faulted && !s.faulted
    requires !c.DegreeAngles? && !c.ReferenceYear? && Ids(c) <= x
    ensures Follows(a, s, Step(a, c), Step(s, c), p, p', x)
  {
    p' := p;
    assert !c.Unrecognized? ==> c.id in Ids(c);
    match c
    case PlatformID(id) => AddFollows(a, s, p, x, id, Platform([])); p' := p + [|s.store| + 1];
    case PlatformUse(id, u) => PlatformFollows(a, s, p, x, id, u);
    case BeamID(host, id) => assert host in Ids(c); DeclareBeamFollows(a, s, p, x, host, id);
    case BeamAttribute(id, attr) => AttributeFollows(a, s, p, x, id, attr);
    case BeamUse(id, u) => p' := BeamFollows(a, s, p, x, id, u);
    case GateID(host, id) => assert host in Ids(c); DeclareGateFollows(a, s, p, x, host, id);
    case GateType(id, text) => GateTypeFollows(a, s, p, x, id, text);
    case GateUse(id, u) => p' := GateFollows(a, s, p, x, id, u);
    case ProjectorID(host, id) =>
      assert host in Ids(c);
      assert host in a.idMap <==> host in s.idMap;
      if host in a.idMap {
        AddFollows(a, s, p, x, id, Projector(host, []));
        p' := p + [|s.store| + 1];
      }
    case ProjectorUse(id, u) => ProjectorFollows(a, s, p, x, id, u);
    case Unrecognized =>
  }
}
