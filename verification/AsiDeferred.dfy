/**
  Deferred creation.  What the parser holds back for a beam or gate is described by the lines since the last use of
  its id; the first use of a held id turns it into one entity.
 */
module AsiDeferred {
  import opened Options
  import opened AsiModel

  /** Beams and gates are held in two separate maps. */
  datatype Side = BeamSide | GateSide

  datatype Held = Held(host: StoreId, relativeTo: RelativeTo, hw: real, vw: real)

  function HeldFor(s: State, k: Side, id: AsiId): Option<Held> {
    match k
    case BeamSide =>
      if id !in s.pendingBeams then None
      else var b := s.pendingBeams[id]; Some(Held(b.hostId, b.beamType, b.hw, b.vw))
    case GateSide =>
      if id !in s.pendingGates then None
      else var g := s.pendingGates[id]; Some(Held(g.hostId, g.gateType, 0.0, 0.0))
  }

  predicate Owns(c: Command, id: AsiId) {
    !c.DegreeAngles? && !c.ReferenceYear? && !c.Unrecognized? && c.id == id
  }

  predicate Declares(c: Command, k: Side, id: AsiId) {
    Owns(c, id) && match k case BeamSide => c.BeamID? case GateSide => c.GateID?
  }

  predicate Sets(c: Command, k: Side, id: AsiId) {
    Owns(c, id) && match k case BeamSide => c.BeamAttribute? case GateSide => c.GateType?
  }

  predicate Uses(c: Command, k: Side, id: AsiId) {
    Owns(c, id) && match k case BeamSide => c.BeamUse? case GateSide => c.GateUse?
  }

  function TypeSet(c: Command, k: Side, id: AsiId): Option<RelativeTo> {
    if !Sets(c, k, id) then None
    else if k.GateSide? then Some(TypeFromString(DeQuote(c.text)))
    else if c.attr.BeamType? then Some(TypeFromString(DeQuote(c.attr.text)))
    else None
  }

  function HorzSet(c: Command, k: Side, id: AsiId): Option<real> {
    if Sets(c, k, id) && k.BeamSide? && c.attr.HorzBW? then Some(c.attr.width) else None
  }

  function VertSet(c: Command, k: Side, id: AsiId): Option<real> {
    if Sets(c, k, id) && k.BeamSide? && c.attr.VertBW? then Some(c.attr.width) else None
  }

  // ------------------------------------------------ what one line does to an id

  function HeldAfter(s: State, c: Command, k: Side, id: AsiId): Option<Held> {
    if Uses(c, k, id) then None
    else if Declares(c, k, id) && HeldFor(s, k, id).None? && c.host in s.idMap then
      Some(Held(s.idMap[c.host], AbsolutePosition, 0.0, 0.0))
    else if Sets(c, k, id) then
      var h := HeldFor(s, k, id).GetOr(Held(0, AbsolutePosition, 0.0, 0.0));
      Some(Held(h.host, TypeSet(c, k, id).GetOr(h.relativeTo), HorzSet(c, k, id).GetOr(h.hw),
                VertSet(c, k, id).GetOr(h.vw)))
    else HeldFor(s, k, id)
  }

  lemma PendingUnchanged(s: State, c: Command)
    requires !c.BeamID? && !c.BeamAttribute? && !c.BeamUse? && !c.GateID? && !c.GateType? && !c.GateUse?
    ensures Step(s, c) == Step(s, c).(pendingBeams := s.pendingBeams, pendingGates := s.pendingGates)
  {
    match c
    case PlatformID(id) =>
    case PlatformUse(id, a) =>
    case ProjectorID(host, id) =>
    case ProjectorUse(id, a) =>
    case DegreeAngles(val) =>
    case ReferenceYear(year) =>
    case Unrecognized =>
  }

  lemma BeamUseHeld(s: State, i: AsiId, a: BeamAction, k: Side, id: AsiId)
    ensures HeldFor(UseBeam(s, i, a), k, id) == if k.BeamSide? && i == id then None else HeldFor(s, k, id)
  {
    var s1 := CreateBeamIfNeeded(s, i);
    assert UseBeam(s, i, a).pendingBeams == s1.pendingBeams && UseBeam(s, i, a).pendingGates == s1.pendingGates by {
      assert UseBeam(s, i, a) == Record(s1, i, BeamKind, BeamEvent(s1, a));
    }
    if i in s.pendingBeams { } else { }
  }

  lemma BeamHeldStep(s: State, c: Command, k: Side, id: AsiId)
    requires !s.faulted && (c.BeamID? || c.BeamAttribute? || c.BeamUse?)
    ensures HeldFor(Step(s, c), k, id) == HeldAfter(s, c, k, id)
  {
    match c
    case BeamID(host, i) => if host !in s.idMap || i in s.pendingBeams { } else { }
    case BeamAttribute(i, a) => if i in s.pendingBeams { } else { }
    case BeamUse(i, a) => BeamUseHeld(s, i, a, k, id);
  }

  lemma GateHeldStep(s: State, c: Command, k: Side, id: AsiId)
    requires !s.faulted && (c.GateID? || c.GateType? || c.GateUse?)
    ensures HeldFor(Step(s, c), k, id) == HeldAfter(s, c, k, id)
  {
    match c
    case GateID(host, i) => if host !in s.idMap || i in s.pendingGates { } else { }
    case GateType(i, text) => if i in s.pendingGates { } else { }
    case GateUse(i, a) => if i in s.pendingGates { } else { }
  }

  lemma HeldStep(s: State, c: Command, k: Side, id: AsiId)
    requires !s.faulted
    ensures HeldFor(Step(s, c), k, id) == HeldAfter(s, c, k, id)
  {
    if c.BeamID? || c.BeamAttribute? || c.BeamUse? {
      BeamHeldStep(s, c, k, id);
    } else if c.GateID? || c.GateType? || c.GateUse? {
      GateHeldStep(s, c, k, id);
    } else {
      PendingUnchanged(s, c);
    }
  }

  lemma RecordKeepsIds(s: State, id: AsiId, kind: Kind, e: Option<Event>)
    ensures Record(s, id, kind, e).idMap == s.idMap
  {
    if Put(s.store, s.idMap, id, kind, e).Some? { } else { }
  }

  /** Uses change the id map at their own id only. */
  lemma UseFrame(s: State, c: Command, id: AsiId)
    requires (c.PlatformUse? || c.BeamUse? || c.GateUse?) && c.id != id
    ensures id in Step(s, c).idMap <==> id in s.idMap
    ensures id in s.idMap ==> Step(s, c).idMap[id] == s.idMap[id]
  {
    match c
    case PlatformUse(i, a) =>
      var s1 := if i in s.idMap then s else s.(idMap := s.idMap[i := 0]);
      RecordKeepsIds(s1, i, PlatformKind, Some(PlatformEvent(s, a)));
    case BeamUse(i, a) =>
      var s1 := CreateBeamIfNeeded(s, i);
      RecordKeepsIds(s1, i, BeamKind, BeamEvent(s1, a));
    case GateUse(i, a) =>
      var s1 := CreateGateIfNeeded(s, i);
      RecordKeepsIds(s1, i, GateKind, Some(GateEvent(s1, a)));
  }

  lemma IdMapFrame(s: State, c: Command, id: AsiId)
    requires !Owns(c, id) || c.BeamID? || c.BeamAttribute? || c.GateID? || c.GateType? || c.ProjectorUse?
    ensures id in Step(s, c).idMap <==> id in s.idMap
    ensures id in s.idMap ==> Step(s, c).idMap[id] == s.idMap[id]
  {
    if c.PlatformUse? || c.BeamUse? || c.GateUse? {
      UseFrame(s, c, id);
    } else if c.ProjectorUse? {
      RecordKeepsIds(s, c.id, ProjectorKind, Some(ProjectorEvent(s, c.projector)));
    }
  }

  // ------------------------------------------------------ the declarative view

  /** The index just past the last use of the id. */
  function SegmentStart(cs: seq<Command>, k: Side, id: AsiId): (lo: nat)
    ensures lo <= |cs|
    ensures forall j :: lo <= j < |cs| ==> !Uses(cs[j], k, id)
    ensures lo > 0 ==> Uses(cs[lo - 1], k, id)
  {
    if cs == [] then 0
    else if Uses(cs[|cs| - 1], k, id) then |cs|
    else SegmentStart(cs[..|cs| - 1], k, id)
  }

  /** Line `j` puts an unheld id on hold. */
  predicate Opens(s0: State, cs: seq<Command>, j: nat, k: Side, id: AsiId)
    requires j < |cs|
  {
    Sets(cs[j], k, id) || (Declares(cs[j], k, id) && cs[j].host in After(s0, cs, j).idMap)
  }

  /** The host an id opened at line `j` gets: the declared one, or none when an attribute came first. */
  function HostAt(s0: State, cs: seq<Command>, j: nat, k: Side, id: AsiId): StoreId
    requires j < |cs| && Opens(s0, cs, j, k, id)
  {
    if Sets(cs[j], k, id) then 0 else After(s0, cs, j).idMap[cs[j].host]
  }

  ghost predicate FirstOpener(s0: State, cs: seq<Command>, lo: nat, j: nat, k: Side, id: AsiId) {
    lo <= j < |cs| && Opens(s0, cs, j, k, id) && forall i :: lo <= i < j ==> !Opens(s0, cs, i, k, id)
  }

  /** The last value written in `cs[lo..]`. */
  function LastSet<V>(cs: seq<Command>, lo: nat, written: Command -> Option<V>, default: V): (v: V)
    requires lo <= |cs|
    ensures (v == default && forall j :: lo <= j < |cs| ==> written(cs[j]).None?) ||
            exists j :: lo <= j < |cs| && written(cs[j]) == Some(v) && forall i :: j < i < |cs| ==> written(cs[i]).None?
    decreases |cs|
  {
    if |cs| == lo then default
    else if written(cs[|cs| - 1]).Some? then written(cs[|cs| - 1]).value
    else
      var v := LastSet(cs[..|cs| - 1], lo, written, default);
      v
  }

  /** `h` is what the lines of `cs` from `lo` on leave on hold. */
  ghost predicate Describes(s0: State, cs: seq<Command>, lo: nat, k: Side, id: AsiId, h: Option<Held>)
    requires lo <= |cs|
  {
    && (h.None? ==> forall j :: lo <= j < |cs| ==> !Opens(s0, cs, j, k, id))
    && (h.Some? ==>
          && (exists j :: FirstOpener(s0, cs, lo, j, k, id) && h.value.host == HostAt(s0, cs, j, k, id))
          && h.value.relativeTo == LastSet(cs, lo, c => TypeSet(c, k, id), AbsolutePosition)
          && h.value.hw == LastSet(cs, lo, c => HorzSet(c, k, id), 0.0)
          && h.value.vw == LastSet(cs, lo, c => VertSet(c, k, id), 0.0))
  }

  lemma OpensInFront(s0: State, cs: seq<Command>, j: nat, k: Side, id: AsiId)
    requires j < |cs| - 1
    ensures Opens(s0, cs, j, k, id) <==> Opens(s0, cs[..|cs| - 1], j, k, id)
    ensures Opens(s0, cs, j, k, id) ==> HostAt(s0, cs, j, k, id) == HostAt(s0, cs[..|cs| - 1], j, k, id)
  {
    assert cs[..|cs| - 1][..j] == cs[..j];
  }

  /** One more line, not a use, read with the id already on hold. */
  lemma DescribesHeld(s0: State, cs: seq<Command>, lo: nat, k: Side, id: AsiId, h: Held)
    requires lo < |cs| && Describes(s0, cs[..|cs| - 1], lo, k, id, Some(h))
    requires var c := cs[|cs| - 1];
             var s := Run(s0, cs[..|cs| - 1]);
             !Uses(c, k, id) && HeldFor(s, k, id) == Some(h)
    ensures Describes(s0, cs, lo, k, id, HeldAfter(Run(s0, cs[..|cs| - 1]), cs[|cs| - 1], k, id))
  {
    var front := cs[..|cs| - 1];
    var j :| FirstOpener(s0, front, lo, j, k, id) && h.host == HostAt(s0, front, j, k, id);
    forall i | lo <= i <= j ensures Opens(s0, cs, i, k, id) <==> Opens(s0, front, i, k, id) {
      OpensInFront(s0, cs, i, k, id);
    }
    OpensInFront(s0, cs, j, k, id);
    assert FirstOpener(s0, cs, lo, j, k, id);
  }

  /** One more line, not a use, read with the id not on hold. */
  lemma DescribesUnheld(s0: State, cs: seq<Command>, lo: nat, k: Side, id: AsiId)
    requires lo < |cs| && Describes(s0, cs[..|cs| - 1], lo, k, id, None)
    requires !Uses(cs[|cs| - 1], k, id) && HeldFor(Run(s0, cs[..|cs| - 1]), k, id).None?
    ensures Describes(s0, cs, lo, k, id, HeldAfter(Run(s0, cs[..|cs| - 1]), cs[|cs| - 1], k, id))
  {
    var n := |cs| - 1;
    forall i | lo <= i < n ensures !Opens(s0, cs, i, k, id) {
      OpensInFront(s0, cs, i, k, id);
    }
    NothingSet(s0, cs[..n], lo, k, id);
    if Opens(s0, cs, n, k, id) {
      assert FirstOpener(s0, cs, lo, n, k, id);
    }
  }

  /** For every file, what is on hold for an id is described by the lines since the last use of the id. */
  lemma {:induction false} PendingIsDescribed(s0: State, cs: seq<Command>, k: Side, id: AsiId)
    requires !Run(s0, cs).faulted && HeldFor(s0, k, id).None?
    ensures Describes(s0, cs, SegmentStart(cs, k, id), k, id, HeldFor(Run(s0, cs), k, id))
  {
    if cs != [] {
      var front, c := cs[..|cs| - 1], cs[|cs| - 1];
      var s := Run(s0, front);
      PendingIsDescribed(s0, front, k, id);
      HeldStep(s, c, k, id);
      if !Uses(c, k, id) {
        match HeldFor(s, k, id)
        case None => DescribesUnheld(s0, cs, SegmentStart(front, k, id), k, id);
        case Some(h) => DescribesHeld(s0, cs, SegmentStart(front, k, id), k, id, h);
      }
    }
  }

  /** Without an opener nothing was written either. */
  lemma NothingSet(s0: State, cs: seq<Command>, lo: nat, k: Side, id: AsiId)
    requires lo <= |cs| && forall j :: lo <= j < |cs| ==> !Opens(s0, cs, j, k, id)
    ensures LastSet(cs, lo, c => TypeSet(c, k, id), AbsolutePosition) == AbsolutePosition
    ensures LastSet(cs, lo, c => HorzSet(c, k, id), 0.0) == 0.0
    ensures LastSet(cs, lo, c => VertSet(c, k, id), 0.0) == 0.0
  {
    forall j | lo <= j < |cs| ensures !Sets(cs[j], k, id) {
      assert !Opens(s0, cs, j, k, id);
    }
  }
}
