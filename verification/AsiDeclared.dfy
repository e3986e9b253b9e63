/** Files that use each id for one kind of entity, and platforms only once declared, never hit a null store object. */
module AsiDeclared {
  import opened Cycles
  import opened AsiModel
  import opened AsiSketch
  import AsiWindow

  predicate Agrees(c: Command, kinds: map<AsiId, Kind>) {
    match c
    case PlatformID(id) => id in kinds && kinds[id] == PlatformKind
    case PlatformUse(id, _) => id in kinds && kinds[id] == PlatformKind
    case BeamID(_, id) => id in kinds && kinds[id] == BeamKind
    case BeamAttribute(id, _) => id in kinds && kinds[id] == BeamKind
    case BeamUse(id, _) => id in kinds && kinds[id] == BeamKind
    case GateID(_, id) => id in kinds && kinds[id] == GateKind
    case GateType(id, _) => id in kinds && kinds[id] == GateKind
    case GateUse(id, _) => id in kinds && kinds[id] == GateKind
    case ProjectorID(_, id) => id in kinds && kinds[id] == ProjectorKind
    case ProjectorUse(id, _) => id in kinds && kinds[id] == ProjectorKind
    case _ => true
  }

  ghost predicate WellDeclared(cs: seq<Command>, kinds: map<AsiId, Kind>) {
    && (forall k :: 0 <= k < |cs| ==> Agrees(cs[k], kinds))
    && (forall k :: 0 <= k < |cs| && cs[k].PlatformUse? ==> PlatformID(cs[k].id) in cs[..k])
  }

  ghost predicate IdsTyped(store: Store, idMap: map<AsiId, StoreId>, kinds: map<AsiId, Kind>) {
    forall i :: i in idMap ==> i in kinds && Has(store, idMap[i], kinds[i])
  }

  /** Every id names, and will name, an entity of its kind. */
  ghost predicate Typed(s: State, kinds: map<AsiId, Kind>) {
    && !s.faulted && IdsTyped(s.store, s.idMap, kinds)
    && (forall i :: i in s.pendingBeams ==> i in kinds && kinds[i] == BeamKind)
    && (forall i :: i in s.pendingGates ==> i in kinds && kinds[i] == GateKind)
  }

  // ------------------------------------------------------------- on the sketch

  /** Every id names, and will name, an entity of its kind. */
  ghost predicate SketchTyped(sk: Sketch, kinds: map<AsiId, Kind>) {
    && (forall i :: i in sk.names ==> i in kinds && NamesA(sk, i, kinds[i]))
    && (forall i :: i in sk.beams ==> i in kinds && kinds[i] == BeamKind)
    && (forall i :: i in sk.gates ==> i in kinds && kinds[i] == GateKind)
  }

  lemma NamedTyped(sk: Sketch, kinds: map<AsiId, Kind>, id: AsiId, kind: Kind)
    requires SketchTyped(sk, kinds) && id in kinds && kinds[id] == kind
    ensures SketchTyped(Named(sk, id, kind), kinds)
  {
    forall i | i in Named(sk, id, kind).names ensures i in kinds && NamesA(Named(sk, id, kind), i, kinds[i]) {
      if i != id {
        assert NamesA(sk, i, kinds[i]);
      }
    }
  }

  lemma NotedTyped(sk: Sketch, kinds: map<AsiId, Kind>, c: Command)
    requires SketchTyped(sk, kinds) && Agrees(c, kinds)
    ensures SketchTyped(Noted(sk, c), kinds)
    ensures sk.names.Keys <= Noted(sk, c).names.Keys
  {
    match c
    case PlatformID(id) => NamedTyped(sk, kinds, id, PlatformKind);
    case PlatformUse(_, _) =>
    case BeamID(host, _) => if host in sk.names { } else { }
    case BeamAttribute(_, _) =>
    case BeamUse(id, _) => NamedTyped(sk, kinds, id, BeamKind);
    case GateID(host, _) => if host in sk.names { } else { }
    case GateType(_, _) =>
    case GateUse(id, _) => NamedTyped(sk, kinds, id, GateKind);
    case ProjectorID(host, id) => NamedTyped(sk, kinds, id, ProjectorKind);
    case ProjectorUse(_, _) =>
    case DegreeAngles(_) =>
    case ReferenceYear(_) =>
    case Unrecognized =>
  }

  lemma OnlyUndeclaredIsBad(sk: Sketch, kinds: map<AsiId, Kind>, c: Command)
    requires SketchTyped(sk, kinds) && Agrees(c, kinds) && Bad(sk, c)
    ensures c.PlatformUse? && c.id !in sk.names
  {
  }

  lemma WellDeclaredFront(cs: seq<Command>, kinds: map<AsiId, Kind>)
    requires cs != [] && WellDeclared(cs, kinds)
    ensures WellDeclared(cs[..|cs| - 1], kinds)
  {
    var front := cs[..|cs| - 1];
    assert forall k :: 0 <= k < |front| ==> cs[..k] == front[..k];
  }

  lemma {:induction false} SketchedTyped(cs: seq<Command>, kinds: map<AsiId, Kind>)
    requires WellDeclared(cs, kinds)
    ensures SketchTyped(Sketched(cs), kinds) && Readable(cs)
    ensures forall id :: PlatformID(id) in cs ==> id in Sketched(cs).names
  {
    if cs != [] {
      var front, c := cs[..|cs| - 1], cs[|cs| - 1];
      WellDeclaredFront(cs, kinds);
      SketchedTyped(front, kinds);
      NotedTyped(Sketched(front), kinds, c);
      BadBefore(cs);
      if Bad(Sketched(front), c) {
        OnlyUndeclaredIsBad(Sketched(front), kinds, c);
      }
    }
  }

  /** A well-declared file has no bad line, so it is read to its end. */
  lemma WellDeclaredNeverFaults(s0: State, cs: seq<Command>, kinds: map<AsiId, Kind>)
    requires s0 == Initial(s0.formats, s0.refYear) && WellDeclared(cs, kinds)
    ensures Readable(cs) && Typed(Run(s0, cs), kinds)
  {
    SketchedTyped(cs, kinds);
    ReadToEndIff(s0.formats, s0.refYear, cs);
  }

  // ------------------------------------------------- more lines than are counted

  /** A platform and `n` points for it. */
  function ManyPoints(n: nat, a: PlatformAction): seq<Command> {
    if n == 0 then [PlatformID(1)] else ManyPoints(n - 1, a) + [PlatformUse(1, a)]
  }

  lemma {:induction false} ManyPointsDeclared(n: nat, a: PlatformAction)
    requires a.PlatformData?
    ensures |ManyPoints(n, a)| == n + 1 && ManyPoints(n, a)[0] == PlatformID(1)
    ensures forall k :: 1 <= k <= n ==> ManyPoints(n, a)[k] == PlatformUse(1, a)
  {
    if n > 0 {
      ManyPointsDeclared(n - 1, a);
    }
  }

  lemma {:induction false} ManyPointsCount(n: nat, a: PlatformAction)
    requires a.PlatformData?
    ensures AsiWindow.LineCounts(ManyPoints(n, a)) == if n == 0 then map[] else map[1 := n]
  {
    var cs := ManyPoints(n, a);
    if n == 0 {
      assert cs[..0] == [];
    } else {
      ManyPointsCount(n - 1, a);
      assert cs[..|cs| - 1] == ManyPoints(n - 1, a);
    }
  }

  /** One platform and 2^32 points for it: the file is read to its end and the reported count is 0. */
  lemma TooManyPoints(formats: TimeFormats, year: int, a: PlatformAction)
    requires a.PlatformData?
    ensures var s := Run(Initial(formats, year), ManyPoints(UINT_RANGE, a));
            && !s.faulted && 1 in s.dataCount && s.dataCount[1] == 0
            && AsiWindow.Sum(s.dataCount) != |AsiWindow.Times(formats, year, ManyPoints(UINT_RANGE, a))|
  {
    var s0, cs := Initial(formats, year), ManyPoints(UINT_RANGE, a);
    var kinds := map[1 := PlatformKind];
    ManyPointsDeclared(UINT_RANGE, a);
    ManyPointsCount(UINT_RANGE, a);
    assert WellDeclared(cs, kinds) by {
      forall k | 0 <= k < |cs| && cs[k].PlatformUse? ensures PlatformID(cs[k].id) in cs[..k] {
        assert k > 0 && cs[..k][0] == PlatformID(1);
      }
    }
    WellDeclaredNeverFaults(s0, cs, kinds);
    AsiWindow.CountsAreLines(s0, cs);
    AsiWindow.CountsAddUp(s0, cs);
    assert AsiWindow.LineCounts(cs)[1] == UINT_RANGE;
  }
}
