/** When entities come into being, and what a beam or gate is made of, in terms of the lines of the file. */
module AsiCreation {
  import opened Options
  import opened AsiModel
  import opened AsiDeferred

  /** The part of an entity that never changes after its creation. */
  function Static(e: Entity): Entity {
    e.(events := [])
  }

  /** The entity a held id turns into; beam widths go from degrees to radians here and nowhere else. */
  function Fresh(k: Side, id: AsiId, h: Held): Entity {
    match k
    case BeamSide => Beam(h.host, h.relativeTo, id, h.hw * DEG2RAD, h.vw * DEG2RAD, [])
    case GateSide => Gate(h.host, h.relativeTo, [])
  }

  ghost predicate StaticPrefix(a: Store, b: Store) {
    |a| <= |b| && forall n :: 0 <= n < |a| ==> Static(a[n]) == Static(b[n])
  }

  lemma RecordStatic(s: State, id: AsiId, kind: Kind, e: Option<Event>)
    ensures |Record(s, id, kind, e).store| == |s.store| && StaticPrefix(s.store, Record(s, id, kind, e).store)
  {
    if id in s.idMap && Has(s.store, s.idMap[id], kind) && e.Some? { } else { }
  }

  /** A use of a held id creates exactly one entity, made of what was held, and the id now names it. */
  lemma CreatingUse(s: State, c: Command, k: Side, id: AsiId)
    requires !s.faulted && Uses(c, k, id) && HeldFor(s, k, id).Some?
    ensures var t := Step(s, c);
            && |t.store| == |s.store| + 1 && StaticPrefix(s.store, t.store)
            && Static(t.store[|s.store|]) == Fresh(k, id, HeldFor(s, k, id).value)
            && id in t.idMap && t.idMap[id] == |t.store| && HeldFor(t, k, id).None?
  {
    HeldStep(s, c, k, id);
    match k
    case BeamSide =>
      var s1 := CreateBeamIfNeeded(s, id);
      RecordStatic(s1, id, BeamKind, BeamEvent(s1, c.beam));
      assert s1.store[|s.store|] == Fresh(k, id, HeldFor(s, k, id).value);
    case GateSide =>
      var s1 := CreateGateIfNeeded(s, id);
      RecordStatic(s1, id, GateKind, Some(GateEvent(s1, c.gate)));
      assert s1.store[|s.store|] == Fresh(k, id, HeldFor(s, k, id).value);
  }

  lemma UnheldUse(s: State, c: Command, k: Side, id: AsiId)
    requires !s.faulted && Uses(c, k, id) && HeldFor(s, k, id).None?
    ensures |Step(s, c).store| == |s.store| && StaticPrefix(s.store, Step(s, c).store)
    ensures Step(s, c).idMap == s.idMap
  {
    match k
    case BeamSide => RecordStatic(s, id, BeamKind, BeamEvent(s, c.beam));
    case GateSide => RecordStatic(s, id, GateKind, Some(GateEvent(s, c.gate)));
  }

  /** The other lines that add an entity. */
  predicate AddsDirectly(s: State, c: Command) {
    c.PlatformID? || (c.ProjectorID? && c.host in s.idMap)
  }

  lemma OtherLines(s: State, c: Command)
    requires !s.faulted && !c.BeamUse? && !c.GateUse?
    ensures StaticPrefix(s.store, Step(s, c).store)
    ensures |Step(s, c).store| == |s.store| + if AddsDirectly(s, c) then 1 else 0
    ensures AddsDirectly(s, c) ==> Step(s, c).store[|s.store|].Platform? || Step(s, c).store[|s.store|].Projector?
  {
    match c
    case PlatformID(id) =>
    case PlatformUse(id, a) =>
      var s1 := if id in s.idMap then s else s.(idMap := s.idMap[id := 0]);
      RecordStatic(s1, id, PlatformKind, Some(PlatformEvent(s, a)));
    case BeamID(host, id) =>
    case BeamAttribute(id, a) =>
    case GateID(host, id) =>
    case GateType(id, text) =>
    case ProjectorID(host, id) =>
    case ProjectorUse(id, a) => RecordStatic(s, id, ProjectorKind, Some(ProjectorEvent(s, a)));
    case DegreeAngles(val) =>
    case ReferenceYear(year) =>
    case Unrecognized =>
  }

  /** Entities appear only at platform and projector lines and at uses of held ids, one at a time, and stay. */
  lemma StoreGrowth(s: State, c: Command)
    requires !s.faulted
    ensures StaticPrefix(s.store, Step(s, c).store)
    ensures |Step(s, c).store| == |s.store| +
              if AddsDirectly(s, c) || (c.BeamUse? && HeldFor(s, BeamSide, c.id).Some?)
                 || (c.GateUse? && HeldFor(s, GateSide, c.id).Some?) then 1 else 0
    ensures |Step(s, c).store| > |s.store| && Step(s, c).store[|s.store|].Beam? ==>
              c.BeamUse? && HeldFor(s, BeamSide, c.id).Some? && Step(s, c).store[|s.store|].originalId == c.id
  {
    if c.BeamUse? {
      if HeldFor(s, BeamSide, c.id).Some? {
        CreatingUse(s, c, BeamSide, c.id);
        assert Static(Step(s, c).store[|s.store|]).originalId == c.id;
      } else {
        UnheldUse(s, c, BeamSide, c.id);
      }
    } else if c.GateUse? {
      if HeldFor(s, GateSide, c.id).Some? {
        CreatingUse(s, c, GateSide, c.id);
        assert Static(Step(s, c).store[|s.store|]).Gate?;
      } else {
        UnheldUse(s, c, GateSide, c.id);
      }
    } else {
      OtherLines(s, c);
    }
  }

  lemma {:induction false} StoreKept(s0: State, cs: seq<Command>, j: nat)
    requires j <= |cs| && !Run(s0, cs).faulted
    ensures StaticPrefix(After(s0, cs, j).store, Run(s0, cs).store)
    decreases |cs| - j
  {
    if j == |cs| {
      AfterAll(s0, cs);
    } else {
      SoundBefore(s0, cs, j);
      AfterStep(s0, cs, j);
      StoreGrowth(After(s0, cs, j), cs[j]);
      StoreKept(s0, cs, j + 1);
    }
  }

  /** Line `u` turns the held id into an entity. */
  predicate Creates(s0: State, cs: seq<Command>, u: nat, k: Side, id: AsiId) {
    u < |cs| && Uses(cs[u], k, id) && HeldFor(After(s0, cs, u), k, id).Some?
  }

  /**
    For every file: line `u` creates an entity for the id exactly when it uses the id and the id was opened since
    its previous use.
   */
  lemma CreatesIff(s0: State, cs: seq<Command>, u: nat, k: Side, id: AsiId)
    requires u < |cs| && !Run(s0, cs).faulted && HeldFor(s0, k, id).None?
    ensures Creates(s0, cs, u, k, id) <==>
            Uses(cs[u], k, id) && exists j :: SegmentStart(cs[..u], k, id) <= j < u && Opens(s0, cs, j, k, id)
  {
    SoundBefore(s0, cs, u);
    PendingIsDescribed(s0, cs[..u], k, id);
    forall j | 0 <= j < u ensures Opens(s0, cs, j, k, id) <==> Opens(s0, cs[..u], j, k, id) {
      assert cs[..u][..j] == cs[..j];
    }
  }

  lemma FirstUseAfter(cs: seq<Command>, m: nat, u: nat, k: Side, id: AsiId) returns (v: nat)
    requires m < u < |cs| && Uses(cs[u], k, id)
    ensures m < v <= u && Uses(cs[v], k, id) && forall i :: m < i < v ==> !Uses(cs[i], k, id)
  {
    v := m + 1;
    while !Uses(cs[v], k, id)
      invariant m < v <= u && forall i :: m < i < v ==> !Uses(cs[i], k, id)
      decreases u - v
    {
      v := v + 1;
    }
  }

  lemma ReopenedBefore(s0: State, cs: seq<Command>, u: nat, v: nat, k: Side, id: AsiId) returns (m: nat)
    requires !Run(s0, cs).faulted && HeldFor(s0, k, id).None?
    requires u < v < |cs| && Uses(cs[u], k, id) && Creates(s0, cs, v, k, id)
    ensures u < m < v && Opens(s0, cs, m, k, id)
  {
    CreatesIff(s0, cs, v, k, id);
    m :| SegmentStart(cs[..v], k, id) <= m < v && Opens(s0, cs, m, k, id);
    assert cs[..v][u] == cs[u];
  }

  lemma ReopenedCreates(s0: State, cs: seq<Command>, m: nat, w: nat, k: Side, id: AsiId) returns (v: nat)
    requires !Run(s0, cs).faulted && HeldFor(s0, k, id).None?
    requires m < w < |cs| && Opens(s0, cs, m, k, id) && Uses(cs[w], k, id)
    ensures m < v && Creates(s0, cs, v, k, id)
  {
    v := FirstUseAfter(cs, m, w, k, id);
    CreatesIff(s0, cs, v, k, id);
    assert forall i :: m <= i < v ==> !Uses(cs[..v][i], k, id);
    assert SegmentStart(cs[..v], k, id) <= m;
  }

  /**
    One id yields a second entity after line `u` exactly when some later line opens it again and some line after
    that one uses it.
   */
  lemma SecondCreationIff(s0: State, cs: seq<Command>, u: nat, k: Side, id: AsiId)
    requires !Run(s0, cs).faulted && HeldFor(s0, k, id).None? && Creates(s0, cs, u, k, id)
    ensures (exists v :: u < v && Creates(s0, cs, v, k, id)) <==>
            (exists m, w :: u < m < w < |cs| && Opens(s0, cs, m, k, id) && Uses(cs[w], k, id))
  {
    if v :| u < v && Creates(s0, cs, v, k, id) {
      var m := ReopenedBefore(s0, cs, u, v, k, id);
    }
    if m, w :| u < m < w < |cs| && Opens(s0, cs, m, k, id) && Uses(cs[w], k, id) {
      var v := ReopenedCreates(s0, cs, m, w, k, id);
    }
  }

  /** Every beam in the store was created by a use of the id it carries. */
  lemma {:induction false} BeamsHaveCreators(s0: State, cs: seq<Command>, n: nat) returns (u: nat)
    requires !Run(s0, cs).faulted && s0.store == []
    requires n < |Run(s0, cs).store| && Run(s0, cs).store[n].Beam?
    ensures Creates(s0, cs, u, BeamSide, Run(s0, cs).store[n].originalId) && |After(s0, cs, u).store| == n
    decreases |cs|
  {
    var front, c := cs[..|cs| - 1], cs[|cs| - 1];
    var s := Run(s0, front);
    StoreGrowth(s, c);
    if n < |s.store| {
      assert Static(s.store[n]) == Static(Run(s0, cs).store[n]);
      u := BeamsHaveCreators(s0, front, n);
      assert front[..u] == cs[..u];
    } else {
      u := |cs| - 1;
    }
  }

  // ------------------------------------------------------- well-ordered declarations

  /**
    The id is declared at line `d` under a known host and used as one thing only; attributes and declarations come
    before its first use.
   */
  ghost predicate Disciplined(s0: State, cs: seq<Command>, d: nat, k: Side, id: AsiId) {
    && d < |cs| && Declares(cs[d], k, id) && cs[d].host in After(s0, cs, d).idMap
    && (forall j :: 0 <= j < d ==> !Owns(cs[j], id))
    && (forall j :: d <= j < |cs| && Owns(cs[j], id) ==>
          Declares(cs[j], k, id) || Sets(cs[j], k, id) || Uses(cs[j], k, id))
    && (forall u, m :: 0 <= u < m < |cs| && Uses(cs[u], k, id) ==> !Sets(cs[m], k, id) && !Declares(cs[m], k, id))
  }

  /** What a disciplined id is declared to be by the whole file. */
  ghost function Declared(s0: State, cs: seq<Command>, d: nat, k: Side, id: AsiId): Held
    requires d < |cs| && Declares(cs[d], k, id) && cs[d].host in After(s0, cs, d).idMap
  {
    Held(After(s0, cs, d).idMap[cs[d].host],
         LastSet(cs, 0, c => TypeSet(c, k, id), AbsolutePosition),
         LastSet(cs, 0, c => HorzSet(c, k, id), 0.0),
         LastSet(cs, 0, c => VertSet(c, k, id), 0.0))
  }

  lemma {:induction false} LastSetPrefix<V>(cs: seq<Command>, n: nat, written: Command -> Option<V>, default: V)
    requires n <= |cs| && forall j :: n <= j < |cs| ==> written(cs[j]).None?
    ensures LastSet(cs[..n], 0, written, default) == LastSet(cs, 0, written, default)
    decreases |cs|
  {
    if n < |cs| {
      LastSetPrefix(cs[..|cs| - 1], n, written, default);
      assert cs[..|cs| - 1][..n] == cs[..n];
    } else {
      assert cs[..n] == cs;
    }
  }

  lemma DeclarationOpens(s0: State, cs: seq<Command>, d: nat, n: nat, j: nat, k: Side, id: AsiId)
    requires Disciplined(s0, cs, d, k, id) && d < n <= |cs|
    ensures Opens(s0, cs[..n], d, k, id) && HostAt(s0, cs[..n], d, k, id) == After(s0, cs, d).idMap[cs[d].host]
    ensures FirstOpener(s0, cs[..n], 0, j, k, id) ==> j == d
  {
    assert cs[..n][..d] == cs[..d];
    assert Opens(s0, cs[..n], d, k, id);
    assert forall i :: 0 <= i < d ==> !Opens(s0, cs[..n], i, k, id) by {
      forall i | 0 <= i < d ensures !Opens(s0, cs[..n], i, k, id) {
        assert !Owns(cs[i], id);
      }
    }
  }

  lemma NothingSetAfter(s0: State, cs: seq<Command>, d: nat, n: nat, k: Side, id: AsiId)
    requires Disciplined(s0, cs, d, k, id) && n <= |cs| && (n < |cs| ==> Uses(cs[n], k, id))
    ensures LastSet(cs[..n], 0, c => TypeSet(c, k, id), AbsolutePosition) == Declared(s0, cs, d, k, id).relativeTo
    ensures LastSet(cs[..n], 0, c => HorzSet(c, k, id), 0.0) == Declared(s0, cs, d, k, id).hw
    ensures LastSet(cs[..n], 0, c => VertSet(c, k, id), 0.0) == Declared(s0, cs, d, k, id).vw
  {
    forall j | n <= j < |cs| ensures !Sets(cs[j], k, id) {
      if j == n { }
    }
    LastSetPrefix(cs, n, c => TypeSet(c, k, id), AbsolutePosition);
    LastSetPrefix(cs, n, c => HorzSet(c, k, id), 0.0);
    LastSetPrefix(cs, n, c => VertSet(c, k, id), 0.0);
  }

  lemma StartsAtZero(cs: seq<Command>, n: nat, k: Side, id: AsiId)
    requires n <= |cs| && forall j :: 0 <= j < n ==> !Uses(cs[j], k, id)
    ensures SegmentStart(cs[..n], k, id) == 0
  {
    assert forall j :: 0 <= j < |cs[..n]| ==> !Uses(cs[..n][j], k, id);
  }

  /** Until its first use a disciplined id is on hold, as declared. */
  lemma HeldUntilUse(s0: State, cs: seq<Command>, d: nat, n: nat, k: Side, id: AsiId)
    requires !Run(s0, cs).faulted && HeldFor(s0, k, id).None?
    requires Disciplined(s0, cs, d, k, id) && d < n <= |cs| && forall j :: 0 <= j < n ==> !Uses(cs[j], k, id)
    requires n < |cs| ==> Uses(cs[n], k, id)
    ensures HeldFor(After(s0, cs, n), k, id) == Some(Declared(s0, cs, d, k, id))
  {
    SoundBefore(s0, cs, n);
    PendingIsDescribed(s0, cs[..n], k, id);
    StartsAtZero(cs, n, k, id);
    DeclarationOpens(s0, cs, d, n, 0, k, id);
    var h := HeldFor(After(s0, cs, n), k, id);
    assert h.Some?;
    var j :| FirstOpener(s0, cs[..n], 0, j, k, id) && h.value.host == HostAt(s0, cs[..n], j, k, id);
    DeclarationOpens(s0, cs, d, n, j, k, id);
    NothingSetAfter(s0, cs, d, n, k, id);
  }

  lemma {:induction false} UnnamedUntilUse(s0: State, cs: seq<Command>, d: nat, n: nat, k: Side, id: AsiId)
    requires id !in s0.idMap && Disciplined(s0, cs, d, k, id)
    requires n <= |cs| && forall j :: 0 <= j < n ==> !Uses(cs[j], k, id)
    ensures id !in After(s0, cs, n).idMap
    decreases n
  {
    if n > 0 {
      UnnamedUntilUse(s0, cs, d, n - 1, k, id);
      AfterStep(s0, cs, n - 1);
      IdMapFrame(After(s0, cs, n - 1), cs[n - 1], id);
    }
  }

  /** The id is not on hold and names entity `n`. */
  ghost predicate Names(s: State, k: Side, id: AsiId, n: StoreId) {
    HeldFor(s, k, id).None? && id in s.idMap && s.idMap[id] == n
  }

  lemma NamedStep(s: State, c: Command, k: Side, id: AsiId, n: StoreId)
    requires !s.faulted && Names(s, k, id, n) && (!Owns(c, id) || Uses(c, k, id))
    ensures Names(Step(s, c), k, id, n)
  {
    HeldStep(s, c, k, id);
    if Uses(c, k, id) {
      UnheldUse(s, c, k, id);
    } else {
      IdMapFrame(s, c, id);
    }
  }

  lemma CreatingLine(s0: State, cs: seq<Command>, u: nat, k: Side, id: AsiId)
    requires Creates(s0, cs, u, k, id) && !After(s0, cs, u).faulted
    ensures var n, t := |After(s0, cs, u).store|, After(s0, cs, u + 1);
            && |t.store| == n + 1 && Static(t.store[n]) == Fresh(k, id, HeldFor(After(s0, cs, u), k, id).value)
            && Names(t, k, id, n + 1)
  {
    AfterStep(s0, cs, u);
    CreatingUse(After(s0, cs, u), cs[u], k, id);
  }

  ghost predicate OnlyUsesAfter(cs: seq<Command>, u: nat, k: Side, id: AsiId) {
    forall j :: u < j < |cs| ==> !Owns(cs[j], id) || Uses(cs[j], k, id)
  }

  lemma UsesClose(s0: State, cs: seq<Command>, d: nat, u: nat, k: Side, id: AsiId)
    requires Disciplined(s0, cs, d, k, id) && u < |cs| && Uses(cs[u], k, id)
    ensures OnlyUsesAfter(cs, u, k, id)
  {
    assert d <= u;
  }

  lemma NamedFirst(s0: State, cs: seq<Command>, u: nat, k: Side, id: AsiId)
    requires !Run(s0, cs).faulted && Creates(s0, cs, u, k, id)
    ensures Names(After(s0, cs, u + 1), k, id, |After(s0, cs, u).store| + 1)
  {
    SoundBefore(s0, cs, u);
    CreatingLine(s0, cs, u, k, id);
  }

  lemma {:induction false} NamedAtEnd(s0: State, cs: seq<Command>, u: nat, k: Side, id: AsiId, n: StoreId)
    requires u < |cs| && !Run(s0, cs).faulted && OnlyUsesAfter(cs, u, k, id)
    requires Names(Run(s0, cs[..u + 1]), k, id, n)
    ensures Names(Run(s0, cs), k, id, n)
    decreases |cs|
  {
    if |cs| == u + 1 {
      assert cs[..u + 1] == cs;
    } else {
      var front := cs[..|cs| - 1];
      assert front[..u + 1] == cs[..u + 1];
      NamedAtEnd(s0, front, u, k, id, n);
      NamedStep(Run(s0, front), cs[|cs| - 1], k, id, n);
    }
  }

  lemma OnlyUsesBefore(cs: seq<Command>, u: nat, j: nat, k: Side, id: AsiId)
    requires OnlyUsesAfter(cs, u, k, id) && j <= |cs|
    ensures OnlyUsesAfter(cs[..j], u, k, id)
  {
  }

  /** From its first use on a disciplined id is never on hold and keeps its name. */
  lemma NamedAfterUse(s0: State, cs: seq<Command>, u: nat, j: nat, k: Side, id: AsiId)
    requires !Run(s0, cs).faulted && OnlyUsesAfter(cs, u, k, id)
    requires Creates(s0, cs, u, k, id) && u < j <= |cs|
    ensures Names(After(s0, cs, j), k, id, |After(s0, cs, u).store| + 1)
  {
    NamedFirst(s0, cs, u, k, id);
    SoundBefore(s0, cs, j);
    OnlyUsesBefore(cs, u, j, k, id);
    assert cs[..j][..u + 1] == cs[..u + 1];
    NamedAtEnd(s0, cs[..j], u, k, id, |After(s0, cs, u).store| + 1);
  }

  /** The line that first uses a disciplined id is the only one to create an entity for it. */
  lemma CreatedOnce(s0: State, cs: seq<Command>, d: nat, u: nat, k: Side, id: AsiId)
    requires !Run(s0, cs).faulted && HeldFor(s0, k, id).None?
    requires Disciplined(s0, cs, d, k, id)
    requires d < u < |cs| && Uses(cs[u], k, id) && forall j :: 0 <= j < u ==> !Uses(cs[j], k, id)
    ensures forall v :: Creates(s0, cs, v, k, id) <==> v == u
  {
    HeldUntilUse(s0, cs, d, u, k, id);
    forall v | u < v < |cs| ensures !Creates(s0, cs, v, k, id) {
      UsesClose(s0, cs, d, u, k, id);
      NamedAfterUse(s0, cs, u, v, k, id);
    }
  }

  /** The entity is what the file declares: declared host, last written type and widths, widths converted once. */
  lemma CreatedAsDeclared(s0: State, cs: seq<Command>, d: nat, u: nat, k: Side, id: AsiId)
    requires !Run(s0, cs).faulted && HeldFor(s0, k, id).None?
    requires Disciplined(s0, cs, d, k, id)
    requires d < u < |cs| && Uses(cs[u], k, id) && forall j :: 0 <= j < u ==> !Uses(cs[j], k, id)
    ensures var n := |After(s0, cs, u).store|;
            && n < |Run(s0, cs).store| && id in Run(s0, cs).idMap && Run(s0, cs).idMap[id] == n + 1
            && Static(Run(s0, cs).store[n]) == Fresh(k, id, Declared(s0, cs, d, k, id))
  {
    HeldUntilUse(s0, cs, d, u, k, id);
    SoundBefore(s0, cs, u);
    CreatingLine(s0, cs, u, k, id);
    StoreKept(s0, cs, u + 1);
    UsesClose(s0, cs, d, u, k, id);
    NamedAfterUse(s0, cs, u, |cs|, k, id);
    AfterAll(s0, cs);
  }

  /** No other beam in the store carries the id. */
  lemma NoOtherBeam(s0: State, cs: seq<Command>, d: nat, u: nat, id: AsiId, m: nat)
    requires !Run(s0, cs).faulted && s0.store == [] && HeldFor(s0, BeamSide, id).None?
    requires Disciplined(s0, cs, d, BeamSide, id)
    requires d < u < |cs| && Uses(cs[u], BeamSide, id) && forall j :: 0 <= j < u ==> !Uses(cs[j], BeamSide, id)
    requires m < |Run(s0, cs).store| && Run(s0, cs).store[m].Beam? && Run(s0, cs).store[m].originalId == id
    ensures m == |After(s0, cs, u).store|
  {
    CreatedOnce(s0, cs, d, u, BeamSide, id);
    var v := BeamsHaveCreators(s0, cs, m);
  }

  /** A disciplined id is on hold only before its first use and names an entity only after. */
  lemma NeverHeldAndNamed(s0: State, cs: seq<Command>, d: nat, u: nat, k: Side, id: AsiId, j: nat)
    requires !Run(s0, cs).faulted && HeldFor(s0, k, id).None? && id !in s0.idMap
    requires Disciplined(s0, cs, d, k, id)
    requires d < u < |cs| && Uses(cs[u], k, id) && forall i :: 0 <= i < u ==> !Uses(cs[i], k, id)
    requires j <= |cs|
    ensures if j <= u then id !in After(s0, cs, j).idMap else HeldFor(After(s0, cs, j), k, id).None?
  {
    if j <= u {
      UnnamedUntilUse(s0, cs, d, j, k, id);
    } else {
      CreatedOnce(s0, cs, d, u, k, id);
      UsesClose(s0, cs, d, u, k, id);
      NamedAfterUse(s0, cs, u, j, k, id);
    }
  }

  /** A disciplined id that is never used stays on hold and yields nothing. */
  lemma DeclaredUnused(s0: State, cs: seq<Command>, d: nat, k: Side, id: AsiId)
    requires !Run(s0, cs).faulted && HeldFor(s0, k, id).None? && id !in s0.idMap
    requires Disciplined(s0, cs, d, k, id) && forall j :: 0 <= j < |cs| ==> !Uses(cs[j], k, id)
    ensures HeldFor(Run(s0, cs), k, id) == Some(Declared(s0, cs, d, k, id)) && id !in Run(s0, cs).idMap
  {
    HeldUntilUse(s0, cs, d, |cs|, k, id);
    UnnamedUntilUse(s0, cs, d, |cs|, k, id);
    AfterAll(s0, cs);
  }

  /** Out of order it goes wrong: an attribute for an id not on hold makes the next use add a beam without a host. */
  lemma LateAttributeMakesHostlessBeam(s: State, id: AsiId, attr: BeamAttr, a: BeamAction)
    requires !s.faulted && HeldFor(s, BeamSide, id).None?
    ensures var t := Step(Step(s, BeamAttribute(id, attr)), BeamUse(id, a));
            && |t.store| == |s.store| + 1 && t.store[|s.store|].Beam?
            && t.store[|s.store|].originalId == id && t.store[|s.store|].host == 0
  {
    var s1 := Step(s, BeamAttribute(id, attr));
    HeldStep(s, BeamAttribute(id, attr), BeamSide, id);
    assert s1.store == s.store;
    CreatingUse(s1, BeamUse(id, a), BeamSide, id);
    assert Static(Step(s1, BeamUse(id, a)).store[|s.store|]).originalId == id;
  }
}
