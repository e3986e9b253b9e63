/**
  What can be told from the lines of a file alone: which store id each file id names, of which kind it is, and what
  is on hold.  A file is read to its end exactly when no line uses an id that names something of another kind.
 */
module AsiSketch {
  import opened Options
  import opened AsiModel

  /** The kinds of the entities made so far, what each id names, and the beam and gate ids on hold. */
  datatype Sketch = Sketch(kinds: seq<Kind>, names: map<AsiId, StoreId>, beams: set<AsiId>, gates: set<AsiId>)

  const BLANK := Sketch([], map[], {}, {})

  predicate NamesA(sk: Sketch, id: AsiId, kind: Kind) {
    id in sk.names && 1 <= sk.names[id] <= |sk.kinds| && sk.kinds[sk.names[id] - 1] == kind
  }

  function Named(sk: Sketch, id: AsiId, kind: Kind): Sketch {
    sk.(kinds := sk.kinds + [kind], names := sk.names[id := |sk.kinds| + 1])
  }

  /** The line makes an entity, for the id it is about. */
  predicate Makes(sk: Sketch, c: Command) {
    match c
    case PlatformID(_) => true
    case BeamUse(id, _) => id in sk.beams
    case GateUse(id, _) => id in sk.gates
    case ProjectorID(host, _) => host in sk.names
    case _ => false
  }

  /** The sketch after one more line. */
  function Noted(sk: Sketch, c: Command): Sketch {
    match c
    case PlatformID(id) => Named(sk, id, PlatformKind)
    case BeamID(host, id) => if host in sk.names then sk.(beams := sk.beams + {id}) else sk
    case BeamAttribute(id, _) => sk.(beams := sk.beams + {id})
    case BeamUse(id, _) => if id in sk.beams then Named(sk, id, BeamKind).(beams := sk.beams - {id}) else sk
    case GateID(host, id) => if host in sk.names then sk.(gates := sk.gates + {id}) else sk
    case GateType(id, _) => sk.(gates := sk.gates + {id})
    case GateUse(id, _) => if id in sk.gates then Named(sk, id, GateKind).(gates := sk.gates - {id}) else sk
    case ProjectorID(host, id) => if host in sk.names then Named(sk, id, ProjectorKind) else sk
    case _ => sk
  }

  /** A platform line must name a platform; other lines may name nothing, but not something of another kind. */
  predicate Bad(sk: Sketch, c: Command) {
    match c
    case PlatformUse(id, _) => !NamesA(sk, id, PlatformKind)
    case BeamUse(id, _) => id !in sk.beams && id in sk.names && !NamesA(sk, id, BeamKind)
    case GateUse(id, _) => id !in sk.gates && id in sk.names && !NamesA(sk, id, GateKind)
    case ProjectorUse(id, _) => id in sk.names && !NamesA(sk, id, ProjectorKind)
    case _ => false
  }

  function Sketched(cs: seq<Command>): Sketch {
    if cs == [] then BLANK else Noted(Sketched(cs[..|cs| - 1]), cs[|cs| - 1])
  }

  predicate BadLine(cs: seq<Command>, k: nat) {
    k < |cs| && Bad(Sketched(cs[..k]), cs[k])
  }

  ghost predicate Readable(cs: seq<Command>) {
    forall k :: 0 <= k < |cs| ==> !BadLine(cs, k)
  }

  // ------------------------------------------------------ the sketch is accurate

  ghost predicate KindsMatch(store: Store, kinds: seq<Kind>) {
    |store| == |kinds| && forall n :: 0 <= n < |store| ==> store[n].Kind() == kinds[n]
  }

  ghost predicate Matches(s: State, sk: Sketch) {
    && !s.faulted && KindsMatch(s.store, sk.kinds)
    && s.idMap == sk.names && (forall i :: i in sk.names ==> 1 <= sk.names[i] <= |sk.kinds|)
    && s.pendingBeams.Keys == sk.beams && s.pendingGates.Keys == sk.gates
  }

  /** The line ends the reading exactly when it is bad; otherwise the sketch keeps up. */
  ghost predicate KeepsUp(t: State, sk: Sketch, c: Command) {
    (t.faulted <==> Bad(sk, c)) && (!t.faulted ==> Matches(t, Noted(sk, c)))
  }

  lemma AddMatches(s: State, sk: Sketch, id: AsiId, e: Entity)
    requires Matches(s, sk)
    ensures Matches(AddEntity(s, id, e), Named(sk, id, e.Kind()))
  {
  }

  lemma RecordMatches(s: State, sk: Sketch, id: AsiId, kind: Kind, e: Option<Event>)
    requires Matches(s, sk)
    ensures Record(s, id, kind, e).faulted <==> id in sk.names && !NamesA(sk, id, kind)
    ensures !Record(s, id, kind, e).faulted ==> Matches(Record(s, id, kind, e), sk)
  {
    if id in s.idMap && Has(s.store, s.idMap[id], kind) && e.Some? {
      var t := Append(s.store, s.idMap[id], e.value);
      assert forall n :: 0 <= n < |t| ==> t[n].Kind() == s.store[n].Kind();
    }
  }

  lemma PlatformMatches(s: State, sk: Sketch, id: AsiId, a: PlatformAction)
    requires Matches(s, sk)
    ensures KeepsUp(UsePlatform(s, id, a), sk, PlatformUse(id, a))
  {
    if id in s.idMap {
      RecordMatches(s, sk, id, PlatformKind, Some(PlatformEvent(s, a)));
    } else {
      assert !Has(s.store, 0, PlatformKind);
    }
  }

  lemma BeamMatches(s: State, sk: Sketch, id: AsiId, a: BeamAction)
    requires Matches(s, sk)
    ensures KeepsUp(UseBeam(s, id, a), sk, BeamUse(id, a))
  {
    var s1 := CreateBeamIfNeeded(s, id);
    if id in s.pendingBeams {
      AddMatches(s, sk, id, CreatedBeam(id, s.pendingBeams[id]));
      assert (s.pendingBeams - {id}).Keys == sk.beams - {id};
    }
    RecordMatches(s1, Noted(sk, BeamUse(id, a)), id, BeamKind, BeamEvent(s1, a));
  }

  lemma GateMatches(s: State, sk: Sketch, id: AsiId, a: GateAction)
    requires Matches(s, sk)
    ensures KeepsUp(UseGate(s, id, a), sk, GateUse(id, a))
  {
    var s1 := CreateGateIfNeeded(s, id);
    if id in s.pendingGates {
      AddMatches(s, sk, id, CreatedGate(s.pendingGates[id]));
      assert (s.pendingGates - {id}).Keys == sk.gates - {id};
    }
    RecordMatches(s1, Noted(sk, GateUse(id, a)), id, GateKind, Some(GateEvent(s1, a)));
  }

  lemma PendingMatches(s: State, sk: Sketch, c: Command)
    requires Matches(s, sk) && (c.BeamID? || c.BeamAttribute? || c.GateID? || c.GateType?)
    ensures KeepsUp(Step(s, c), sk, c)
  {
    match c
    case BeamID(host, id) => if host !in s.idMap || id in s.pendingBeams { } else { }
    case BeamAttribute(id, _) => if id in s.pendingBeams { } else { }
    case GateID(host, id) => if host !in s.idMap || id in s.pendingGates { } else { }
    case GateType(id, _) => if id in s.pendingGates { } else { }
  }

  lemma StepMatches(s: State, sk: Sketch, c: Command)
    requires Matches(s, sk)
    ensures KeepsUp(Step(s, c), sk, c)
  {
    match c
    case PlatformID(id) => AddMatches(s, sk, id, Platform([]));
    case PlatformUse(id, a) => PlatformMatches(s, sk, id, a);
    case BeamID(_, _) => PendingMatches(s, sk, c);
    case BeamAttribute(_, _) => PendingMatches(s, sk, c);
    case BeamUse(id, a) => BeamMatches(s, sk, id, a);
    case GateID(_, _) => PendingMatches(s, sk, c);
    case GateType(_, _) => PendingMatches(s, sk, c);
    case GateUse(id, a) => GateMatches(s, sk, id, a);
    case ProjectorID(host, id) =>
      if host in s.idMap {
        AddMatches(s, sk, id, Projector(host, []));
      }
    case ProjectorUse(id, a) => RecordMatches(s, sk, id, ProjectorKind, Some(ProjectorEvent(s, a)));
    case DegreeAngles(_) =>
    case ReferenceYear(_) =>
    case Unrecognized =>
  }

  lemma BadBefore(cs: seq<Command>)
    requires cs != []
    ensures Readable(cs) <==> Readable(cs[..|cs| - 1]) && !Bad(Sketched(cs[..|cs| - 1]), cs[|cs| - 1])
  {
    var front := cs[..|cs| - 1];
    assert forall k :: 0 <= k < |front| ==> front[..k] == cs[..k];
    assert forall k :: 0 <= k < |front| ==> (BadLine(front, k) <==> BadLine(cs, k));
    assert BadLine(cs, |cs| - 1) <==> Bad(Sketched(front), cs[|cs| - 1]);
  }

  /**
    For every file: it is read to its end exactly when none of its lines is bad, and then the id map, the kinds of
    all entities and the ids on hold are those of the sketch.
   */
  lemma {:induction false} ReadToEndIff(formats: TimeFormats, year: int, cs: seq<Command>)
    ensures !Run(Initial(formats, year), cs).faulted <==> Readable(cs)
    ensures Readable(cs) ==> Matches(Run(Initial(formats, year), cs), Sketched(cs))
  {
    if cs != [] {
      var front := cs[..|cs| - 1];
      ReadToEndIff(formats, year, front);
      BadBefore(cs);
      if Readable(front) {
        StepMatches(Run(Initial(formats, year), front), Sketched(front), cs[|cs| - 1]);
      }
    }
  }

  lemma ReadablePrefix(cs: seq<Command>, n: nat)
    requires Readable(cs) && n <= |cs|
    ensures Readable(cs[..n])
  {
    forall k | 0 <= k < n ensures !BadLine(cs[..n], k) {
      assert cs[..n][..k] == cs[..k] && !BadLine(cs, k);
    }
  }

  /** What holds after each line of a readable file. */
  lemma MatchesAfter(formats: TimeFormats, year: int, cs: seq<Command>, n: nat)
    requires Readable(cs) && n <= |cs|
    ensures Matches(After(Initial(formats, year), cs, n), Sketched(cs[..n]))
  {
    ReadablePrefix(cs, n);
    ReadToEndIff(formats, year, cs[..n]);
  }

  lemma SketchStep(cs: seq<Command>, k: nat)
    requires k < |cs|
    ensures Sketched(cs[..k + 1]) == Noted(Sketched(cs[..k]), cs[k])
  {
    assert cs[..k + 1][..k] == cs[..k];
  }

  // ------------------------------------------------------------------- examples

  /** A platform line for an id that was never declared ends the reading at once. */
  lemma UndeclaredPlatformStops(formats: TimeFormats, year: int, id: AsiId, a: PlatformAction)
    ensures Run(Initial(formats, year), [PlatformUse(id, a)]).faulted
  {
    var cs := [PlatformUse(id, a)];
    assert cs[..0] == [];
    assert BadLine(cs, 0);
    ReadToEndIff(formats, year, cs);
  }

  /** One id for a platform and then for a beam on it: read to the end, unless a platform line still follows. */
  lemma ReusedId(formats: TimeFormats, year: int, id: AsiId, a: BeamAction, b: PlatformAction)
    ensures !Run(Initial(formats, year), [PlatformID(id), BeamID(id, id), BeamUse(id, a)]).faulted
    ensures Run(Initial(formats, year), [PlatformID(id), BeamID(id, id), BeamUse(id, a), PlatformUse(id, b)]).faulted
  {
    var cs := [PlatformID(id), BeamID(id, id), BeamUse(id, a), PlatformUse(id, b)];
    assert cs[..0] == [];
    SketchStep(cs, 0);
    SketchStep(cs, 1);
    SketchStep(cs, 2);
    assert BadLine(cs, 3);
    assert cs[..3] == [PlatformID(id), BeamID(id, id), BeamUse(id, a)];
    forall k | 0 <= k < 3 ensures !BadLine(cs[..3], k) {
      assert cs[..3][..k] == cs[..k];
    }
    ReadToEndIff(formats, year, cs);
    ReadToEndIff(formats, year, cs[..3]);
  }
}
