/**
  Which line makes which entity, told from the lines of the file alone: what a used id names, which host a projector
  really has, and when an id yields a second entity.
 */
module AsiFile {
  import opened Options
  import opened AsiModel
  import opened AsiDeferred
  import opened AsiCreation
  import opened AsiSketch
  import AsiHosts

  // ------------------------------------------------------------ the creating lines

  /** Line `j` makes an entity. */
  predicate MakerLine(cs: seq<Command>, j: nat) {
    j < |cs| && Makes(Sketched(cs[..j]), cs[j])
  }

  /** How many of the first `n` lines make an entity. */
  function Made(cs: seq<Command>, n: nat): nat
    requires n <= |cs|
  {
    if n == 0 then 0 else Made(cs, n - 1) + if MakerLine(cs, n - 1) then 1 else 0
  }

  /** The last of the first `n` lines that made an entity for the id. */
  function LastMaker(cs: seq<Command>, n: nat, id: AsiId): (r: Option<nat>)
    requires n <= |cs|
    ensures r.Some? ==> r.value < n && MakerLine(cs, r.value) && cs[r.value].id == id
    ensures forall j :: (if r.Some? then r.value + 1 else 0) <= j < n && MakerLine(cs, j) ==> cs[j].id != id
  {
    if n == 0 then None
    else if MakerLine(cs, n - 1) && cs[n - 1].id == id then Some(n - 1)
    else LastMaker(cs, n - 1, id)
  }

  function MadeKind(c: Command): Kind {
    match c
    case BeamUse(_, _) => BeamKind
    case GateUse(_, _) => GateKind
    case ProjectorID(_, _) => ProjectorKind
    case _ => PlatformKind
  }

  lemma NotedMakes(sk: Sketch, c: Command)
    ensures Makes(sk, c) ==> Noted(sk, c).kinds == sk.kinds + [MadeKind(c)] &&
                             Noted(sk, c).names == sk.names[c.id := |sk.kinds| + 1]
    ensures !Makes(sk, c) ==> Noted(sk, c).kinds == sk.kinds && Noted(sk, c).names == sk.names
  {
    match c
    case PlatformID(_) =>
    case PlatformUse(_, _) =>
    case BeamID(host, _) => if host in sk.names { } else { }
    case BeamAttribute(_, _) =>
    case BeamUse(id, _) => if id in sk.beams { } else { }
    case GateID(host, _) => if host in sk.names { } else { }
    case GateType(_, _) =>
    case GateUse(id, _) => if id in sk.gates { } else { }
    case ProjectorID(host, _) => if host in sk.names { } else { }
    case ProjectorUse(_, _) =>
    case DegreeAngles(_) =>
    case ReferenceYear(_) =>
    case Unrecognized =>
  }

  lemma {:induction false} SketchCounts(cs: seq<Command>, n: nat)
    requires n <= |cs|
    ensures |Sketched(cs[..n]).kinds| == Made(cs, n)
  {
    if n > 0 {
      SketchCounts(cs, n - 1);
      SketchStep(cs, n - 1);
      NotedMakes(Sketched(cs[..n - 1]), cs[n - 1]);
    }
  }

  /** What an id names is the number of entities made up to the last line that made one for it, and is what it made. */
  ghost predicate NamedByMaker(sk: Sketch, cs: seq<Command>, n: nat, id: AsiId)
    requires n <= |cs|
  {
    var m := LastMaker(cs, n, id);
    && (id in sk.names <==> m.Some?)
    && (m.Some? ==> sk.names[id] == Made(cs, m.value + 1) == Made(cs, m.value) + 1 <= |sk.kinds| &&
                    sk.kinds[Made(cs, m.value)] == MadeKind(cs[m.value]))
  }

  lemma NamesStep(cs: seq<Command>, n: nat, id: AsiId)
    requires n < |cs| && NamedByMaker(Sketched(cs[..n]), cs, n, id)
    ensures NamedByMaker(Sketched(cs[..n + 1]), cs, n + 1, id)
  {
    var sk, c := Sketched(cs[..n]), cs[n];
    SketchStep(cs, n);
    SketchCounts(cs, n);
    NotedMakes(sk, c);
    if MakerLine(cs, n) {
      if c.id == id {
        assert LastMaker(cs, n + 1, id) == Some(n) && Made(cs, n + 1) == |sk.kinds| + 1;
      } else {
        assert LastMaker(cs, n + 1, id) == LastMaker(cs, n, id);
      }
    } else {
      assert LastMaker(cs, n + 1, id) == LastMaker(cs, n, id);
    }
  }

  lemma {:induction false} NamesAreCounts(cs: seq<Command>, n: nat, id: AsiId)
    requires n <= |cs|
    ensures NamedByMaker(Sketched(cs[..n]), cs, n, id)
  {
    if n > 0 {
      NamesAreCounts(cs, n - 1, id);
      NamesStep(cs, n - 1, id);
    }
  }

  lemma NamesAIff(sk: Sketch, cs: seq<Command>, n: nat, id: AsiId, kind: Kind)
    requires n <= |cs| && NamedByMaker(sk, cs, n, id)
    ensures NamesA(sk, id, kind) <==>
              LastMaker(cs, n, id).Some? && MadeKind(cs[LastMaker(cs, n, id).value]) == kind
  {
  }

  /** What the line takes its id to name. */
  function WantedKind(c: Command): Option<Kind> {
    match c
    case PlatformUse(_, _) => Some(PlatformKind)
    case BeamUse(_, _) => Some(BeamKind)
    case GateUse(_, _) => Some(GateKind)
    case ProjectorUse(_, _) => Some(ProjectorKind)
    case _ => None
  }

  lemma BadIff(sk: Sketch, c: Command)
    ensures Bad(sk, c) <==>
            && WantedKind(c).Some? && !Makes(sk, c)
            && if c.id in sk.names then !NamesA(sk, c.id, WantedKind(c).value) else c.PlatformUse?
  {
    match c
    case PlatformID(_) =>
    case PlatformUse(_, _) =>
    case BeamID(_, _) =>
    case BeamAttribute(_, _) =>
    case BeamUse(_, _) =>
    case GateID(_, _) =>
    case GateType(_, _) =>
    case GateUse(_, _) =>
    case ProjectorID(_, _) =>
    case ProjectorUse(_, _) =>
    case DegreeAngles(_) =>
    case ReferenceYear(_) =>
    case Unrecognized =>
  }

  /**
    A line is bad exactly when it uses an id, makes no entity for it itself, and the last line that did made one of
    another kind; a platform line is also bad when no line did.
   */
  lemma BadLineIff(cs: seq<Command>, k: nat)
    requires k < |cs|
    ensures BadLine(cs, k) <==>
            && WantedKind(cs[k]).Some? && !MakerLine(cs, k)
            && match LastMaker(cs, k, cs[k].id)
               case None => cs[k].PlatformUse?
               case Some(m) => MadeKind(cs[m]) != WantedKind(cs[k]).value
  {
    var sk, c := Sketched(cs[..k]), cs[k];
    BadIff(sk, c);
    if WantedKind(c).Some? {
      NamesAreCounts(cs, k, c.id);
      NamesAIff(sk, cs, k, c.id, WantedKind(c).value);
    }
  }

  // ------------------------------------------------------------------- projectors

  /** The line makes a projector. */
  predicate ProjectorLine(cs: seq<Command>, j: nat) {
    MakerLine(cs, j) && cs[j].ProjectorID?
  }

  lemma ProjectorMade(formats: TimeFormats, year: int, cs: seq<Command>, j: nat)
    requires Readable(cs) && ProjectorLine(cs, j)
    ensures var s, n := Run(Initial(formats, year), cs), Made(cs, j);
            && !s.faulted && n < |s.store| && s.store[n].Projector? && s.store[n].rawHost == cs[j].host
  {
    var s0 := Initial(formats, year);
    ReadToEndIff(formats, year, cs);
    MatchesAfter(formats, year, cs, j);
    SketchCounts(cs, j);
    AfterStep(s0, cs, j);
    StoreKept(s0, cs, j + 1);
    var n := Made(cs, j);
    assert After(s0, cs, j + 1).store[n] == Projector(cs[j].host, []);
    assert Static(Run(s0, cs).store[n]) == Projector(cs[j].host, []);
  }

  /**
    For every file read to its end and every Projector line: it makes an entity exactly when some line before made
    one for its host.  Then the host recorded for the projector is that entity's store id if and only if the host's
    number in the file is the count of entities made up to the last line that made one for it.
   */
  lemma ProjectorHostIsRightIff(formats: TimeFormats, year: int, cs: seq<Command>, j: nat)
    requires Readable(cs) && j < |cs| && cs[j].ProjectorID?
    ensures ProjectorLine(cs, j) <==> LastMaker(cs, j, cs[j].host).Some?
    ensures ProjectorLine(cs, j) ==>
              var host, s := cs[j].host, Run(Initial(formats, year), cs);
              var known := After(Initial(formats, year), cs, j).idMap;
              && host in known && Made(cs, j) < |s.store| && s.store[Made(cs, j)].Projector?
              && (s.store[Made(cs, j)].rawHost == known[host] <==>
                    host == Made(cs, LastMaker(cs, j, host).value + 1))
  {
    NamesAreCounts(cs, j, cs[j].host);
    if ProjectorLine(cs, j) {
      ProjectorMade(formats, year, cs, j);
      MatchesAfter(formats, year, cs, j);
    }
  }

  /** A projector added by the last line was added by a Projector line. */
  lemma LastLineMadeProjector(formats: TimeFormats, year: int, cs: seq<Command>, n: nat)
    requires Readable(cs) && cs != [] && n < |Run(Initial(formats, year), cs).store|
    requires n >= |Run(Initial(formats, year), cs[..|cs| - 1]).store|
    requires Run(Initial(formats, year), cs).store[n].Projector?
    ensures ProjectorLine(cs, |cs| - 1) && Made(cs, |cs| - 1) == n
  {
    var j := |cs| - 1;
    var sk := Sketched(cs[..j]);
    ReadablePrefix(cs, j);
    ReadToEndIff(formats, year, cs[..j]);
    ReadToEndIff(formats, year, cs);
    SketchCounts(cs, j);
    NotedMakes(sk, cs[j]);
    assert Sketched(cs) == Noted(sk, cs[j]);
    assert Sketched(cs).kinds[n] == ProjectorKind;
  }

  lemma LastLineKeepsStatic(formats: TimeFormats, year: int, cs: seq<Command>)
    requires Readable(cs) && cs != []
    ensures var s0 := Initial(formats, year);
            Readable(cs[..|cs| - 1]) && StaticPrefix(Run(s0, cs[..|cs| - 1]).store, Run(s0, cs).store)
  {
    ReadablePrefix(cs, |cs| - 1);
    ReadToEndIff(formats, year, cs[..|cs| - 1]);
    StoreGrowth(Run(Initial(formats, year), cs[..|cs| - 1]), cs[|cs| - 1]);
  }

  /** Every projector of the store was made by a Projector line. */
  lemma {:induction false} ProjectorsHaveLines(formats: TimeFormats, year: int, cs: seq<Command>, n: nat)
    returns (j: nat)
    requires Readable(cs) && n < |Run(Initial(formats, year), cs).store|
    requires Run(Initial(formats, year), cs).store[n].Projector?
    ensures ProjectorLine(cs, j) && Made(cs, j) == n
    decreases |cs|
  {
    var front := cs[..|cs| - 1];
    LastLineKeepsStatic(formats, year, cs);
    if n < |Run(Initial(formats, year), front).store| {
      j := ProjectorsHaveLines(formats, year, front, n);
      assert front[..j] == cs[..j];
      MadeInFront(cs, j);
    } else {
      j := |cs| - 1;
      LastLineMadeProjector(formats, year, cs, n);
    }
  }

  lemma {:induction false} MadeInFront(cs: seq<Command>, n: nat)
    requires cs != [] && n <= |cs| - 1
    ensures Made(cs[..|cs| - 1], n) == Made(cs, n)
  {
    if n > 0 {
      MadeInFront(cs, n - 1);
      assert cs[..|cs| - 1][..n - 1] == cs[..n - 1];
    }
  }

  /** The host an entity was given, translated or not. */
  function GivenHost(e: Entity): nat {
    if e.Projector? then e.rawHost else AsiHosts.HostOf(e)
  }

  ghost predicate AllDescend(store: Store) {
    forall n :: 0 <= n < |store| ==> GivenHost(store[n]) < n + 1
  }

  /**
    For every file read to its end, every host given to any entity names an older one, projectors included, if and
    only if no Projector line that makes one gives a host number above the count of entities made before it.
   */
  lemma ForestWithProjectorsIff(formats: TimeFormats, year: int, cs: seq<Command>)
    requires Readable(cs)
    ensures AllDescend(Run(Initial(formats, year), cs).store) <==>
            forall j: nat :: ProjectorLine(cs, j) ==> cs[j].host <= Made(cs, j)
  {
    var s := Run(Initial(formats, year), cs);
    AsiHosts.RunKeepsGrounded(Initial(formats, year), cs);
    if AllDescend(s.store) {
      forall j: nat | ProjectorLine(cs, j) ensures cs[j].host <= Made(cs, j) {
        ProjectorMade(formats, year, cs, j);
      }
    }
    if forall j: nat :: ProjectorLine(cs, j) ==> cs[j].host <= Made(cs, j) {
      forall n | 0 <= n < |s.store| ensures GivenHost(s.store[n]) < n + 1 {
        if s.store[n].Projector? {
          var j := ProjectorsHaveLines(formats, year, cs, n);
          ProjectorMade(formats, year, cs, j);
        } else {
          assert AsiHosts.HostOf(s.store[n]) < n + 1;
        }
      }
    }
  }

  /** A file in which the host recorded for the projector is the projector itself. */
  lemma ProjectorNamesItself(formats: TimeFormats, year: int)
    ensures var cs := [PlatformID(2), ProjectorID(2, 7)];
            var t := Run(Initial(formats, year), cs);
            && Readable(cs) && 7 in t.idMap && t.idMap[7] == 2 == |t.store| && t.store[1] == Projector(2, [])
  {
    var cs := [PlatformID(2), ProjectorID(2, 7)];
    var s0 := Initial(formats, year);
    AfterStep(s0, cs, 0);
    AfterStep(s0, cs, 1);
    AfterAll(s0, cs);
    ReadToEndIff(formats, year, cs);
  }

  // ------------------------------------------------------------- second creations

  /** The line puts the id on hold, unless it is. */
  predicate OpensLine(cs: seq<Command>, j: nat, k: Side, id: AsiId)
    requires j < |cs|
  {
    Sets(cs[j], k, id) || (Declares(cs[j], k, id) && LastMaker(cs, j, cs[j].host).Some?)
  }

  /** The line makes an entity for the id. */
  predicate MakesFor(cs: seq<Command>, u: nat, k: Side, id: AsiId) {
    MakerLine(cs, u) && Uses(cs[u], k, id)
  }

  lemma OpensFromFile(formats: TimeFormats, year: int, cs: seq<Command>, j: nat, k: Side, id: AsiId)
    requires Readable(cs) && j < |cs|
    ensures Opens(Initial(formats, year), cs, j, k, id) <==> OpensLine(cs, j, k, id)
  {
    MatchesAfter(formats, year, cs, j);
    if Declares(cs[j], k, id) {
      NamesAreCounts(cs, j, cs[j].host);
    }
  }

  lemma CreatesFromFile(formats: TimeFormats, year: int, cs: seq<Command>, u: nat, k: Side, id: AsiId)
    requires Readable(cs)
    ensures Creates(Initial(formats, year), cs, u, k, id) <==> MakesFor(cs, u, k, id)
  {
    if u < |cs| && Uses(cs[u], k, id) {
      MatchesAfter(formats, year, cs, u);
      match k
      case BeamSide =>
      case GateSide =>
    }
  }

  /**
    From the lines alone: in a file read to its end an id yields a second entity exactly when, after the line that
    made the first, a line opens the id again and a line after that uses it.
   */
  lemma SecondEntityIff(cs: seq<Command>, u: nat, k: Side, id: AsiId)
    requires Readable(cs) && MakesFor(cs, u, k, id)
    ensures (exists v :: u < v && MakesFor(cs, v, k, id)) <==>
            (exists m, w :: u < m < w < |cs| && OpensLine(cs, m, k, id) && Uses(cs[w], k, id))
  {
    var formats: TimeFormats := (text, year) => None;
    var s0 := Initial(formats, 0);
    ReadToEndIff(formats, 0, cs);
    forall v ensures Creates(s0, cs, v, k, id) <==> MakesFor(cs, v, k, id) {
      CreatesFromFile(formats, 0, cs, v, k, id);
    }
    forall m | 0 <= m < |cs| ensures Opens(s0, cs, m, k, id) <==> OpensLine(cs, m, k, id) {
      OpensFromFile(formats, 0, cs, m, k, id);
    }
    SecondCreationIff(s0, cs, u, k, id);
  }

  /**
    For every file read to its end and every line that makes a beam or gate: the entity is what the lines since the
    previous use of its id describe, from then on unchanged.
   */
  lemma EntityIsDescribed(formats: TimeFormats, year: int, cs: seq<Command>, u: nat, k: Side, id: AsiId)
    returns (h: Held)
    requires Readable(cs) && MakesFor(cs, u, k, id)
    ensures Describes(Initial(formats, year), cs[..u], SegmentStart(cs[..u], k, id), k, id, Some(h))
    ensures var store := Run(Initial(formats, year), cs).store;
            Made(cs, u) < |store| && Static(store[Made(cs, u)]) == Fresh(k, id, h)
  {
    var s0 := Initial(formats, year);
    ReadToEndIff(formats, year, cs);
    CreatesFromFile(formats, year, cs, u, k, id);
    MatchesAfter(formats, year, cs, u);
    SketchCounts(cs, u);
    h := HeldFor(After(s0, cs, u), k, id).value;
    PendingIsDescribed(s0, cs[..u], k, id);
    CreatingLine(s0, cs, u, k, id);
    StoreKept(s0, cs, u + 1);
  }
}
