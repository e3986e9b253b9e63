/** The time window and the update counts after reading a file, as functions of its PlatformData lines alone. */
module AsiWindow {
  import opened Cycles
  import opened Options
  import opened AsiModel

  predicate IsData(c: Command) {
    c.PlatformUse? && c.platform.PlatformData?
  }

  /** The reference year in force after the given lines. */
  function YearAfter(year: int, cs: seq<Command>): int {
    if cs == [] then year
    else if cs[|cs| - 1].ReferenceYear? then cs[|cs| - 1].year
    else YearAfter(year, cs[..|cs| - 1])
  }

  /** The times of all PlatformData lines, each read under the reference year in force at its line. */
  function Times(formats: TimeFormats, year: int, cs: seq<Command>): seq<real> {
    if cs == [] then []
    else
      var front, last := cs[..|cs| - 1], cs[|cs| - 1];
      Times(formats, year, front) +
      if IsData(last) then [TimeFromString(formats, last.platform.time, YearAfter(year, front))] else []
  }

  /** How many PlatformData lines each id has. */
  function LineCounts(cs: seq<Command>): map<AsiId, nat> {
    if cs == [] then map[]
    else
      var counts, last := LineCounts(cs[..|cs| - 1]), cs[|cs| - 1];
      if IsData(last)
      then counts[last.id := (if last.id in counts then counts[last.id] else 0) + 1]
      else counts
  }

  /** `w` is the extent of the times: earliest of those other than -1, latest of all, starting at the earliest. */
  ghost predicate Spans(w: Window, ts: seq<real>) {
    && w.startTime <= DBL_MAX && -DBL_MAX <= w.endTime
    && (forall t :: t in ts ==> (t != -1.0 ==> w.startTime <= t) && t <= w.endTime)
    && (w.startTime == DBL_MAX || (w.startTime in ts && w.startTime != -1.0))
    && (w.endTime == -DBL_MAX || w.endTime in ts)
    && w.lastTime == if w.startTime < DBL_MAX then w.startTime else 0.0
  }

  lemma OtherLine(s: State, c: Command)
    requires !c.PlatformUse? && !c.ReferenceYear?
    ensures var t := Step(s, c);
            t.formats == s.formats && t.refYear == s.refYear && t.window == s.window && t.dataCount == s.dataCount
  {
    match c
    case PlatformID(id) =>
    case BeamID(host, id) =>
    case BeamAttribute(id, a) =>
    case BeamUse(id, a) =>
    case GateID(host, id) =>
    case GateType(id, text) =>
    case GateUse(id, a) =>
    case ProjectorID(host, id) =>
    case ProjectorUse(id, a) =>
    case DegreeAngles(val) =>
    case Unrecognized =>
  }

  lemma PlatformLine(s: State, id: AsiId, a: PlatformAction)
    requires !UsePlatform(s, id, a).faulted
    ensures UsePlatform(s, id, a).window == if a.PlatformData? then WithTime(s.window, TimeOf(s, a.time)) else s.window
    ensures UsePlatform(s, id, a).dataCount == if a.PlatformData? then CountData(s.dataCount, id) else s.dataCount
  {
    var s1 := if id in s.idMap then s else s.(idMap := s.idMap[id := 0]);
    var s2 := Record(s1, id, PlatformKind, Some(PlatformEvent(s, a)));
    if s2.faulted || !a.PlatformData? {
      assert UsePlatform(s, id, a) == s2;
    }
  }

  /** The parts of the state this module is about, as one line changes them. */
  lemma StepTimes(s: State, c: Command)
    requires !Step(s, c).faulted
    ensures !s.faulted && Step(s, c).formats == s.formats
    ensures Step(s, c).refYear == if c.ReferenceYear? then c.year else s.refYear
    ensures Step(s, c).window == if IsData(c) then WithTime(s.window, TimeOf(s, c.platform.time)) else s.window
    ensures Step(s, c).dataCount == if IsData(c) then CountData(s.dataCount, c.id) else s.dataCount
  {
    if s.faulted {
    } else if c.PlatformUse? {
      assert Step(s, c) == UsePlatform(s, c.id, c.platform);
      PlatformLine(s, c.id, c.platform);
    } else if !c.ReferenceYear? {
      OtherLine(s, c);
    }
  }

  lemma WithTimeSpans(w: Window, ts: seq<real>, t: real)
    requires Spans(w, ts)
    ensures Spans(WithTime(w, t), ts + [t])
  {
    assert t in ts + [t];
    assert forall u :: u in ts ==> u in ts + [t];
  }

  ghost predicate Wrapped(dataCount: map<AsiId, nat>, counts: map<AsiId, nat>) {
    dataCount.Keys == counts.Keys && forall i :: i in counts ==> dataCount[i] == counts[i] % UINT_RANGE
  }

  lemma WrapStep(a: nat)
    ensures (a % UINT_RANGE + 1) % UINT_RANGE == (a + 1) % UINT_RANGE
  {
  }

  lemma BumpWraps(dataCount: map<AsiId, nat>, counts: map<AsiId, nat>, id: AsiId)
    requires Wrapped(dataCount, counts)
    ensures Wrapped(CountData(dataCount, id), counts[id := (if id in counts then counts[id] else 0) + 1])
  {
    WrapStep(if id in counts then counts[id] else 0);
  }

  lemma {:induction false} YearIsTracked(s0: State, cs: seq<Command>)
    requires !Run(s0, cs).faulted
    ensures Run(s0, cs).formats == s0.formats
    ensures Run(s0, cs).refYear == YearAfter(s0.refYear, cs)
  {
    if cs != [] {
      StepTimes(Run(s0, cs[..|cs| - 1]), cs[|cs| - 1]);
      YearIsTracked(s0, cs[..|cs| - 1]);
    }
  }

  /** After reading a file, the window is the extent of its PlatformData times. */
  lemma {:induction false} WindowIsExtent(s0: State, cs: seq<Command>)
    requires !Run(s0, cs).faulted
    requires s0.window == Initial(s0.formats, s0.refYear).window
    ensures Spans(Run(s0, cs).window, Times(s0.formats, s0.refYear, cs))
  {
    if cs != [] {
      var front, c := cs[..|cs| - 1], cs[|cs| - 1];
      var s := Run(s0, front);
      StepTimes(s, c);
      WindowIsExtent(s0, front);
      if IsData(c) {
        YearIsTracked(s0, front);
        WithTimeSpans(s.window, Times(s0.formats, s0.refYear, front), TimeOf(s, c.platform.time));
      }
    }
  }

  /** Each count is the number of the id's PlatformData lines, modulo the range of the 32-bit counter. */
  lemma {:induction false} CountsAreLines(s0: State, cs: seq<Command>)
    requires !Run(s0, cs).faulted
    requires s0.dataCount == map[]
    ensures Wrapped(Run(s0, cs).dataCount, LineCounts(cs))
  {
    if cs != [] {
      var front, c := cs[..|cs| - 1], cs[|cs| - 1];
      StepTimes(Run(s0, front), c);
      CountsAreLines(s0, front);
      if IsData(c) {
        BumpWraps(Run(s0, front).dataCount, LineCounts(front), c.id);
      }
    }
  }

  /** The extent is determined by which times occur, so it does not depend on the order of the lines. */
  lemma ExtentIsUnique(w: Window, ts: seq<real>, w': Window, ts': seq<real>)
    requires Spans(w, ts) && Spans(w', ts')
    requires forall t :: t in ts <==> t in ts'
    ensures w == w'
  {
  }

  /** Files with the same PlatformData times, however many lines of other kinds lie between, give the same window. */
  lemma PermutedFilesAgree(s0: State, cs: seq<Command>, cs': seq<Command>)
    requires !Run(s0, cs).faulted && !Run(s0, cs').faulted
    requires s0.window == Initial(s0.formats, s0.refYear).window
    requires multiset(Times(s0.formats, s0.refYear, cs)) == multiset(Times(s0.formats, s0.refYear, cs'))
    ensures Run(s0, cs).window == Run(s0, cs').window
  {
    WindowIsExtent(s0, cs);
    WindowIsExtent(s0, cs');
    var ts, ts' := Times(s0.formats, s0.refYear, cs), Times(s0.formats, s0.refYear, cs');
    forall t ensures t in ts <==> t in ts' {
      assert t in ts <==> t in multiset(ts);
      assert t in ts' <==> t in multiset(ts');
    }
    ExtentIsUnique(Run(s0, cs).window, ts, Run(s0, cs').window, ts');
  }

  // --------------------------------------------------- permuted files, line by line

  ghost predicate OneYear(cs: seq<Command>) {
    forall k :: 0 <= k < |cs| ==> !cs[k].ReferenceYear?
  }

  ghost predicate TimeOfLine(formats: TimeFormats, year: int, c: Command, t: real) {
    IsData(c) && t == TimeFromString(formats, c.platform.time, year)
  }

  lemma {:induction false} YearStays(year: int, cs: seq<Command>)
    requires OneYear(cs)
    ensures YearAfter(year, cs) == year
  {
    if cs != [] {
      YearStays(year, cs[..|cs| - 1]);
    }
  }

  lemma {:induction false} TimesAreOfLines(formats: TimeFormats, year: int, cs: seq<Command>, t: real)
    requires OneYear(cs)
    ensures t in Times(formats, year, cs) <==> exists c :: c in cs && TimeOfLine(formats, year, c, t)
  {
    if cs != [] {
      var front, last := cs[..|cs| - 1], cs[|cs| - 1];
      TimesAreOfLines(formats, year, front, t);
      YearStays(year, front);
      assert forall c :: c in cs <==> c in front || c == last;
      assert TimeOfLine(formats, year, last, t) ==> t in Times(formats, year, cs);
    }
  }

  function Bump(m: map<AsiId, nat>, c: Command): map<AsiId, nat> {
    if IsData(c) then m[c.id := (if c.id in m then m[c.id] else 0) + 1] else m
  }

  /** Where in the file a line stands does not matter for the counts. */
  lemma {:induction false} CountInserted(a: seq<Command>, c: Command, b: seq<Command>)
    ensures LineCounts(a + [c] + b) == Bump(LineCounts(a + b), c)
    decreases |b|
  {
    if b == [] {
      assert a + [c] + b == a + [c] && a + b == a;
      assert (a + [c])[..|a|] == a;
    } else {
      var front, last := b[..|b| - 1], b[|b| - 1];
      CountInserted(a, c, front);
      assert (a + [c] + b)[..|a| + |b|] == a + [c] + front;
      assert (a + b)[..|a + b| - 1] == a + front;
    }
  }

  /** The same lines but for the last one of `cs`. */
  lemma WithoutLast(cs: seq<Command>, cs': seq<Command>) returns (a: seq<Command>, b: seq<Command>)
    requires cs != [] && multiset(cs) == multiset(cs')
    ensures cs' == a + [cs[|cs| - 1]] + b && multiset(cs[..|cs| - 1]) == multiset(a + b)
  {
    var front, c := cs[..|cs| - 1], cs[|cs| - 1];
    assert cs == front + [c] && c in multiset(cs');
    var j :| 0 <= j < |cs'| && cs'[j] == c;
    a, b := cs'[..j], cs'[j + 1..];
    assert cs' == a + [c] + b;
    TakeOut(front, c, a, b);
  }

  lemma TakeOut<T>(front: seq<T>, c: T, a: seq<T>, b: seq<T>)
    requires multiset(front + [c]) == multiset(a + [c] + b)
    ensures multiset(front) == multiset(a + b)
  {
    assert multiset(front + [c]) == multiset(front) + multiset{c};
    assert multiset(a + [c] + b) == multiset(a + b) + multiset{c};
    assert multiset(front) == multiset(front + [c]) - multiset{c};
  }

  lemma {:induction false} PermutedCounts(cs: seq<Command>, cs': seq<Command>)
    requires multiset(cs) == multiset(cs')
    ensures LineCounts(cs) == LineCounts(cs')
    decreases |cs|
  {
    assert |multiset(cs)| == |multiset(cs')|;
    if cs != [] {
      var a, b := WithoutLast(cs, cs');
      PermutedCounts(cs[..|cs| - 1], a + b);
      CountInserted(a, cs[|cs| - 1], b);
    }
  }

  /** A file in one reference year and the same lines in any other order give the same window and counts. */
  lemma PermutedLinesAgree(s0: State, cs: seq<Command>, cs': seq<Command>)
    requires !Run(s0, cs).faulted && !Run(s0, cs').faulted && OneYear(cs)
    requires s0.window == Initial(s0.formats, s0.refYear).window && s0.dataCount == map[]
    requires multiset(cs) == multiset(cs')
    ensures Run(s0, cs).window == Run(s0, cs').window
    ensures Run(s0, cs).dataCount == Run(s0, cs').dataCount
  {
    var f, y := s0.formats, s0.refYear;
    assert forall c :: c in cs <==> c in multiset(cs);
    assert forall c :: c in cs' <==> c in multiset(cs');
    assert OneYear(cs') by {
      assert forall k :: 0 <= k < |cs'| ==> cs'[k] in cs;
    }
    WindowIsExtent(s0, cs);
    WindowIsExtent(s0, cs');
    forall t ensures t in Times(f, y, cs) <==> t in Times(f, y, cs') {
      TimesAreOfLines(f, y, cs, t);
      TimesAreOfLines(f, y, cs', t);
    }
    ExtentIsUnique(Run(s0, cs).window, Times(f, y, cs), Run(s0, cs').window, Times(f, y, cs'));
    CountsAreLines(s0, cs);
    CountsAreLines(s0, cs');
    PermutedCounts(cs, cs');
  }

  // ------------------------------------------------------------- the counts

  ghost function Sum(m: map<AsiId, nat>): nat
    decreases |m|
  {
    if m == map[] then 0 else
    var k :| k in m;
    assert |m - {k}| < |m| by { KeyCount(m, k); }
    m[k] + Sum(m - {k})
  }

  lemma KeyCount(m: map<AsiId, nat>, k: AsiId)
    requires k in m
    ensures |m - {k}| == |m| - 1
  {
    assert (m - {k}).Keys == m.Keys - {k};
    assert |(m - {k}).Keys| == |m - {k}| && |m.Keys| == |m|;
  }

  lemma {:induction false} SumAny(m: map<AsiId, nat>, k: AsiId)
    requires k in m
    ensures Sum(m) == m[k] + Sum(m - {k})
    decreases |m|
  {
    var j :| j in m && Sum(m) == m[j] + Sum(m - {j});
    if j != k {
      KeyCount(m, j);
      SumAny(m - {j}, k);
      KeyCount(m, k);
      SumAny(m - {k}, j);
      assert m - {j} - {k} == m - {k} - {j};
    }
  }

  lemma SumBump(m: map<AsiId, nat>, k: AsiId)
    ensures Sum(m[k := (if k in m then m[k] else 0) + 1]) == Sum(m) + 1
  {
    var m' := m[k := (if k in m then m[k] else 0) + 1];
    SumAny(m', k);
    if k in m {
      SumAny(m, k);
      assert m' - {k} == m - {k};
    } else {
      assert m' - {k} == m;
    }
  }

  lemma {:induction false} LinesAddUp(formats: TimeFormats, year: int, cs: seq<Command>)
    ensures Sum(LineCounts(cs)) == |Times(formats, year, cs)|
  {
    if cs != [] {
      var front, c := cs[..|cs| - 1], cs[|cs| - 1];
      LinesAddUp(formats, year, front);
      if IsData(c) {
        SumBump(LineCounts(front), c.id);
      }
    }
  }

  ghost predicate InRange(counts: map<AsiId, nat>) {
    forall i :: i in counts ==> counts[i] < UINT_RANGE
  }

  lemma InRangeSplits(counts: map<AsiId, nat>, k: AsiId)
    requires k in counts
    ensures InRange(counts) <==> counts[k] < UINT_RANGE && InRange(counts - {k})
  {
    if InRange(counts - {k}) {
      assert forall i :: i in counts && i != k ==> i in counts - {k} && counts[i] == (counts - {k})[i];
    }
  }

  lemma Remainder(n: nat)
    ensures n % UINT_RANGE <= n
    ensures n % UINT_RANGE == n <==> n < UINT_RANGE
  {
  }

  lemma {:induction false} WrappedSum(dataCount: map<AsiId, nat>, counts: map<AsiId, nat>)
    requires Wrapped(dataCount, counts)
    ensures Sum(dataCount) <= Sum(counts)
    ensures Sum(dataCount) == Sum(counts) <==> InRange(counts)
    decreases |counts|
  {
    if counts != map[] {
      var k :| k in counts;
      SumAny(counts, k);
      SumAny(dataCount, k);
      KeyCount(counts, k);
      WrappedSum(dataCount - {k}, counts - {k});
      Remainder(counts[k]);
      InRangeSplits(counts, k);
    } else {
      assert dataCount == map[];
    }
  }

  /** The reported counts add up to the number of PlatformData lines exactly when no id has 2^32 of them. */
  lemma CountsAddUp(s0: State, cs: seq<Command>)
    requires !Run(s0, cs).faulted
    requires s0.dataCount == map[]
    ensures Sum(Run(s0, cs).dataCount) == |Times(s0.formats, s0.refYear, cs)| <==>
            forall i :: i in LineCounts(cs) ==> LineCounts(cs)[i] < UINT_RANGE
  {
    CountsAreLines(s0, cs);
    LinesAddUp(s0.formats, s0.refYear, cs);
    WrappedSum(Run(s0, cs).dataCount, LineCounts(cs));
  }
}
