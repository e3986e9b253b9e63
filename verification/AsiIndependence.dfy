/** Whole streams: every interleaving of two independent streams yields their two results side by side. */
module AsiIndependence {
  import opened AsiModel
  import opened AsiHosts
  import opened AsiMerge
  import opened AsiInterleaving
  import AsiWindow

  /** The store ids 1 to `n`, dealt out between the two streams. */
  ghost predicate Parts(p: seq<StoreId>, q: seq<StoreId>, n: nat) {
    && |p| + |q| == n
    && (forall v :: v in p ==> v !in q)
    && (forall v :: 1 <= v <= n ==> v in p || v in q)
  }

  ghost predicate KeysWithin(s: State, x: set<AsiId>) {
    s.idMap.Keys <= x && s.pendingBeams.Keys <= x && s.pendingGates.Keys <= x && s.dataCount.Keys <= x
  }

  /** `s` is `a` and `b` side by side, and nothing else. */
  ghost predicate SideBySide(a: State, b: State, s: State, p: seq<StoreId>, q: seq<StoreId>,
                             x: set<AsiId>, y: set<AsiId>)
  {
    && Embeds(a, s, p, x) && Embeds(b, s, q, y) && Parts(p, q, |s.store|) && KeysWithin(s, x + y)
    && multiset(s.platformIds) == multiset(a.platformIds) + multiset(b.platformIds)
    && !a.faulted && !b.faulted && !s.faulted
  }

  lemma SideBySideSwap(a: State, b: State, s: State, p: seq<StoreId>, q: seq<StoreId>, x: set<AsiId>, y: set<AsiId>)
    requires SideBySide(a, b, s, p, q, x, y)
    ensures SideBySide(b, a, s, q, p, y, x)
  {
    assert x + y == y + x;
  }

  function Declared(c: Command): seq<AsiId> {
    if c.PlatformID? then [c.id] else []
  }

  lemma PlatformIdsStep(s: State, c: Command)
    requires !s.faulted
    ensures Step(s, c).platformIds == s.platformIds + Declared(c)
  {
    match c
    case PlatformID(id) =>
    case PlatformUse(id, a) =>
    case BeamID(host, id) =>
    case BeamAttribute(id, a) =>
    case BeamUse(id, a) =>
    case GateID(host, id) =>
    case GateType(id, text) =>
    case GateUse(id, a) =>
    case ProjectorID(host, id) =>
    case ProjectorUse(id, a) =>
    case DegreeAngles(val) =>
    case ReferenceYear(year) =>
    case Unrecognized =>
  }

  lemma KeysStay(s: State, t: State, p: seq<StoreId>, x: set<AsiId>, z: set<AsiId>)
    requires Touches(s, t, p, x) && KeysWithin(s, z) && x <= z
    ensures KeysWithin(t, z)
  {
  }

  lemma PartsGrow(s: State, t: State, p: seq<StoreId>, p': seq<StoreId>, q: seq<StoreId>)
    requires Parts(p, q, |s.store|) && Extended(s, t, p, p')
    requires forall v :: v in q ==> v <= |s.store|
    ensures Parts(p', q, |t.store|)
  {
  }

  lemma PlatformsStay(a: State, b: State, s: State, c: Command)
    requires multiset(s.platformIds) == multiset(a.platformIds) + multiset(b.platformIds)
    requires !a.faulted && !s.faulted
    ensures multiset(Step(s, c).platformIds) == multiset(Step(a, c).platformIds) + multiset(b.platformIds)
  {
    PlatformIdsStep(a, c);
    PlatformIdsStep(s, c);
  }

  lemma InRange(s: Store, b: Store, q: seq<StoreId>)
    requires StoreEmbeds(b, s, q)
    ensures forall v :: v in q ==> v <= |s|
  {
  }

  /** A line of the first stream. */
  lemma LineOfFirst(a: State, b: State, s: State, p: seq<StoreId>, q: seq<StoreId>, x: set<AsiId>, y: set<AsiId>,
                    c: Command)
    returns (p': seq<StoreId>)
    requires SideBySide(a, b, s, p, q, x, y) && Grounded(a) && x !! y
    requires !c.DegreeAngles? && !c.ReferenceYear? && Ids(c) <= x
    ensures Step(a, c).faulted <==> Step(s, c).faulted
    ensures !Step(a, c).faulted ==> SideBySide(Step(a, c), b, Step(s, c), p', q, x, y)
  {
    p' := StepFollows(a, s, p, x, c);
    var a', s' := Step(a, c), Step(s, c);
    if !a'.faulted {
      Passive(b, s, s', p, x, q, y);
      KeysStay(s, s', p, x, x + y);
      InRange(s.store, b.store, q);
      PartsGrow(s, s', p, p', q);
      PlatformsStay(a, b, s, c);
    }
  }

  /** A parser about to read entity lines, in any mode and reference year. */
  function Start(formats: TimeFormats, year: int, degrees: bool): State {
    Initial(formats, year).(degreeAngles := degrees)
  }

  lemma StartIsBlank(s0: State, x: set<AsiId>, y: set<AsiId>)
    requires s0 == Start(s0.formats, s0.refYear, s0.degreeAngles)
    ensures Grounded(s0) && SideBySide(s0, s0, s0, [], [], x, y)
  {
  }

  /**
    Reading two streams over disjoint ids in any interleaving faults exactly when reading one of them alone does;
    otherwise it yields what the two yield alone, side by side, for some way of dealing out the store ids.
   */
  lemma {:induction false} Independent(w: seq<Command>, a: seq<Command>, b: seq<Command>, s0: State,
                                       x: set<AsiId>, y: set<AsiId>)
    returns (p: seq<StoreId>, q: seq<StoreId>)
    requires Interleaves(w, a, b) && Confined(a, x) && Confined(b, y) && x !! y
    requires s0 == Start(s0.formats, s0.refYear, s0.degreeAngles)
    ensures Run(s0, w).faulted <==> Run(s0, a).faulted || Run(s0, b).faulted
    ensures !Run(s0, w).faulted ==> SideBySide(Run(s0, a), Run(s0, b), Run(s0, w), p, q, x, y)
    decreases |w|
  {
    StartIsBlank(s0, x, y);
    p, q := [], [];
    if w != [] {
      var w', c := w[..|w| - 1], w[|w| - 1];
      if a != [] && a[|a| - 1] == c && Interleaves(w', a[..|a| - 1], b) {
        var a' := a[..|a| - 1];
        p, q := Independent(w', a', b, s0, x, y);
        if !Run(s0, w').faulted {
          RunKeepsGrounded(s0, a');
          p := LineOfFirst(Run(s0, a'), Run(s0, b), Run(s0, w'), p, q, x, y, c);
        }
      } else {
        var b' := b[..|b| - 1];
        p, q := Independent(w', a, b', s0, x, y);
        if !Run(s0, w').faulted {
          RunKeepsGrounded(s0, b');
          SideBySideSwap(Run(s0, a), Run(s0, b'), Run(s0, w'), p, q, x, y);
          q := LineOfFirst(Run(s0, b'), Run(s0, a), Run(s0, w'), q, p, y, x, c);
          if !Run(s0, b).faulted {
            SideBySideSwap(Run(s0, b), Run(s0, a), Run(s0, w), q, p, y, x);
          }
        }
      }
    }
  }

  // ----------------------------------------------------------- the time window

  function OneTime(formats: TimeFormats, year: int, c: Command): seq<real> {
    if AsiWindow.IsData(c) then [TimeFromString(formats, c.platform.time, year)] else []
  }

  ghost function Bag(formats: TimeFormats, year: int, cs: seq<Command>): multiset<real> {
    multiset(AsiWindow.Times(formats, year, cs))
  }

  lemma BagSnoc(formats: TimeFormats, year: int, cs: seq<Command>)
    requires cs != [] && AsiWindow.OneYear(cs)
    ensures Bag(formats, year, cs) ==
              Bag(formats, year, cs[..|cs| - 1]) + multiset(OneTime(formats, year, cs[|cs| - 1]))
  {
    AsiWindow.YearStays(year, cs[..|cs| - 1]);
  }

  lemma {:induction false} FixedYearMerges(w: seq<Command>, a: seq<Command>, b: seq<Command>)
    requires Interleaves(w, a, b) && AsiWindow.OneYear(a) && AsiWindow.OneYear(b)
    ensures AsiWindow.OneYear(w)
    decreases |w|
  {
    if w != [] {
      if a != [] && a[|a| - 1] == w[|w| - 1] && Interleaves(w[..|w| - 1], a[..|a| - 1], b) {
        FixedYearMerges(w[..|w| - 1], a[..|a| - 1], b);
      } else {
        FixedYearMerges(w[..|w| - 1], a, b[..|b| - 1]);
      }
    }
  }

  /** The interleaving has the times of both streams. */
  lemma {:induction false} TimesMerge(formats: TimeFormats, year: int,
                                      w: seq<Command>, a: seq<Command>, b: seq<Command>)
    requires Interleaves(w, a, b) && AsiWindow.OneYear(a) && AsiWindow.OneYear(b) && AsiWindow.OneYear(w)
    ensures Bag(formats, year, w) == Bag(formats, year, a) + Bag(formats, year, b)
    decreases |w|
  {
    if w != [] {
      BagSnoc(formats, year, w);
      if a != [] && a[|a| - 1] == w[|w| - 1] && Interleaves(w[..|w| - 1], a[..|a| - 1], b) {
        TimesMerge(formats, year, w[..|w| - 1], a[..|a| - 1], b);
        BagSnoc(formats, year, a);
      } else {
        TimesMerge(formats, year, w[..|w| - 1], a, b[..|b| - 1]);
        BagSnoc(formats, year, b);
      }
    }
  }

  // ------------------------------------------------- any two interleavings compared

  function IndexOf(p: seq<StoreId>, v: StoreId): (k: nat)
    requires v in p
    ensures k < |p| && p[k] == v
  {
    if p[0] == v then 0 else 1 + IndexOf(p[1..], v)
  }

  /** The renaming that takes the ids dealt out as `p`, `q` to those dealt out as `p'`, `q'`. */
  function Between(p: seq<StoreId>, q: seq<StoreId>, p': seq<StoreId>, q': seq<StoreId>): (r: seq<StoreId>)
    requires |p| == |p'| && |q| == |q'|
    requires forall v :: 1 <= v <= |p| + |q| ==> v in p || v in q
    ensures |r| == |p| + |q|
  {
    seq(|p| + |q|, k requires 0 <= k < |p| + |q| =>
      if k + 1 in p then p'[IndexOf(p, k + 1)] else assert k + 1 in q; q'[IndexOf(q, k + 1)])
  }

  lemma BetweenMapsFirst(p: seq<StoreId>, q: seq<StoreId>, p': seq<StoreId>, q': seq<StoreId>, n: nat)
    requires |p| == |p'| && |q| == |q'| && Parts(p, q, |p| + |q|) && Distinct(p) && n <= |p|
    requires forall v :: v in p ==> 1 <= v <= |p| + |q|
    ensures Ren(Between(p, q, p', q'), Ren(p, n)) == Ren(p', n)
  {
    if n > 0 {
      assert p[n - 1] in p;
      assert IndexOf(p, p[n - 1]) == n - 1;
    }
  }

  lemma BetweenMapsSecond(p: seq<StoreId>, q: seq<StoreId>, p': seq<StoreId>, q': seq<StoreId>, n: nat)
    requires |p| == |p'| && |q| == |q'| && Parts(p, q, |p| + |q|) && Distinct(q) && n <= |q|
    requires forall v :: v in q ==> 1 <= v <= |p| + |q|
    ensures Ren(Between(p, q, p', q'), Ren(q, n)) == Ren(q', n)
  {
    if n > 0 {
      assert q[n - 1] in q && q[n - 1] !in p;
      assert IndexOf(q, q[n - 1]) == n - 1;
    }
  }

  lemma BetweenDistinct(p: seq<StoreId>, q: seq<StoreId>, p': seq<StoreId>, q': seq<StoreId>)
    requires |p| == |p'| && |q| == |q'| && Parts(p, q, |p| + |q|) && Parts(p', q', |p| + |q|)
    requires Distinct(p') && Distinct(q')
    ensures Distinct(Between(p, q, p', q'))
  {
    var r := Between(p, q, p', q');
    forall i, j | 0 <= i < j < |r| ensures r[i] != r[j] {
      assert i + 1 in p ==> r[i] in p';
      assert j + 1 in p ==> r[j] in p';
      assert i + 1 !in p ==> r[i] in q';
      assert j + 1 !in p ==> r[j] in q';
    }
  }

  lemma RenThrough(r: seq<StoreId>, p: seq<StoreId>, p': seq<StoreId>, e: Entity)
    requires forall n :: 0 <= n <= |p| ==> Ren(r, Ren(p, n)) == Ren(p', n)
    requires Within(e, |p|)
    ensures RenEntity(r, RenEntity(p, e)) == RenEntity(p', e)
  {
    assert RenEvents(r, RenEvents(p, e.events)) == RenEvents(p', e.events);
  }

  ghost predicate StoreUpTo(r: seq<StoreId>, s: Store, t: Store) {
    && |r| == |s| == |t| && Distinct(r)
    && (forall k :: 0 <= k < |r| ==> 1 <= r[k] <= |t| && t[r[k] - 1] == RenEntity(r, s[k]))
  }

  ghost predicate EntriesUpTo(r: seq<StoreId>, s: State, t: State) {
    && t.idMap.Keys == s.idMap.Keys && (forall i :: i in s.idMap ==> t.idMap[i] == Ren(r, s.idMap[i]))
    && t.pendingBeams.Keys == s.pendingBeams.Keys
    && (forall i :: i in s.pendingBeams ==>
          t.pendingBeams[i] == s.pendingBeams[i].(hostId := Ren(r, s.pendingBeams[i].hostId)))
    && t.pendingGates.Keys == s.pendingGates.Keys
    && (forall i :: i in s.pendingGates ==>
          t.pendingGates[i] == s.pendingGates[i].(hostId := Ren(r, s.pendingGates[i].hostId)))
    && t.dataCount == s.dataCount
  }

  /** `t` is `s` under other store ids: the same but for a bijective renaming and the order of the platform list. */
  ghost predicate SameUpTo(r: seq<StoreId>, s: State, t: State) {
    && StoreUpTo(r, s.store, t.store) && EntriesUpTo(r, s, t)
    && t.window == s.window && multiset(t.platformIds) == multiset(s.platformIds)
    && t.refYear == s.refYear && t.degreeAngles == s.degreeAngles
  }

  ghost predicate RenamesBy(r: seq<StoreId>, p: seq<StoreId>, p': seq<StoreId>) {
    forall n :: 0 <= n <= |p| ==> Ren(r, Ren(p, n)) == Ren(p', n)
  }

  lemma EmbeddedAt(a: Store, s: Store, p: seq<StoreId>, k: nat)
    requires StoreEmbeds(a, s, p) && k < |p|
    ensures |p| == |a| && 1 <= p[k] <= |s| && s[p[k] - 1] == RenEntity(p, a[k])
  {
  }

  lemma RenamedAt(r: seq<StoreId>, p: seq<StoreId>, p': seq<StoreId>, k: nat)
    requires RenamesBy(r, p, p') && k < |p| == |p'| && 1 <= p[k] <= |r|
    ensures r[p[k] - 1] == p'[k]
  {
    assert Ren(r, Ren(p, k + 1)) == Ren(p', k + 1);
  }

  /** The entity at `v` in one state is the one at `r[v - 1]` in the other. */
  lemma EntityRenamed(a: State, s: Store, t: Store, p: seq<StoreId>, p': seq<StoreId>, r: seq<StoreId>, v: StoreId)
    requires Grounded(a) && StoreEmbeds(a.store, s, p) && StoreEmbeds(a.store, t, p')
    requires RenamesBy(r, p, p') && v in p && |r| == |s|
    ensures 1 <= v <= |s| && 1 <= r[v - 1] <= |t| && t[r[v - 1] - 1] == RenEntity(r, s[v - 1])
  {
    var k :| 0 <= k < |p| && p[k] == v;
    EmbeddedAt(a.store, s, p, k);
    EmbeddedAt(a.store, t, p', k);
    RenamedAt(r, p, p', k);
    GroundedWithin(a);
    RenThrough(r, p, p', a.store[k]);
  }

  lemma EntriesRenamed(a: State, s: State, t: State, p: seq<StoreId>, p': seq<StoreId>, r: seq<StoreId>, x: set<AsiId>)
    requires Grounded(a) && !a.faulted && Embeds(a, s, p, x) && Embeds(a, t, p', x)
    requires RenamesBy(r, p, p')
    ensures forall i :: i in x ==> (i in s.idMap <==> i in t.idMap) &&
                                   (i in s.idMap ==> t.idMap[i] == Ren(r, s.idMap[i]))
    ensures forall i :: i in x ==> (i in s.dataCount <==> i in t.dataCount) &&
                                   (i in s.dataCount ==> t.dataCount[i] == s.dataCount[i])
  {
  }

  lemma PendingRenamed(a: State, s: State, t: State, p: seq<StoreId>, p': seq<StoreId>, r: seq<StoreId>, x: set<AsiId>)
    requires Grounded(a) && !a.faulted && Embeds(a, s, p, x) && Embeds(a, t, p', x)
    requires RenamesBy(r, p, p')
    ensures forall i :: i in x ==> (i in s.pendingBeams <==> i in t.pendingBeams) &&
                                   (i in s.pendingBeams ==>
                                      var host := Ren(r, s.pendingBeams[i].hostId);
                                      t.pendingBeams[i] == s.pendingBeams[i].(hostId := host))
    ensures forall i :: i in x ==> (i in s.pendingGates <==> i in t.pendingGates) &&
                                   (i in s.pendingGates ==>
                                      var host := Ren(r, s.pendingGates[i].hostId);
                                      t.pendingGates[i] == s.pendingGates[i].(hostId := host))
  {
  }

  lemma BetweenRenames(p: seq<StoreId>, q: seq<StoreId>, p': seq<StoreId>, q': seq<StoreId>)
    requires |p| == |p'| && |q| == |q'| && Parts(p, q, |p| + |q|) && Distinct(p) && Distinct(q)
    requires forall v :: v in p ==> 1 <= v <= |p| + |q|
    requires forall v :: v in q ==> 1 <= v <= |p| + |q|
    ensures RenamesBy(Between(p, q, p', q'), p, p') && RenamesBy(Between(p, q, p', q'), q, q')
  {
    forall n | 0 <= n <= |p| ensures Ren(Between(p, q, p', q'), Ren(p, n)) == Ren(p', n) {
      BetweenMapsFirst(p, q, p', q', n);
    }
    forall n | 0 <= n <= |q| ensures Ren(Between(p, q, p', q'), Ren(q, n)) == Ren(q', n) {
      BetweenMapsSecond(p, q, p', q', n);
    }
  }

  lemma StoresRenamed(a: State, b: State, s: Store, t: Store, p: seq<StoreId>, q: seq<StoreId>,
                      p': seq<StoreId>, q': seq<StoreId>, r: seq<StoreId>)
    requires StoreEmbeds(a.store, s, p) && StoreEmbeds(b.store, s, q)
    requires StoreEmbeds(a.store, t, p') && StoreEmbeds(b.store, t, q')
    requires Parts(p, q, |s|) && |t| == |s| == |r| && Grounded(a) && Grounded(b)
    requires Distinct(r) && RenamesBy(r, p, p') && RenamesBy(r, q, q')
    ensures StoreUpTo(r, s, t)
  {
    forall k | 0 <= k < |r| ensures 1 <= r[k] <= |t| && t[r[k] - 1] == RenEntity(r, s[k]) {
      if k + 1 in p {
        EntityRenamed(a, s, t, p, p', r, k + 1);
      } else {
        EntityRenamed(b, s, t, q, q', r, k + 1);
      }
    }
  }

  lemma EntriesOfBoth(a: State, b: State, s: State, t: State, p: seq<StoreId>, q: seq<StoreId>,
                      p': seq<StoreId>, q': seq<StoreId>, r: seq<StoreId>, x: set<AsiId>, y: set<AsiId>)
    requires Embeds(a, s, p, x) && Embeds(b, s, q, y) && Embeds(a, t, p', x) && Embeds(b, t, q', y)
    requires KeysWithin(s, x + y) && KeysWithin(t, x + y)
    requires Grounded(a) && Grounded(b) && !a.faulted && !b.faulted
    requires RenamesBy(r, p, p') && RenamesBy(r, q, q')
    ensures EntriesUpTo(r, s, t)
  {
    EntriesRenamed(a, s, t, p, p', r, x);
    EntriesRenamed(b, s, t, q, q', r, y);
    PendingRenamed(a, s, t, p, p', r, x);
    PendingRenamed(b, s, t, q, q', r, y);
    MapsAgree(s, t, x + y);
  }

  lemma MapsAgree(s: State, t: State, z: set<AsiId>)
    requires KeysWithin(s, z) && KeysWithin(t, z)
    requires forall i :: i in z ==> (i in s.idMap <==> i in t.idMap) && (i in s.dataCount <==> i in t.dataCount)
    requires forall i :: i in z ==> (i in s.pendingBeams <==> i in t.pendingBeams)
    requires forall i :: i in z ==> (i in s.pendingGates <==> i in t.pendingGates)
    requires forall i :: i in z && i in s.dataCount ==> t.dataCount[i] == s.dataCount[i]
    ensures s.idMap.Keys == t.idMap.Keys && s.pendingBeams.Keys == t.pendingBeams.Keys
    ensures s.pendingGates.Keys == t.pendingGates.Keys && s.dataCount == t.dataCount
  {
  }

  /** Two states holding the same two results side by side differ by a bijective renaming only. */
  lemma SidesRenamed(a: State, b: State, s: State, t: State, p: seq<StoreId>, q: seq<StoreId>,
                     p': seq<StoreId>, q': seq<StoreId>, x: set<AsiId>, y: set<AsiId>)
    requires SideBySide(a, b, s, p, q, x, y) && SideBySide(a, b, t, p', q', x, y)
    requires Grounded(a) && Grounded(b) && s.window == t.window
    ensures SameUpTo(Between(p, q, p', q'), s, t)
  {
    var r := Between(p, q, p', q');
    BetweenRenames(p, q, p', q');
    BetweenDistinct(p, q, p', q');
    StoresRenamed(a, b, s.store, t.store, p, q, p', q', r);
    EntriesOfBoth(a, b, s, t, p, q, p', q', r, x, y);
  }

  /**
    Any two interleavings of two streams over disjoint ids agree: both fault, or neither does and the final states
    are equal up to a bijective renaming of store ids and the order of the platform list.
   */
  lemma InterleavingsAgree(w: seq<Command>, w': seq<Command>, a: seq<Command>, b: seq<Command>, s0: State,
                           x: set<AsiId>, y: set<AsiId>)
    returns (r: seq<StoreId>)
    requires Interleaves(w, a, b) && Interleaves(w', a, b) && Confined(a, x) && Confined(b, y) && x !! y
    requires s0 == Start(s0.formats, s0.refYear, s0.degreeAngles)
    ensures Run(s0, w).faulted <==> Run(s0, w').faulted
    ensures !Run(s0, w).faulted ==> SameUpTo(r, Run(s0, w), Run(s0, w'))
  {
    var p, q := Independent(w, a, b, s0, x, y);
    var p', q' := Independent(w', a, b, s0, x, y);
    r := [];
    if !Run(s0, w).faulted {
      FixedYearMerges(w, a, b);
      FixedYearMerges(w', a, b);
      TimesMerge(s0.formats, s0.refYear, w, a, b);
      TimesMerge(s0.formats, s0.refYear, w', a, b);
      AsiWindow.PermutedFilesAgree(s0, w, w');
      StartIsBlank(s0, x, y);
      RunKeepsGrounded(s0, a);
      RunKeepsGrounded(s0, b);
      SidesRenamed(Run(s0, a), Run(s0, b), Run(s0, w), Run(s0, w'), p, q, p', q', x, y);
      r := Between(p, q, p', q');
    }
  }
}
