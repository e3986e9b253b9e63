/**
  How the state of one command stream sits inside the state of a run that also reads other commands: the same
  entities under other store ids, the same entries for the stream's own ASI ids.
 */
module AsiMerge {
  import opened Options
  import opened AsiModel
  import opened AsiHosts

  // ------------------------------------------------------ renaming of store ids

  /** The store id that `p` gives to `n`; `p[k]` is the new name of id `k + 1`, and 0 stays 0. */
  function Ren(p: seq<StoreId>, n: StoreId): StoreId {
    if 1 <= n <= |p| then p[n - 1] else 0
  }

  function RenEvent(p: seq<StoreId>, e: Event): Event {
    if e.BeamTarget? then e.(target := Ren(p, e.target)) else e
  }

  function RenEvents(p: seq<StoreId>, es: seq<Event>): (r: seq<Event>)
    ensures |r| == |es| && forall k :: 0 <= k < |es| ==> r[k] == RenEvent(p, es[k])
  {
    seq(|es|, k requires 0 <= k < |es| => RenEvent(p, es[k]))
  }

  /** An entity under new ids.  A projector's host is the file's own number, not a store id, and stays. */
  function RenEntity(p: seq<StoreId>, e: Entity): (r: Entity)
    ensures r.Kind() == e.Kind()
  {
    match e
    case Beam(host, t, original, h, v, events) => Beam(Ren(p, host), t, original, h, v, RenEvents(p, events))
    case Gate(host, t, events) => Gate(Ren(p, host), t, RenEvents(p, events))
    case Platform(events) => Platform(RenEvents(p, events))
    case Projector(raw, events) => Projector(raw, RenEvents(p, events))
  }

  /** Every store id in the entity is at most `n`. */
  ghost predicate Within(e: Entity, n: nat) {
    HostOf(e) <= n && forall k :: 0 <= k < |e.events| && e.events[k].BeamTarget? ==> e.events[k].target <= n
  }

  lemma RenExtends(p: seq<StoreId>, v: StoreId, e: Entity)
    requires Within(e, |p|)
    ensures RenEntity(p + [v], e) == RenEntity(p, e)
  {
    assert RenEvents(p + [v], e.events) == RenEvents(p, e.events);
  }

  lemma RenAppend(p: seq<StoreId>, e: Entity, x: Event)
    ensures RenEntity(p, e.(events := e.events + [x])) ==
            RenEntity(p, e).(events := RenEntity(p, e).events + [RenEvent(p, x)])
  {
    assert RenEvents(p, e.events + [x]) == RenEvents(p, e.events) + [RenEvent(p, x)];
  }

  lemma GroundedWithin(s: State)
    requires Grounded(s)
    ensures forall k :: 0 <= k < |s.store| ==> Within(s.store[k], |s.store|)
  {
    forall k | 0 <= k < |s.store| ensures Within(s.store[k], |s.store|) {
      assert HostOf(s.store[k]) < k + 1;
    }
  }

  // --------------------------------------------------------------- embedding

  ghost predicate Distinct(p: seq<StoreId>) {
    forall i, j :: 0 <= i < j < |p| ==> p[i] != p[j]
  }

  ghost predicate StoreEmbeds(a: Store, s: Store, p: seq<StoreId>) {
    && |p| == |a| && Distinct(p)
    && (forall k :: 0 <= k < |p| ==> 1 <= p[k] <= |s|)
    && (forall k :: 0 <= k < |p| ==> s[p[k] - 1] == RenEntity(p, a[k]))
  }

  ghost predicate SameKeys<V, W>(m: map<AsiId, V>, n: map<AsiId, W>, x: set<AsiId>) {
    m.Keys <= x && forall i :: i in x ==> (i in m <==> i in n)
  }

  ghost predicate IdsEmbed(a: map<AsiId, StoreId>, s: map<AsiId, StoreId>, p: seq<StoreId>, x: set<AsiId>) {
    SameKeys(a, s, x) && forall i :: i in a ==> s[i] == Ren(p, a[i])
  }

  ghost predicate BeamsEmbed(a: map<AsiId, BeamData>, s: map<AsiId, BeamData>, p: seq<StoreId>, x: set<AsiId>) {
    SameKeys(a, s, x) && forall i :: i in a ==> s[i] == a[i].(hostId := Ren(p, a[i].hostId))
  }

  ghost predicate GatesEmbed(a: map<AsiId, GateData>, s: map<AsiId, GateData>, p: seq<StoreId>, x: set<AsiId>) {
    SameKeys(a, s, x) && forall i :: i in a ==> s[i] == a[i].(hostId := Ren(p, a[i].hostId))
  }

  ghost predicate CountsEmbed(a: map<AsiId, nat>, s: map<AsiId, nat>, x: set<AsiId>) {
    SameKeys(a, s, x) && forall i :: i in a ==> s[i] == a[i]
  }

  /** Restricted to the ASI ids in `x`, state `s` is state `a` with its store ids renamed by `p`. */
  ghost predicate Embeds(a: State, s: State, p: seq<StoreId>, x: set<AsiId>) {
    && StoreEmbeds(a.store, s.store, p)
    && IdsEmbed(a.idMap, s.idMap, p, x)
    && BeamsEmbed(a.pendingBeams, s.pendingBeams, p, x)
    && GatesEmbed(a.pendingGates, s.pendingGates, p, x)
    && CountsEmbed(a.dataCount, s.dataCount, x)
    && a.formats == s.formats && a.refYear == s.refYear && a.degreeAngles == s.degreeAngles
  }

  ghost predicate SameOutside<V>(m: map<AsiId, V>, n: map<AsiId, V>, x: set<AsiId>) {
    forall i :: i !in x ==> (i in m <==> i in n) && (i in m ==> m[i] == n[i])
  }

  /** Going from `s` to `t` touches only the entities named by `p`, new entities, and entries for ids in `x`. */
  ghost predicate Touches(s: State, t: State, p: seq<StoreId>, x: set<AsiId>) {
    && |s.store| <= |t.store|
    && (forall n :: 1 <= n <= |s.store| && n !in p ==> t.store[n - 1] == s.store[n - 1])
    && SameOutside(s.idMap, t.idMap, x)
    && SameOutside(s.pendingBeams, t.pendingBeams, x)
    && SameOutside(s.pendingGates, t.pendingGates, x)
    && SameOutside(s.dataCount, t.dataCount, x)
    && s.formats == t.formats && s.refYear == t.refYear && s.degreeAngles == t.degreeAngles
  }

  /** What is embedded under other ids survives. */
  lemma Passive(b: State, s: State, t: State, p: seq<StoreId>, x: set<AsiId>, q: seq<StoreId>, y: set<AsiId>)
    requires Embeds(b, s, q, y) && Touches(s, t, p, x) && x !! y
    requires forall v :: v in q ==> v !in p
    ensures Embeds(b, t, q, y)
  {
    forall k | 0 <= k < |q| ensures t.store[q[k] - 1] == s.store[q[k] - 1] {
      assert q[k] in q;
    }
  }

  // ---------------------------------------------- the embedded stream takes a step

  lemma StoreAdds(a: Store, s: Store, p: seq<StoreId>, e: Entity)
    requires StoreEmbeds(a, s, p) && Within(e, |a|) && forall k :: 0 <= k < |a| ==> Within(a[k], |a|)
    ensures StoreEmbeds(a + [e], s + [RenEntity(p, e)], p + [|s| + 1])
  {
    var v := |s| + 1;
    RenExtends(p, v, e);
    forall k | 0 <= k < |p| ensures (s + [RenEntity(p, e)])[p[k] - 1] == RenEntity(p + [v], a[k]) {
      RenExtends(p, v, a[k]);
      assert s[p[k] - 1] == RenEntity(p, a[k]);
    }
    assert Distinct(p + [v]);
  }

  lemma MapsAdd(a: State, s: State, p: seq<StoreId>, x: set<AsiId>, id: AsiId, v: StoreId)
    requires Embeds(a, s, p, x) && Grounded(a) && !a.faulted && id in x
    ensures IdsEmbed(a.idMap[id := |p| + 1], s.idMap[id := v], p + [v], x)
    ensures BeamsEmbed(a.pendingBeams, s.pendingBeams, p + [v], x)
    ensures GatesEmbed(a.pendingGates, s.pendingGates, p + [v], x)
  {
    assert forall n :: 0 <= n <= |p| ==> Ren(p + [v], n) == Ren(p, n);
  }

  lemma EmbedAdd(a: State, s: State, p: seq<StoreId>, x: set<AsiId>, id: AsiId, e: Entity)
    requires Embeds(a, s, p, x) && Grounded(a) && !a.faulted && id in x && Within(e, |a.store|)
    ensures Embeds(AddEntity(a, id, e), AddEntity(s, id, RenEntity(p, e)), p + [|s.store| + 1], x)
    ensures Touches(s, AddEntity(s, id, RenEntity(p, e)), p, x)
  {
    GroundedWithin(a);
    StoreAdds(a.store, s.store, p, e);
    MapsAdd(a, s, p, x, id, |s.store| + 1);
  }

  lemma EmbedAppend(a: Store, s: Store, p: seq<StoreId>, n: StoreId, e: Event)
    requires StoreEmbeds(a, s, p) && 1 <= n <= |a|
    ensures StoreEmbeds(Append(a, n, e), Append(s, Ren(p, n), RenEvent(p, e)), p)
  {
    var a', s' := Append(a, n, e), Append(s, Ren(p, n), RenEvent(p, e));
    forall k | 0 <= k < |p| ensures s'[p[k] - 1] == RenEntity(p, a'[k]) {
      if k == n - 1 {
        RenAppend(p, a[k], e);
      }
    }
  }

  function RenMaybe(p: seq<StoreId>, e: Option<Event>): Option<Event> {
    if e.Some? then Some(RenEvent(p, e.value)) else None
  }

  /** The id names the same entity on both sides. */
  lemma SameNamed(a: State, s: State, p: seq<StoreId>, x: set<AsiId>, id: AsiId)
    requires Embeds(a, s, p, x) && Grounded(a) && !a.faulted && id in x
    ensures id in a.idMap <==> id in s.idMap
    ensures id in a.idMap ==>
              && 1 <= a.idMap[id] <= |a.store| == |p| && s.idMap[id] == p[a.idMap[id] - 1]
              && 1 <= s.idMap[id] <= |s.store| && s.idMap[id] in p
              && s.store[s.idMap[id] - 1] == RenEntity(p, a.store[a.idMap[id] - 1])
  {
    if id in a.idMap {
      assert p[a.idMap[id] - 1] in p;
    }
  }

  /** Leaving an event with the same entity on both sides. */
  lemma EmbedEvent(a: Store, s: Store, p: seq<StoreId>, n: StoreId, e: Event)
    requires StoreEmbeds(a, s, p) && 1 <= n <= |a|
    ensures StoreEmbeds(Append(a, n, e), Append(s, p[n - 1], RenEvent(p, e)), p)
    ensures var t := Append(s, p[n - 1], RenEvent(p, e));
            |t| == |s| && forall m :: 1 <= m <= |s| && m !in p ==> t[m - 1] == s[m - 1]
  {
    EmbedAppend(a, s, p, n, e);
    assert p[n - 1] in p;
  }

  lemma EmbedPut(a: State, s: State, p: seq<StoreId>, x: set<AsiId>, id: AsiId, kind: Kind, e: Option<Event>)
    requires Embeds(a, s, p, x) && Grounded(a) && !a.faulted && id in x
    ensures var t, t' := Put(a.store, a.idMap, id, kind, e), Put(s.store, s.idMap, id, kind, RenMaybe(p, e));
            && (t.None? <==> t'.None?)
            && (t.Some? ==>
                  && StoreEmbeds(t.value, t'.value, p) && |t'.value| == |s.store|
                  && forall n :: 1 <= n <= |s.store| && n !in p ==> t'.value[n - 1] == s.store[n - 1])
  {
    SameNamed(a, s, p, x, id);
    if id in a.idMap && Has(a.store, a.idMap[id], kind) && e.Some? {
      EmbedEvent(a.store, s.store, p, a.idMap[id], e.value);
    }
  }

  lemma EmbedRecord(a: State, s: State, p: seq<StoreId>, x: set<AsiId>, id: AsiId, kind: Kind, e: Option<Event>)
    requires Embeds(a, s, p, x) && Grounded(a) && !a.faulted && !s.faulted && id in x
    ensures Record(a, id, kind, e).faulted <==> Record(s, id, kind, RenMaybe(p, e)).faulted
    ensures !Record(a, id, kind, e).faulted ==>
              var t := Record(s, id, kind, RenMaybe(p, e));
              Embeds(Record(a, id, kind, e), t, p, x) && Touches(s, t, p, x) && |t.store| == |s.store|
  {
    EmbedPut(a, s, p, x, id, kind, e);
  }

  // --------------------------------------------------- single entries of the maps

  lemma PutBeam(m: map<AsiId, BeamData>, n: map<AsiId, BeamData>, p: seq<StoreId>, x: set<AsiId>, id: AsiId,
                b: BeamData)
    requires BeamsEmbed(m, n, p, x) && id in x
    ensures BeamsEmbed(m[id := b], n[id := b.(hostId := Ren(p, b.hostId))], p, x)
    ensures SameOutside(n, n[id := b.(hostId := Ren(p, b.hostId))], x)
  {
  }

  lemma DropBeam(m: map<AsiId, BeamData>, n: map<AsiId, BeamData>, p: seq<StoreId>, x: set<AsiId>, id: AsiId)
    requires BeamsEmbed(m, n, p, x) && id in x
    ensures BeamsEmbed(m - {id}, n - {id}, p, x) && SameOutside(n, n - {id}, x)
  {
  }

  lemma PutGate(m: map<AsiId, GateData>, n: map<AsiId, GateData>, p: seq<StoreId>, x: set<AsiId>, id: AsiId,
                g: GateData)
    requires GatesEmbed(m, n, p, x) && id in x
    ensures GatesEmbed(m[id := g], n[id := g.(hostId := Ren(p, g.hostId))], p, x)
    ensures SameOutside(n, n[id := g.(hostId := Ren(p, g.hostId))], x)
  {
  }

  lemma DropGate(m: map<AsiId, GateData>, n: map<AsiId, GateData>, p: seq<StoreId>, x: set<AsiId>, id: AsiId)
    requires GatesEmbed(m, n, p, x) && id in x
    ensures GatesEmbed(m - {id}, n - {id}, p, x) && SameOutside(n, n - {id}, x)
  {
  }

  lemma CountBoth(m: map<AsiId, nat>, n: map<AsiId, nat>, x: set<AsiId>, id: AsiId)
    requires CountsEmbed(m, n, x) && id in x
    ensures CountsEmbed(CountData(m, id), CountData(n, id), x) && SameOutside(n, CountData(n, id), x)
  {
  }
}
