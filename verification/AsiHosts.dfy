/** Whatever the file says, the hosts recorded for beams and gates form a forest. */
module AsiHosts {
  import opened Options
  import opened AsiModel

  /** The entity a beam or gate hangs on; platforms hang on nothing. */
  function HostOf(e: Entity): StoreId {
    match e
    case Beam(host, _, _, _, _, _) => host
    case Gate(host, _, _) => host
    case _ => 0
  }

  ghost predicate Forest(store: Store) {
    forall n :: 0 <= n < |store| ==> HostOf(store[n]) < n + 1
  }

  ghost predicate TargetsKnown(store: Store) {
    forall n, k :: 0 <= n < |store| && 0 <= k < |store[n].events| && store[n].events[k].BeamTarget? ==>
      1 <= store[n].events[k].target <= |store|
  }

  /** Every store id held anywhere in the parser was handed out before, or is the default 0 of a pending entry. */
  ghost predicate IdsKnown(s: State) {
    && (!s.faulted ==> forall i :: i in s.idMap ==> 1 <= s.idMap[i] <= |s.store|)
    && (forall i :: i in s.pendingBeams ==> s.pendingBeams[i].hostId <= |s.store|)
    && (forall i :: i in s.pendingGates ==> s.pendingGates[i].hostId <= |s.store|)
  }

  ghost predicate Grounded(s: State) {
    Forest(s.store) && TargetsKnown(s.store) && IdsKnown(s)
  }

  lemma AddKeepsGrounded(s: State, id: AsiId, e: Entity)
    requires Grounded(s) && !s.faulted && HostOf(e) <= |s.store| && e.events == []
    ensures Grounded(AddEntity(s, id, e))
  {
    var t := AddEntity(s, id, e);
    assert forall n :: 0 <= n < |s.store| ==> t.store[n] == s.store[n];
  }

  lemma AppendKeepsGrounded(s: State, n: StoreId, e: Event)
    requires Grounded(s) && 1 <= n <= |s.store|
    requires e.BeamTarget? ==> 1 <= e.target <= |s.store|
    ensures Grounded(s.(store := Append(s.store, n, e)))
  {
    var t := Append(s.store, n, e);
    forall m, k | 0 <= m < |t| && 0 <= k < |t[m].events| && t[m].events[k].BeamTarget?
      ensures 1 <= t[m].events[k].target <= |t|
    {
      if m == n - 1 && k == |s.store[m].events| {
        assert t[m].events[k] == e;
      } else {
        assert t[m].events[k] == s.store[m].events[k];
      }
    }
  }

  lemma RecordKeepsGrounded(s: State, id: AsiId, kind: Kind, e: Option<Event>)
    requires Grounded(s) && !s.faulted
    requires e.Some? && e.value.BeamTarget? ==> 1 <= e.value.target <= |s.store|
    ensures Grounded(Record(s, id, kind, e))
  {
    if id in s.idMap && Has(s.store, s.idMap[id], kind) && e.Some? {
      AppendKeepsGrounded(s, s.idMap[id], e.value);
    }
  }

  lemma PlatformKeepsGrounded(s: State, id: AsiId, a: PlatformAction)
    requires Grounded(s) && !s.faulted
    ensures Grounded(UsePlatform(s, id, a))
  {
    if id in s.idMap {
      RecordKeepsGrounded(s, id, PlatformKind, Some(PlatformEvent(s, a)));
    } else {
      assert Put(s.store, s.idMap[id := 0], id, PlatformKind, Some(PlatformEvent(s, a))).None?;
    }
  }

  lemma BeamKeepsGrounded(s: State, id: AsiId, a: BeamAction)
    requires Grounded(s) && !s.faulted
    ensures Grounded(UseBeam(s, id, a))
  {
    if id in s.pendingBeams {
      AddKeepsGrounded(s, id, CreatedBeam(id, s.pendingBeams[id]));
    }
    var s1 := CreateBeamIfNeeded(s, id);
    RecordKeepsGrounded(s1, id, BeamKind, BeamEvent(s1, a));
  }

  lemma GateKeepsGrounded(s: State, id: AsiId, a: GateAction)
    requires Grounded(s) && !s.faulted
    ensures Grounded(UseGate(s, id, a))
  {
    if id in s.pendingGates {
      AddKeepsGrounded(s, id, CreatedGate(s.pendingGates[id]));
    }
    var s1 := CreateGateIfNeeded(s, id);
    RecordKeepsGrounded(s1, id, GateKind, Some(GateEvent(s1, a)));
  }

  lemma PendingKeepsGrounded(s: State, c: Command)
    requires Grounded(s) && !s.faulted
    requires c.BeamID? || c.BeamAttribute? || c.GateID? || c.GateType?
    ensures Grounded(Step(s, c))
  {
    match c
    case BeamID(host, id) => if host !in s.idMap || id in s.pendingBeams { } else { }
    case BeamAttribute(id, a) => if id in s.pendingBeams { } else { }
    case GateID(host, id) => if host !in s.idMap || id in s.pendingGates { } else { }
    case GateType(id, text) => if id in s.pendingGates { } else { }
  }

  lemma StepKeepsGrounded(s: State, c: Command)
    requires Grounded(s)
    ensures Grounded(Step(s, c))
  {
    if !s.faulted {
      match c {
        case PlatformID(id) => AddKeepsGrounded(s, id, Platform([]));
        case PlatformUse(id, a) => PlatformKeepsGrounded(s, id, a);
        case BeamID(_, _) => PendingKeepsGrounded(s, c);
        case BeamAttribute(_, _) => PendingKeepsGrounded(s, c);
        case BeamUse(id, a) => BeamKeepsGrounded(s, id, a);
        case GateID(_, _) => PendingKeepsGrounded(s, c);
        case GateType(_, _) => PendingKeepsGrounded(s, c);
        case GateUse(id, a) => GateKeepsGrounded(s, id, a);
        case ProjectorID(host, id) =>
          if host in s.idMap {
            AddKeepsGrounded(s, id, Projector(host, []));
          }
        case ProjectorUse(id, a) => RecordKeepsGrounded(s, id, ProjectorKind, Some(ProjectorEvent(s, a)));
        case DegreeAngles(val) =>
        case ReferenceYear(year) =>
        case Unrecognized =>
      }
    }
  }

  lemma {:induction false} RunKeepsGrounded(s: State, cs: seq<Command>)
    requires Grounded(s)
    ensures Grounded(Run(s, cs))
  {
    if cs != [] {
      RunKeepsGrounded(s, cs[..|cs| - 1]);
      StepKeepsGrounded(Run(s, cs[..|cs| - 1]), cs[|cs| - 1]);
    }
  }

  /** The entity reached from `n` by `k` steps from hosted to host. */
  function Ancestor(store: Store, n: StoreId, k: nat): StoreId
    requires n <= |store| && Forest(store)
    decreases k
  {
    if k == 0 || n == 0 then n else Ancestor(store, HostOf(store[n - 1]), k - 1)
  }

  lemma {:induction false} AncestorDescends(store: Store, n: StoreId, k: nat)
    requires n <= |store| && Forest(store)
    ensures Ancestor(store, n, k) <= if k < n then n - k else 0
    decreases k
  {
    if k != 0 && n != 0 {
      AncestorDescends(store, HostOf(store[n - 1]), k - 1);
    }
  }

  /** In every file, no entity is its own ancestor and every host chain ends after at most as many steps as its id. */
  lemma HostForest(formats: TimeFormats, year: int, cs: seq<Command>, n: StoreId, k: nat)
    requires 1 <= n <= |Run(Initial(formats, year), cs).store| && k >= 1
    ensures Forest(Run(Initial(formats, year), cs).store)
    ensures Ancestor(Run(Initial(formats, year), cs).store, n, k) < n
    ensures k >= n ==> Ancestor(Run(Initial(formats, year), cs).store, n, k) == 0
  {
    RunKeepsGrounded(Initial(formats, year), cs);
    AncestorDescends(Run(Initial(formats, year), cs).store, n, k);
  }
}
