/**
  What the store holds after a file, told from the lines alone: each entity has exactly the events of the lines that
  address it, in their order, field by field.
 */
module AsiContents {
  import opened Options
  import opened AsiModel
  import opened AsiSketch
  import opened AsiFile
  import AsiIndependence
  import AsiUnits
  import AsiWindow

  // ----------------------------------------------------- which lines, which fields

  /** Line `k` uses an id whose last making line, which may be `k` itself, made entity number `n + 1`. */
  predicate Addresses(cs: seq<Command>, k: nat, n: nat) {
    && k < |cs| && WantedKind(cs[k]).Some?
    && var m := LastMaker(cs, k + 1, cs[k].id);
       m.Some? && Made(cs, m.value) == n
  }

  /** All uses leave an event with their entity, but for a target command whose target no line has made yet. */
  predicate Leaves(cs: seq<Command>, k: nat) {
    k < |cs| && (cs[k].BeamUse? && cs[k].beam.BeamTargetIDCmd? ==> LastMaker(cs, k + 1, cs[k].beam.targetId).Some?)
  }

  /** The numbers below `len` with the property, in order. */
  function Where(len: nat, p: nat -> bool): (ks: seq<nat>)
    ensures forall i, j :: 0 <= i < j < |ks| ==> ks[i] < ks[j]
    ensures forall k: nat :: k in ks <==> k < len && p(k)
  {
    if len == 0 then []
    else
      var ks := Where(len - 1, p);
      assert forall i :: 0 <= i < |ks| ==> ks[i] in ks;
      if p(len - 1) then ks + [len - 1] else ks
  }

  /** Line `k` leaves an event with entity `n + 1`. */
  predicate Contributes(cs: seq<Command>, k: nat, n: nat) {
    Addresses(cs, k, n) && Leaves(cs, k)
  }

  /** Those lines among the first `len`. */
  function LinesOf(cs: seq<Command>, len: nat, n: nat): seq<nat> {
    Where(len, (k: nat) => Contributes(cs, k, n))
  }

  /** A time text of line `k`, in the reference year in force there. */
  function LineTime(formats: TimeFormats, year: int, cs: seq<Command>, k: nat, text: string): real
    requires k < |cs|
  {
    TimeFromString(formats, text, AsiWindow.YearAfter(year, cs[..k]))
  }

  /** An angle of an RAE line, in the unit in force there; files start in radians. */
  function LineAngle(cs: seq<Command>, k: nat, angle: real): real
    requires k < |cs|
  {
    if AsiUnits.Mode(false, cs[..k]) then angle * DEG2RAD else angle
  }

  predicate HoldsPlatform(formats: TimeFormats, year: int, cs: seq<Command>, k: nat, e: Event)
    requires k < |cs| && cs[k].PlatformUse?
  {
    match cs[k].platform
    case PlatformIcon(icon) => e.IconPref? && e.icon == DeQuote(icon)
    case PlatformName(name) => e.NamePref? && e.name == DeQuote(name)
    case PlatformData(time, lat, lon, alt, ypr, velocity) =>
      && e.PlatformPoint? && e.time == LineTime(formats, year, cs, k, time)
      && e.lat == DEG2RAD * lat && e.lon == DEG2RAD * lon && e.alt == alt
      && e.ypr.x == DEG2RAD * ypr.x && e.ypr.y == DEG2RAD * ypr.y && e.ypr.z == DEG2RAD * ypr.z
      && e.velocity == velocity
  }

  predicate HoldsBeam(formats: TimeFormats, year: int, cs: seq<Command>, k: nat, e: Event)
    requires k < |cs| && cs[k].BeamUse?
  {
    match cs[k].beam
    case BeamOnOffCmd(time, onOff) =>
      e.Draw? && e.time == LineTime(formats, year, cs, k, time) && (e.on <==> onOff == 1)
    case BeamColorCmd(time, color) => e.Color? && e.time == LineTime(formats, year, cs, k, time) && e.color == color
    case BeamDataRAE(time, az, el, range) =>
      && e.BeamRae? && e.time == LineTime(formats, year, cs, k, time)
      && e.az == LineAngle(cs, k, az) && e.el == LineAngle(cs, k, el) && e.range == range
    case BeamTargetIDCmd(time, target) =>
      && e.BeamTarget? && e.time == LineTime(formats, year, cs, k, time)
      && var m := LastMaker(cs, k + 1, target);
         m.Some? && e.target == Made(cs, m.value + 1)
  }

  predicate HoldsGate(formats: TimeFormats, year: int, cs: seq<Command>, k: nat, e: Event)
    requires k < |cs| && cs[k].GateUse?
  {
    match cs[k].gate
    case GateOnOffCmd(time, onOff) =>
      e.Draw? && e.time == LineTime(formats, year, cs, k, time) && (e.on <==> onOff == 1)
    case GateColorCmd(time, color) => e.Color? && e.time == LineTime(formats, year, cs, k, time) && e.color == color
    case GateDataRAE(time, az, el, w, h, start, end, center) =>
      && e.GateRae? && e.time == LineTime(formats, year, cs, k, time)
      && e.az == LineAngle(cs, k, az) && e.el == LineAngle(cs, k, el)
      && e.w == LineAngle(cs, k, w) && e.h == LineAngle(cs, k, h)
      && e.start == start && e.end == end && e.center == center
  }

  predicate HoldsProjector(formats: TimeFormats, year: int, cs: seq<Command>, k: nat, e: Event)
    requires k < |cs| && cs[k].ProjectorUse?
  {
    match cs[k].projector
    case ProjectorRasterFile(file) => e.RasterPref? && e.file == DeQuote(file)
    case ProjectorInterpolateFOV(value) => e.InterpolateFovPref? && (e.on <==> value == 1)
    case ProjectorOn(time, onOff) => e.Draw? && e.time == LineTime(formats, year, cs, k, time) && (e.on <==> onOff == 1)
    case ProjectorFOV(time, fov) => e.Fov? && e.time == LineTime(formats, year, cs, k, time) && e.fov == DEG2RAD * fov
  }

  /** The event has the fields line `k` gives. */
  predicate Holds(formats: TimeFormats, year: int, cs: seq<Command>, k: nat, e: Event) {
    && k < |cs|
    && (if cs[k].PlatformUse? then HoldsPlatform(formats, year, cs, k, e)
        else if cs[k].BeamUse? then HoldsBeam(formats, year, cs, k, e)
        else if cs[k].GateUse? then HoldsGate(formats, year, cs, k, e)
        else cs[k].ProjectorUse? && HoldsProjector(formats, year, cs, k, e))
  }

  ghost predicate HoldAll(formats: TimeFormats, year: int, cs: seq<Command>, ks: seq<nat>, events: seq<Event>) {
    |events| == |ks| && forall i :: 0 <= i < |ks| ==> Holds(formats, year, cs, ks[i], events[i])
  }

  // ------------------------------------------------------------------- one line

  /** The entities keep their events, new ones have none, and the one at `at` gets `e` if there is one. */
  ghost predicate Gains(before: Store, after: Store, at: Option<nat>, e: Option<Event>) {
    && |before| <= |after|
    && forall n :: 0 <= n < |after| ==>
         after[n].events == (if n < |before| then before[n].events else []) +
                            (if at == Some(n) && e.Some? then [e.value] else [])
  }

  lemma NothingGained(store: Store, at: Option<nat>)
    ensures Gains(store, store, None, None) && Gains(store, store, at, None)
  {
  }

  lemma NewGainsNothing(store: Store, e: Entity)
    requires e.events == []
    ensures Gains(store, store + [e], None, None)
  {
  }

  lemma ThenGains(a: Store, b: Store, c: Store, at: Option<nat>, e: Option<Event>)
    requires Gains(a, b, None, None) && Gains(b, c, at, e)
    ensures Gains(a, c, at, e)
  {
  }

  function At(idMap: map<AsiId, StoreId>, id: AsiId): Option<nat> {
    if id in idMap && idMap[id] > 0 then Some(idMap[id] - 1) else None
  }

  lemma RecordGains(s: State, id: AsiId, kind: Kind, e: Option<Event>)
    requires !s.faulted && !Record(s, id, kind, e).faulted
    ensures Gains(s.store, Record(s, id, kind, e).store, At(s.idMap, id), e)
    ensures Record(s, id, kind, e).idMap == s.idMap
  {
    if id in s.idMap && e.Some? {
      assert Put(s.store, s.idMap, id, kind, e) == Some(Append(s.store, s.idMap[id], e.value));
    } else {
      assert Put(s.store, s.idMap, id, kind, e) == Some(s.store);
      assert At(s.idMap, id).None? || e.None?;
    }
  }

  /** What a use leaves, in the state right before it is left. */
  function Given(t: State, c: Command): Option<Event> {
    match c
    case PlatformUse(_, a) => Some(PlatformEvent(t, a))
    case BeamUse(_, a) => BeamEvent(t, a)
    case GateUse(_, a) => Some(GateEvent(t, a))
    case ProjectorUse(_, a) => Some(ProjectorEvent(t, a))
    case _ => None
  }

  /** A state with the same modes gives the same event, targets being read from the id map. */
  lemma GivenBySameModes(s: State, t: State, c: Command)
    requires s.formats == t.formats && s.refYear == t.refYear && s.degreeAngles == t.degreeAngles && s.idMap == t.idMap
    ensures Given(s, c) == Given(t, c)
  {
  }

  /** The line's effect on the events: what the line gives goes to the entity its id names afterwards. */
  ghost predicate LineGains(s: State, t: State, c: Command) {
    if WantedKind(c).Some? then
      var m := s.(idMap := t.idMap);
      Gains(s.store, t.store, At(t.idMap, c.id), Given(m, c))
    else Gains(s.store, t.store, None, None)
  }

  lemma PlatformGains(s: State, id: AsiId, a: PlatformAction)
    requires !s.faulted && !UsePlatform(s, id, a).faulted
    ensures LineGains(s, UsePlatform(s, id, a), PlatformUse(id, a))
  {
    assert id in s.idMap;
    RecordGains(s, id, PlatformKind, Some(PlatformEvent(s, a)));
  }

  lemma BeamGains(s: State, id: AsiId, a: BeamAction)
    requires !s.faulted && !UseBeam(s, id, a).faulted
    ensures LineGains(s, UseBeam(s, id, a), BeamUse(id, a))
  {
    var s1 := CreateBeamIfNeeded(s, id);
    NothingGained(s.store, None);
    if id in s.pendingBeams {
      NewGainsNothing(s.store, CreatedBeam(id, s.pendingBeams[id]));
    }
    RecordGains(s1, id, BeamKind, BeamEvent(s1, a));
    var t := UseBeam(s, id, a);
    ThenGains(s.store, s1.store, t.store, At(t.idMap, id), BeamEvent(s1, a));
    GivenBySameModes(s1, s.(idMap := t.idMap), BeamUse(id, a));
  }

  lemma GateGains(s: State, id: AsiId, a: GateAction)
    requires !s.faulted && !UseGate(s, id, a).faulted
    ensures LineGains(s, UseGate(s, id, a), GateUse(id, a))
  {
    var s1 := CreateGateIfNeeded(s, id);
    NothingGained(s.store, None);
    if id in s.pendingGates {
      NewGainsNothing(s.store, CreatedGate(s.pendingGates[id]));
    }
    RecordGains(s1, id, GateKind, Some(GateEvent(s1, a)));
    var t := UseGate(s, id, a);
    ThenGains(s.store, s1.store, t.store, At(t.idMap, id), Some(GateEvent(s1, a)));
    GivenBySameModes(s1, s.(idMap := t.idMap), GateUse(id, a));
  }

  lemma StepGains(s: State, c: Command)
    requires !s.faulted && !Step(s, c).faulted
    ensures LineGains(s, Step(s, c), c)
  {
    NothingGained(s.store, None);
    match c
    case PlatformID(_) => NewGainsNothing(s.store, Platform([]));
    case PlatformUse(id, a) => PlatformGains(s, id, a);
    case BeamID(_, _) =>
    case BeamAttribute(_, _) =>
    case BeamUse(id, a) => BeamGains(s, id, a);
    case GateID(_, _) =>
    case GateType(_, _) =>
    case GateUse(id, a) => GateGains(s, id, a);
    case ProjectorID(host, _) => NewGainsNothing(s.store, Projector(host, []));
    case ProjectorUse(id, a) => RecordGains(s, id, ProjectorKind, Some(ProjectorEvent(s, a)));
    case DegreeAngles(_) =>
    case ReferenceYear(_) =>
    case Unrecognized =>
  }

  // ------------------------------------------------------- one line of a whole file

  /** The state in which line `k` leaves its event, but for what is on hold and stored. */
  ghost predicate ModesAt(s: State, formats: TimeFormats, year: int, cs: seq<Command>, k: nat)
    requires k < |cs|
  {
    && s.formats == formats && s.refYear == AsiWindow.YearAfter(year, cs[..k])
    && s.degreeAngles == AsiUnits.Mode(false, cs[..k])
  }

  lemma ModesAfter(formats: TimeFormats, year: int, cs: seq<Command>, k: nat)
    requires Readable(cs) && k < |cs|
    ensures ModesAt(After(Initial(formats, year), cs, k), formats, year, cs, k)
  {
    ReadablePrefix(cs, k);
    ReadToEndIff(formats, year, cs[..k]);
    AsiWindow.YearIsTracked(Initial(formats, year), cs[..k]);
    AsiUnits.RunMode(Initial(formats, year), cs[..k]);
  }

  lemma GivenHolds(s: State, formats: TimeFormats, year: int, cs: seq<Command>, k: nat)
    requires k < |cs| && WantedKind(cs[k]).Some? && ModesAt(s, formats, year, cs, k)
    requires cs[k].BeamUse? && cs[k].beam.BeamTargetIDCmd? ==>
               var target := cs[k].beam.targetId;
               var m := LastMaker(cs, k + 1, target);
               && (target in s.idMap <==> m.Some?)
               && (m.Some? ==> s.idMap[target] == Made(cs, m.value + 1))
    ensures Given(s, cs[k]).Some? <==> Leaves(cs, k)
    ensures Leaves(cs, k) ==> Holds(formats, year, cs, k, Given(s, cs[k]).value)
  {
    match cs[k]
    case PlatformUse(_, a) =>
      match a {
        case PlatformIcon(_) =>
        case PlatformName(_) =>
        case PlatformData(_, _, _, _, _, _) =>
      }
    case BeamUse(_, a) =>
      match a {
        case BeamOnOffCmd(_, _) =>
        case BeamColorCmd(_, _) =>
        case BeamDataRAE(_, _, _, _) =>
        case BeamTargetIDCmd(_, _) =>
      }
    case GateUse(_, a) =>
      match a {
        case GateOnOffCmd(_, _) =>
        case GateColorCmd(_, _) =>
        case GateDataRAE(_, _, _, _, _, _, _, _) =>
      }
    case ProjectorUse(_, a) =>
      match a {
        case ProjectorRasterFile(_) =>
        case ProjectorInterpolateFOV(_) =>
        case ProjectorOn(_, _) =>
        case ProjectorFOV(_, _) =>
      }
  }

  /** What line `k` does to the events of entity `n + 1`, in terms of the file. */
  ghost predicate EventsGrow(formats: TimeFormats, year: int, cs: seq<Command>, k: nat, n: nat,
                             before: seq<Event>, after: seq<Event>)
  {
    if Contributes(cs, k, n)
    then |after| == |before| + 1 && after[..|before|] == before && Holds(formats, year, cs, k, after[|before|])
    else after == before
  }

  function EventsOf(store: Store, n: nat): seq<Event> {
    if n < |store| then store[n].events else []
  }

  lemma AddressedEntity(t: State, cs: seq<Command>, k: nat, n: nat)
    requires k < |cs| && WantedKind(cs[k]).Some? && Matches(t, Sketched(cs[..k + 1]))
    ensures At(t.idMap, cs[k].id) == Some(n) <==> Addresses(cs, k, n)
  {
    NamesAreCounts(cs, k + 1, cs[k].id);
  }

  lemma GainsOf(before: Store, after: Store, at: Option<nat>, e: Option<Event>,
                formats: TimeFormats, year: int, cs: seq<Command>, k: nat, n: nat)
    requires Gains(before, after, at, e) && n < |after|
    requires at == Some(n) && e.Some? <==> Contributes(cs, k, n)
    requires Contributes(cs, k, n) ==> Holds(formats, year, cs, k, e.value)
    ensures EventsGrow(formats, year, cs, k, n, EventsOf(before, n), EventsOf(after, n))
  {
    var was, more := EventsOf(before, n), if at == Some(n) && e.Some? then [e.value] else [];
    assert EventsOf(after, n) == was + more;
    if more == [] {
      assert was + more == was;
    }
  }

  /** The id map after the line tells what a target command finds. */
  lemma TargetsFound(t: State, cs: seq<Command>, k: nat, target: AsiId)
    requires k < |cs| && Matches(t, Sketched(cs[..k + 1]))
    ensures var m := LastMaker(cs, k + 1, target);
            && (target in t.idMap <==> m.Some?)
            && (m.Some? ==> t.idMap[target] == Made(cs, m.value + 1))
  {
    NamesAreCounts(cs, k + 1, target);
  }

  lemma GainsToGrow(s: State, t: State, formats: TimeFormats, year: int, cs: seq<Command>, k: nat, n: nat)
    requires k < |cs| && LineGains(s, t, cs[k]) && ModesAt(s, formats, year, cs, k)
    requires Matches(t, Sketched(cs[..k + 1])) && n < |t.store|
    ensures EventsGrow(formats, year, cs, k, n, EventsOf(s.store, n), EventsOf(t.store, n))
  {
    if WantedKind(cs[k]).Some? {
      var m := s.(idMap := t.idMap);
      AddressedEntity(t, cs, k, n);
      if cs[k].BeamUse? && cs[k].beam.BeamTargetIDCmd? {
        TargetsFound(t, cs, k, cs[k].beam.targetId);
      }
      GivenHolds(m, formats, year, cs, k);
      GainsOf(s.store, t.store, At(t.idMap, cs[k].id), Given(m, cs[k]), formats, year, cs, k, n);
    } else {
      GainsOf(s.store, t.store, None, None, formats, year, cs, k, n);
    }
  }

  lemma LineGrows(formats: TimeFormats, year: int, cs: seq<Command>, k: nat, n: nat)
    requires Readable(cs) && k < |cs| && n < |After(Initial(formats, year), cs, k + 1).store|
    ensures var s0 := Initial(formats, year);
            EventsGrow(formats, year, cs, k, n,
                       EventsOf(After(s0, cs, k).store, n), EventsOf(After(s0, cs, k + 1).store, n))
  {
    var s0 := Initial(formats, year);
    MatchesAfter(formats, year, cs, k);
    MatchesAfter(formats, year, cs, k + 1);
    AfterStep(s0, cs, k);
    StepGains(After(s0, cs, k), cs[k]);
    ModesAfter(formats, year, cs, k);
    GainsToGrow(After(s0, cs, k), After(s0, cs, k + 1), formats, year, cs, k, n);
  }

  // ---------------------------------------------------------------- the whole file

  lemma HoldOneMore(formats: TimeFormats, year: int, cs: seq<Command>, ks: seq<nat>, events: seq<Event>,
                    k: nat, e: Event)
    requires HoldAll(formats, year, cs, ks, events) && Holds(formats, year, cs, k, e)
    ensures HoldAll(formats, year, cs, ks + [k], events + [e])
  {
  }

  lemma LinesGrow(cs: seq<Command>, k: nat, n: nat)
    ensures LinesOf(cs, k + 1, n) == LinesOf(cs, k, n) + if Contributes(cs, k, n) then [k] else []
  {
  }

  lemma GrowKeepsHeld(formats: TimeFormats, year: int, cs: seq<Command>, k: nat, n: nat,
                      before: seq<Event>, after: seq<Event>)
    requires k < |cs| && EventsGrow(formats, year, cs, k, n, before, after)
    requires HoldAll(formats, year, cs, LinesOf(cs, k, n), before)
    ensures HoldAll(formats, year, cs, LinesOf(cs, k + 1, n), after)
  {
    LinesGrow(cs, k, n);
    if Contributes(cs, k, n) {
      HoldOneMore(formats, year, cs, LinesOf(cs, k, n), before, k, after[|before|]);
      assert after == before + [after[|before|]];
    } else {
      assert LinesOf(cs, k, n) + [] == LinesOf(cs, k, n);
    }
  }

  /** No line addresses an entity before one has made it. */
  lemma UnmadeUnaddressed(cs: seq<Command>, k: nat, n: nat)
    requires k < |cs| && Made(cs, k + 1) <= n
    ensures !Addresses(cs, k, n)
  {
    if Addresses(cs, k, n) {
      NamesAreCounts(cs, k + 1, cs[k].id);
      SketchCounts(cs, k + 1);
    }
  }

  lemma {:induction false} MadeGrows(cs: seq<Command>, j: nat, k: nat)
    requires j <= k <= |cs|
    ensures Made(cs, j) <= Made(cs, k)
    decreases k
  {
    if j < k {
      MadeGrows(cs, j, k - 1);
    }
  }

  /** The events line `k` finds and those it leaves, for any entity, made or not. */
  lemma AnyLineGrows(formats: TimeFormats, year: int, cs: seq<Command>, k: nat, n: nat)
    requires Readable(cs) && k < |cs|
    ensures var s0 := Initial(formats, year);
            EventsGrow(formats, year, cs, k, n,
                       EventsOf(After(s0, cs, k).store, n), EventsOf(After(s0, cs, k + 1).store, n))
  {
    MatchesAfter(formats, year, cs, k + 1);
    SketchCounts(cs, k + 1);
    if n < Made(cs, k + 1) {
      LineGrows(formats, year, cs, k, n);
    } else {
      MatchesAfter(formats, year, cs, k);
      SketchCounts(cs, k);
      UnmadeUnaddressed(cs, k, n);
    }
  }

  lemma {:induction false} Accumulate(formats: TimeFormats, year: int, cs: seq<Command>, n: nat,
                                       events: seq<seq<Event>>, len: nat)
    requires len <= |cs| < |events| && events[0] == []
    requires forall k :: 0 <= k < |cs| ==> EventsGrow(formats, year, cs, k, n, events[k], events[k + 1])
    ensures HoldAll(formats, year, cs, LinesOf(cs, len, n), events[len])
  {
    if len > 0 {
      Accumulate(formats, year, cs, n, events, len - 1);
      assert EventsGrow(formats, year, cs, len - 1, n, events[len - 1], events[len - 1 + 1]);
      GrowKeepsHeld(formats, year, cs, len - 1, n, events[len - 1], events[len]);
    }
  }

  lemma HeldAtEnd(formats: TimeFormats, year: int, cs: seq<Command>, n: nat)
    requires Readable(cs)
    ensures HoldAll(formats, year, cs, LinesOf(cs, |cs|, n), EventsOf(Run(Initial(formats, year), cs).store, n))
  {
    var s0 := Initial(formats, year);
    var events := seq(|cs| + 1, k requires 0 <= k <= |cs| => EventsOf(After(s0, cs, k).store, n));
    forall k | 0 <= k < |cs| ensures EventsGrow(formats, year, cs, k, n, events[k], events[k + 1]) {
      AnyLineGrows(formats, year, cs, k, n);
    }
    assert cs[..0] == [];
    Accumulate(formats, year, cs, n, events, |cs|);
    AfterAll(s0, cs);
  }

  /**
    For every file read to its end and every entity: its events are those of the lines that address it, one for each,
    in the order of the lines, with the fields the lines give.
   */
  lemma StoreHoldsLines(formats: TimeFormats, year: int, cs: seq<Command>, n: nat)
    requires Readable(cs)
    ensures var store := Run(Initial(formats, year), cs).store;
            && |store| == Made(cs, |cs|)
            && (n < |store| ==> HoldAll(formats, year, cs, LinesOf(cs, |cs|, n), store[n].events))
  {
    HeldAtEnd(formats, year, cs, n);
    AfterAll(Initial(formats, year), cs);
    MatchesAfter(formats, year, cs, |cs|);
    SketchCounts(cs, |cs|);
  }

  /** In particular every PlatformData line leaves its point, with each field where it belongs. */
  lemma PointIsStored(formats: TimeFormats, year: int, cs: seq<Command>, k: nat) returns (n: nat, i: nat)
    requires Readable(cs) && k < |cs| && cs[k].PlatformUse? && cs[k].platform.PlatformData?
    ensures Addresses(cs, k, n) && n < |Run(Initial(formats, year), cs).store|
    ensures i < |Run(Initial(formats, year), cs).store[n].events|
    ensures var e, a := Run(Initial(formats, year), cs).store[n].events[i], cs[k].platform;
            && e.PlatformPoint? && e.lat == DEG2RAD * a.lat && e.lon == DEG2RAD * a.lon && e.alt == a.alt
            && e.ypr == Vec3(DEG2RAD * a.ypr.x, DEG2RAD * a.ypr.y, DEG2RAD * a.ypr.z) && e.velocity == a.velocity
            && e.time == TimeFromString(formats, a.time, AsiWindow.YearAfter(year, cs[..k]))
  {
    assert !BadLine(cs, k);
    BadLineIff(cs, k);
    var m := LastMaker(cs, k, cs[k].id);
    assert !MakerLine(cs, k) && LastMaker(cs, k + 1, cs[k].id) == m;
    n := Made(cs, m.value);
    MadeGrows(cs, m.value + 1, |cs|);
    StoreHoldsLines(formats, year, cs, n);
    var ks := LinesOf(cs, |cs|, n);
    assert k in ks;
    i :| 0 <= i < |ks| && ks[i] == k;
    assert Holds(formats, year, cs, ks[i], Run(Initial(formats, year), cs).store[n].events[i]);
  }

  /** The ids of all PlatformID lines, in order. */
  function Listed(cs: seq<Command>): seq<AsiId> {
    if cs == [] then []
    else Listed(cs[..|cs| - 1]) + AsiIndependence.Declared(cs[|cs| - 1])
  }

  /** The list of platforms to tether to is that of the PlatformID lines. */
  lemma {:induction false} PlatformsAreListed(formats: TimeFormats, year: int, cs: seq<Command>)
    requires Readable(cs)
    ensures Run(Initial(formats, year), cs).platformIds == Listed(cs)
  {
    if cs != [] {
      var front := cs[..|cs| - 1];
      ReadablePrefix(cs, |cs| - 1);
      ReadToEndIff(formats, year, front);
      PlatformsAreListed(formats, year, front);
      AsiIndependence.PlatformIdsStep(Run(Initial(formats, year), front), cs[|cs| - 1]);
    }
  }

  // ------------------------------------------------------------------------ texts

  function Quoted(text: string): string {
    "\"" + text + "\""
  }

  /** Quotes around a text are taken off, once; a text without them is read as it is. */
  lemma QuotesComeOff(text: string)
    ensures DeQuote(Quoted(text)) == text
    ensures DeQuote(text) == text || text == Quoted(DeQuote(text))
    ensures |text| < 2 || text[0] != '\"' || text[|text| - 1] != '\"' ==> DeQuote(text) == text
  {
    assert Quoted(text)[1..|Quoted(text)| - 1] == text;
    if DeQuote(text) != text {
      assert text == Quoted(DeQuote(text));
    }
  }

  /** The types of beams and gates: two words, quoted or not, and everything else is an absolute position. */
  lemma TypeWords(text: string)
    ensures TypeFromString(DeQuote("BODY")) == TypeFromString(DeQuote(Quoted("BODY"))) == BodyRelative
    ensures TypeFromString(DeQuote("TARGET")) == TypeFromString(DeQuote(Quoted("TARGET"))) == TargetRelative
    ensures text != "BODY" && text != "TARGET" ==> TypeFromString(text) == AbsolutePosition
  {
    QuotesComeOff("BODY");
    QuotesComeOff("TARGET");
  }

  /**
    A time text, quoted or not: with a leading minus and more after it, it is -1; otherwise it is what the formats
    make of it in the reference year, or 1 when none fits.
   */
  lemma TimeTexts(formats: TimeFormats, text: string, year: int)
    requires DeQuote(text) == text
    ensures TimeFromString(formats, Quoted(text), year) == TimeFromString(formats, text, year)
    ensures |text| >= 2 && text[0] == '-' ==> TimeFromString(formats, text, year) == -1.0
    ensures |text| < 2 || text[0] != '-' ==>
              TimeFromString(formats, text, year) ==
                match formats(text, year) case None => 1.0 case Some(t) => t
  {
    QuotesComeOff(text);
  }

  // --------------------------------------------------------------------- examples

  lemma NameIsKept(formats: TimeFormats, year: int, name: string)
    ensures Run(Initial(formats, year), [PlatformID(1), PlatformUse(1, PlatformName(Quoted(name)))]).store ==
              [Platform([NamePref(name)])]
  {
    var cs := [PlatformID(1), PlatformUse(1, PlatformName(Quoted(name)))];
    var s0 := Initial(formats, year);
    QuotesComeOff(name);
    AfterStep(s0, cs, 0);
    AfterStep(s0, cs, 1);
    AfterAll(s0, cs);
    assert After(s0, cs, 1).store == [Platform([])];
    assert After(s0, cs, 2).store[0] == Platform([NamePref(name)]);
  }
}
