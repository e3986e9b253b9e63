/**
  The ASI command interpreter of the ASI viewer example as a transition function.

  `State` holds the fields of `SimpleAsiParser` and `AppData` and the data store they write to; `Step` is the
  meaning of one line of the file and `Run` that of the whole file.  Lines arrive as typed commands.
 */
module AsiModel {
  import opened Cycles
  import opened Options

  /** An entity id as written in the file. */
  type AsiId = nat
  /** An entity id handed out by the data store; 0 names no entity. */
  type StoreId = nat

  const DEG2RAD: real := 3.14159265358979323846 / 180.0

  function Pow2(n: nat): (p: int)
    ensures p > 0
  {
    if n == 0 then 1 else 2 * Pow2(n - 1)
  }

  /** The largest finite IEEE 754 double: a 53-bit significand of ones. */
  const DBL_MAX: real := (0x1F_FFFF_FFFF_FFFF * Pow2(971)) as real

  datatype Vec3 = Vec3(x: real, y: real, z: real)

  function Scale(k: real, v: Vec3): Vec3 {
    Vec3(k * v.x, k * v.y, k * v.z)
  }

  // ---------------------------------------------------------------- commands

  datatype PlatformAction =
    | PlatformIcon(icon: string)
    | PlatformName(name: string)
    | PlatformData(time: string, lat: real, lon: real, alt: real, ypr: Vec3, velocity: Vec3)

  datatype BeamAttr = BeamType(text: string) | VertBW(width: real) | HorzBW(width: real)

  datatype BeamAction =
    | BeamOnOffCmd(time: string, onOff: int)
    | BeamColorCmd(time: string, color: string)
    | BeamDataRAE(time: string, az: real, el: real, range: real)
    | BeamTargetIDCmd(time: string, targetId: AsiId)

  datatype GateAction =
    | GateOnOffCmd(time: string, onOff: int)
    | GateColorCmd(time: string, color: string)
    | GateDataRAE(time: string, az: real, el: real, w: real, h: real, start: real, end: real, center: real)

  datatype ProjectorAction =
    | ProjectorRasterFile(file: string)
    | ProjectorInterpolateFOV(value: nat)
    | ProjectorOn(time: string, onOff: int)
    | ProjectorFOV(time: string, fov: real)

  /** One line of the file.  Lines of the same shape share a constructor; the action is the line's first token. */
  datatype Command =
    | PlatformID(id: AsiId)
    | PlatformUse(id: AsiId, platform: PlatformAction)
    | BeamID(host: AsiId, id: AsiId)
    | BeamAttribute(id: AsiId, attr: BeamAttr)
    | BeamUse(id: AsiId, beam: BeamAction)
    | GateID(host: AsiId, id: AsiId)
    | GateType(id: AsiId, text: string)
    | GateUse(id: AsiId, gate: GateAction)
    | ProjectorID(host: AsiId, id: AsiId)
    | ProjectorUse(id: AsiId, projector: ProjectorAction)
    | DegreeAngles(val: int)
    | ReferenceYear(year: int)
    | Unrecognized

  // -------------------------------------------------------------- data store

  datatype RelativeTo = AbsolutePosition | BodyRelative | TargetRelative

  /** What a completed transaction leaves with its entity. */
  datatype Event =
    | IconPref(icon: string)
    | NamePref(name: string)
    | PlatformPoint(time: real, lat: real, lon: real, alt: real, ypr: Vec3, velocity: Vec3)
    | Draw(time: real, on: bool)
    | Color(time: real, color: string)
    | BeamRae(time: real, az: real, el: real, range: real)
    | BeamTarget(time: real, target: StoreId)
    | GateRae(time: real, az: real, el: real, w: real, h: real, start: real, end: real, center: real)
    | RasterPref(file: string)
    | InterpolateFovPref(on: bool)
    | Fov(time: real, fov: real)

  datatype Kind = PlatformKind | BeamKind | GateKind | ProjectorKind

  datatype Entity =
    | Platform(events: seq<Event>)
    | Beam(host: StoreId, relativeTo: RelativeTo, originalId: AsiId, horizontal: real, vertical: real,
           events: seq<Event>)
    | Gate(host: StoreId, relativeTo: RelativeTo, events: seq<Event>)
    | Projector(rawHost: AsiId, events: seq<Event>)
  {
    function Kind(): Kind {
      match this
      case Platform(_) => PlatformKind
      case Beam(_, _, _, _, _, _) => BeamKind
      case Gate(_, _, _) => GateKind
      case Projector(_, _) => ProjectorKind
    }
  }

  /** The committed entities; ids are handed out as 1, 2, 3, ..., so entity `n` is at index `n - 1`. */
  type Store = seq<Entity>

  predicate Has(store: Store, n: StoreId, kind: Kind) {
    1 <= n <= |store| && store[n - 1].Kind() == kind
  }

  function Append(store: Store, n: StoreId, e: Event): (r: Store)
    requires 1 <= n <= |store|
    ensures |r| == |store|
  {
    store[n - 1 := store[n - 1].(events := store[n - 1].events + [e])]
  }

  // ------------------------------------------------------------ parser state

  datatype BeamData = BeamData(hostId: StoreId, beamId: AsiId, beamType: RelativeTo, hw: real, vw: real)
  datatype GateData = GateData(hostId: StoreId, gateId: AsiId, gateType: RelativeTo)

  function NewBeamData(id: AsiId, host: StoreId): BeamData { BeamData(host, id, AbsolutePosition, 0.0, 0.0) }
  function NewGateData(id: AsiId, host: StoreId): GateData { GateData(host, id, AbsolutePosition) }

  datatype Window = Window(startTime: real, endTime: real, lastTime: real)

  /** The time parser's registry: seconds since the start of the given year, or nothing when no format fits. */
  type TimeFormats = (string, int) -> Option<real>

  datatype State = State(
    formats: TimeFormats,
    store: Store,
    idMap: map<AsiId, StoreId>,
    pendingBeams: map<AsiId, BeamData>,
    pendingGates: map<AsiId, GateData>,
    refYear: int,
    degreeAngles: bool,
    dataCount: map<AsiId, nat>,
    window: Window,
    platformIds: seq<AsiId>,
    faulted: bool)  // the store handed back a null object and the line used it: nothing after that line runs

  /** The state in which `readASI` starts parsing. */
  function Initial(formats: TimeFormats, year: int): State {
    State(formats, [], map[], map[], map[], year, false, map[], Window(DBL_MAX, -DBL_MAX, 0.0), [], false)
  }

  // ----------------------------------------------------------------- helpers

  function DeQuote(s: string): string {
    if |s| >= 2 && s[0] == '\"' && s[|s| - 1] == '\"' then s[1..|s| - 1] else s
  }

  function TypeFromString(s: string): RelativeTo {
    if s == "BODY" then BodyRelative else if s == "TARGET" then TargetRelative else AbsolutePosition
  }

  function TimeFromString(formats: TimeFormats, text: string, year: int): real {
    var t := DeQuote(text);
    if |t| > 1 && t[0] == '-' then -1.0 else formats(t, year).GetOr(1.0)
  }

  function TimeOf(s: State, text: string): real {
    TimeFromString(s.formats, text, s.refYear)
  }

  function Angle(s: State, a: real): real {
    if s.degreeAngles then a * DEG2RAD else a
  }

  function WithTime(w: Window, t: real): Window {
    var w1 := if t != -1.0 && t < w.startTime then w.(startTime := t, lastTime := t) else w;
    if t > w1.endTime then w1.(endTime := t) else w1
  }

  function CountData(dataCount: map<AsiId, nat>, id: AsiId): map<AsiId, nat> {
    dataCount[id := ((if id in dataCount then dataCount[id] else 0) + 1) % UINT_RANGE]
  }

  // ------------------------------------------------------- meaning of a line

  function AddEntity(s: State, id: AsiId, e: Entity): (r: State)
    ensures r == s.(store := r.store, idMap := r.idMap)
  {
    s.(store := s.store + [e], idMap := s.idMap[id := |s.store| + 1])
  }

  function CreatedBeam(id: AsiId, b: BeamData): Entity {
    Beam(b.hostId, b.beamType, id, b.hw * DEG2RAD, b.vw * DEG2RAD, [])
  }

  function CreatedGate(g: GateData): Entity {
    Gate(g.hostId, g.gateType, [])
  }

  function CreateBeamIfNeeded(s: State, id: AsiId): (r: State)
    ensures r == s.(store := r.store, idMap := r.idMap, pendingBeams := r.pendingBeams)
  {
    if id !in s.pendingBeams then s else
    AddEntity(s, id, CreatedBeam(id, s.pendingBeams[id])).(pendingBeams := s.pendingBeams - {id})
  }

  function CreateGateIfNeeded(s: State, id: AsiId): (r: State)
    ensures r == s.(store := r.store, idMap := r.idMap, pendingGates := r.pendingGates)
  {
    if id !in s.pendingGates then s else
    AddEntity(s, id, CreatedGate(s.pendingGates[id])).(pendingGates := s.pendingGates - {id})
  }

  function PlatformEvent(s: State, a: PlatformAction): Event {
    match a
    case PlatformIcon(icon) => IconPref(DeQuote(icon))
    case PlatformName(name) => NamePref(DeQuote(name))
    case PlatformData(time, lat, lon, alt, ypr, velocity) =>
      PlatformPoint(TimeOf(s, time), DEG2RAD * lat, DEG2RAD * lon, alt, Scale(DEG2RAD, ypr), velocity)
  }

  function BeamEvent(s: State, a: BeamAction): Option<Event> {
    match a
    case BeamOnOffCmd(time, onOff) => Some(Draw(TimeOf(s, time), onOff == 1))
    case BeamColorCmd(time, color) => Some(Color(TimeOf(s, time), color))
    case BeamDataRAE(time, az, el, range) => Some(BeamRae(TimeOf(s, time), Angle(s, az), Angle(s, el), range))
    // the command is abandoned, not completed, when its target is unknown
    case BeamTargetIDCmd(time, target) =>
      if target in s.idMap then Some(BeamTarget(TimeOf(s, time), s.idMap[target])) else None
  }

  function GateEvent(s: State, a: GateAction): Event {
    match a
    case GateOnOffCmd(time, onOff) => Draw(TimeOf(s, time), onOff == 1)
    case GateColorCmd(time, color) => Color(TimeOf(s, time), color)
    case GateDataRAE(time, az, el, w, h, start, end, center) =>
      GateRae(TimeOf(s, time), Angle(s, az), Angle(s, el), Angle(s, w), Angle(s, h), start, end, center)
  }

  function ProjectorEvent(s: State, a: ProjectorAction): Event {
    match a
    case ProjectorRasterFile(file) => RasterPref(DeQuote(file))
    case ProjectorInterpolateFOV(value) => InterpolateFovPref(value == 1)
    case ProjectorOn(time, onOff) => Draw(TimeOf(s, time), onOff == 1)
    case ProjectorFOV(time, fov) => Fov(TimeOf(s, time), DEG2RAD * fov)
  }

  /** The store once `e` is left with the entity `id` translates to; nothing when that is not a `kind`. */
  function Put(store: Store, idMap: map<AsiId, StoreId>, id: AsiId, kind: Kind, e: Option<Event>): Option<Store> {
    if id !in idMap then Some(store)
    else if !Has(store, idMap[id], kind) then None
    else if e.None? then Some(store)
    else Some(Append(store, idMap[id], e.value))
  }

  function Record(s: State, id: AsiId, kind: Kind, e: Option<Event>): (r: State)
    ensures r == s.(store := r.store, faulted := r.faulted)
  {
    match Put(s.store, s.idMap, id, kind, e)
    case None => s.(faulted := true)
    case Some(store) => s.(store := store)
  }

  function UsePlatform(s: State, id: AsiId, a: PlatformAction): (r: State)
    ensures r == s.(store := r.store, idMap := r.idMap, window := r.window, dataCount := r.dataCount,
                    faulted := r.faulted)
  {
    // operator[] inserts a zero for an unknown id before the store is asked
    var s1 := if id in s.idMap then s else s.(idMap := s.idMap[id := 0]);
    var s2 := Record(s1, id, PlatformKind, Some(PlatformEvent(s, a)));
    if s2.faulted || !a.PlatformData? then s2
    else s2.(window := WithTime(s.window, TimeOf(s, a.time)), dataCount := CountData(s.dataCount, id))
  }

  function UseBeam(s: State, id: AsiId, a: BeamAction): (r: State)
    ensures r == s.(store := r.store, idMap := r.idMap, pendingBeams := r.pendingBeams, faulted := r.faulted)
  {
    var s1 := CreateBeamIfNeeded(s, id);
    Record(s1, id, BeamKind, BeamEvent(s1, a))
  }

  function UseGate(s: State, id: AsiId, a: GateAction): (r: State)
    ensures r == s.(store := r.store, idMap := r.idMap, pendingGates := r.pendingGates, faulted := r.faulted)
  {
    var s1 := CreateGateIfNeeded(s, id);
    Record(s1, id, GateKind, Some(GateEvent(s1, a)))
  }

  function DeclareBeam(s: State, host: AsiId, id: AsiId): State {
    if host !in s.idMap || id in s.pendingBeams then s
    else s.(pendingBeams := s.pendingBeams[id := NewBeamData(id, s.idMap[host])])
  }

  function DeclareGate(s: State, host: AsiId, id: AsiId): State {
    if host !in s.idMap || id in s.pendingGates then s
    else s.(pendingGates := s.pendingGates[id := NewGateData(id, s.idMap[host])])
  }

  function WithBeamAttr(b: BeamData, a: BeamAttr): BeamData {
    match a
    case BeamType(text) => b.(beamType := TypeFromString(DeQuote(text)))
    case VertBW(width) => b.(vw := width)
    case HorzBW(width) => b.(hw := width)
  }

  function SetBeamAttr(s: State, id: AsiId, a: BeamAttr): State {
    var b := if id in s.pendingBeams then s.pendingBeams[id] else NewBeamData(0, 0);
    s.(pendingBeams := s.pendingBeams[id := WithBeamAttr(b, a)])
  }

  function SetGateType(s: State, id: AsiId, text: string): State {
    var g := if id in s.pendingGates then s.pendingGates[id] else NewGateData(0, 0);
    s.(pendingGates := s.pendingGates[id := g.(gateType := TypeFromString(DeQuote(text)))])
  }

  function AddProjector(s: State, host: AsiId, id: AsiId): State {
    if host !in s.idMap then s else AddEntity(s, id, Projector(host, []))
  }

  function Step(s: State, c: Command): State {
    if s.faulted then s else
    match c
    case PlatformID(id) => AddEntity(s, id, Platform([])).(platformIds := s.platformIds + [id])
    case PlatformUse(id, a) => UsePlatform(s, id, a)
    case BeamID(host, id) => DeclareBeam(s, host, id)
    case BeamAttribute(id, a) => SetBeamAttr(s, id, a)
    case BeamUse(id, a) => UseBeam(s, id, a)
    case GateID(host, id) => DeclareGate(s, host, id)
    case GateType(id, text) => SetGateType(s, id, text)
    case GateUse(id, a) => UseGate(s, id, a)
    case ProjectorID(host, id) => AddProjector(s, host, id)
    case ProjectorUse(id, a) => Record(s, id, ProjectorKind, Some(ProjectorEvent(s, a)))
    case DegreeAngles(val) => s.(degreeAngles := val == 1)
    case ReferenceYear(year) => s.(refYear := year)
    case Unrecognized => s
  }

  function Run(s: State, cs: seq<Command>): State {
    if cs == [] then s else Step(Run(s, cs[..|cs| - 1]), cs[|cs| - 1])
  }

  /** The state after the first `k` lines. */
  function After(s: State, cs: seq<Command>, k: nat): State
    requires k <= |cs|
  {
    Run(s, cs[..k])
  }

  lemma AfterStep(s: State, cs: seq<Command>, k: nat)
    requires k < |cs|
    ensures After(s, cs, k + 1) == Step(After(s, cs, k), cs[k])
  {
    assert cs[..k + 1][..k] == cs[..k];
  }

  lemma AfterAll(s: State, cs: seq<Command>)
    ensures After(s, cs, |cs|) == Run(s, cs)
  {
    assert cs[..|cs|] == cs;
  }

  /** A run that ended well has been well at every line. */
  lemma {:induction false} SoundBefore(s: State, cs: seq<Command>, k: nat)
    requires k <= |cs| && !Run(s, cs).faulted
    ensures !After(s, cs, k).faulted
    decreases |cs|
  {
    if k == |cs| {
      AfterAll(s, cs);
    } else {
      SoundBefore(s, cs[..|cs| - 1], k);
      assert cs[..|cs| - 1][..k] == cs[..k];
    }
  }
}
