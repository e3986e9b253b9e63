/**
  The objects of the ASI viewer that a file is read into: the data store, the application data and the parser.
  Each method changes fields as the C++ does and is proved to compute the transition function of `AsiModel`.
 */
module AsiParser {
  import opened Cycles
  import opened Options
  import opened AsiModel

  /** The part of the data store the parser uses: fresh ids, and transactions that take effect when completed. */
  class DataStore {
    var entities: Store

    constructor ()
      ensures entities == []
    {
      entities := [];
    }

    /** Adds an entity and completes the transaction; the id is one more than any handed out before. */
    method Add(e: Entity) returns (id: StoreId)
      modifies this
      ensures entities == old(entities) + [e] && id == |entities|
    {
      entities := entities + [e];
      id := |entities|;
    }

    /** Whether a transaction on entity `id` gets an object to fill in. */
    method Begin(id: StoreId, kind: Kind) returns (found: bool)
      ensures found <==> Has(entities, id, kind)
    {
      found := 1 <= id <= |entities| && entities[id - 1].Kind() == kind;
    }

    method Complete(id: StoreId, e: Event)
      requires 1 <= id <= |entities|
      modifies this
      ensures entities == Append(old(entities), id, e)
    {
      var entity := entities[id - 1];
      entities := entities[id - 1 := entity.(events := entity.events + [e])];
    }
  }

  class AppData {
    const ds: DataStore
    var startTime: real
    var endTime: real
    var lastTime: real
    var platformIds: seq<AsiId>

    constructor (ds: DataStore)
      ensures this.ds == ds && startTime == endTime == lastTime == 0.0 && platformIds == []
    {
      this.ds := ds;
      startTime, endTime, lastTime := 0.0, 0.0, 0.0;
      platformIds := [];
    }

    /** Widens the time window by one platform point; -1 marks a static platform and never starts the window. */
    method ExtendWindow(t: real)
      modifies `startTime, `endTime, `lastTime
      ensures Window(startTime, endTime, lastTime) == WithTime(old(Window(startTime, endTime, lastTime)), t)
    {
      if t != -1.0 && t < startTime {
        startTime := t;
        lastTime := t;
      }
      if t > endTime {
        endTime := t;
      }
    }
  }

  class SimpleAsiParser {
    const app: AppData
    const formats: TimeFormats
    var pendingBeams: map<AsiId, BeamData>
    var pendingGates: map<AsiId, GateData>
    var refYear: int
    var degreeAngles: bool
    var idMap: map<AsiId, StoreId>
    var dataCount: map<AsiId, nat>
    var faulted: bool

    ghost function Abs(): State
      reads this, app, app.ds
    {
      State(formats, app.ds.entities, idMap, pendingBeams, pendingGates, refYear, degreeAngles, dataCount,
            Window(app.startTime, app.endTime, app.lastTime), app.platformIds, faulted)
    }

    constructor (app: AppData, formats: TimeFormats, currentYear: int)
      ensures this.app == app && this.formats == formats
      ensures pendingBeams == map[] && pendingGates == map[] && idMap == map[] && dataCount == map[]
      ensures refYear == currentYear && !degreeAngles && !faulted
    {
      this.app, this.formats := app, formats;
      pendingBeams, pendingGates, idMap, dataCount := map[], map[], map[], map[];
      refYear, degreeAngles, faulted := currentYear, false, false;
    }

    method CreateBeam(id: AsiId)
      modifies this, app.ds
      ensures Abs() == CreateBeamIfNeeded(old(Abs()), id)
    {
      if id !in pendingBeams {
        return;
      }
      var b := pendingBeams[id];
      // widths are always degrees in the file and radians in the store
      var dsId := app.ds.Add(Beam(b.hostId, b.beamType, id, b.hw * DEG2RAD, b.vw * DEG2RAD, []));
      idMap := idMap[id := dsId];
      pendingBeams := pendingBeams - {id};
    }

    method CreateGate(id: AsiId)
      modifies this, app.ds
      ensures Abs() == CreateGateIfNeeded(old(Abs()), id)
    {
      if id !in pendingGates {
        return;
      }
      var g := pendingGates[id];
      var dsId := app.ds.Add(Gate(g.hostId, g.gateType, []));
      idMap := idMap[id := dsId];
      pendingGates := pendingGates - {id};
    }

    /** The tail shared by the lines that address an existing entity: translate the id, open, fill in, complete. */
    method Store(id: AsiId, kind: Kind, e: Option<Event>)
      modifies this, app.ds
      ensures Abs() == Record(old(Abs()), id, kind, e)
    {
      if id !in idMap {
        return;
      }
      var found := app.ds.Begin(idMap[id], kind);
      if !found {
        faulted := true;
      } else if e.Some? {
        app.ds.Complete(idMap[id], e.value);
      }
    }

    /** The lookup `idMap_[id]`, which leaves a zero behind for an unknown id. */
    method Touch(id: AsiId)
      modifies `idMap
      ensures idMap == if id in old(idMap) then old(idMap) else old(idMap)[id := 0]
    {
      if id !in idMap {
        idMap := idMap[id := 0];
      }
    }

    method HandlePlatformData(id: AsiId, a: PlatformAction)
      requires !faulted && a.PlatformData?
      modifies this, app, app.ds
      ensures Abs() == UsePlatform(old(Abs()), id, a)
    {
      Touch(id);
      var t := TimeFromString(formats, a.time, refYear);
      var e := PlatformPoint(t, DEG2RAD * a.lat, DEG2RAD * a.lon, a.alt, Scale(DEG2RAD, a.ypr), a.velocity);
      Store(id, PlatformKind, Some(e));
      if faulted {
        return;
      }
      app.ExtendWindow(t);
      dataCount := dataCount[id := ((if id in dataCount then dataCount[id] else 0) + 1) % UINT_RANGE];
    }

    method HandlePlatform(id: AsiId, a: PlatformAction)
      requires !faulted
      modifies this, app, app.ds
      ensures Abs() == UsePlatform(old(Abs()), id, a)
    {
      match a
      case PlatformIcon(icon) =>
        Touch(id);
        Store(id, PlatformKind, Some(IconPref(DeQuote(icon))));
      case PlatformName(name) =>
        Touch(id);
        Store(id, PlatformKind, Some(NamePref(DeQuote(name))));
      case PlatformData(_, _, _, _, _, _) =>
        HandlePlatformData(id, a);
    }

    method HandleBeam(id: AsiId, a: BeamAction)
      modifies this, app.ds
      ensures Abs() == UseBeam(old(Abs()), id, a)
    {
      CreateBeam(id);
      match a
      case BeamOnOffCmd(time, onOff) =>
        Store(id, BeamKind, Some(Draw(TimeFromString(formats, time, refYear), onOff == 1)));
      case BeamColorCmd(time, color) =>
        Store(id, BeamKind, Some(Color(TimeFromString(formats, time, refYear), color)));
      case BeamDataRAE(time, az, el, range) =>
        var az1, el1 := az, el;
        if degreeAngles {
          az1, el1 := az1 * DEG2RAD, el1 * DEG2RAD;
        }
        Store(id, BeamKind, Some(BeamRae(TimeFromString(formats, time, refYear), az1, el1, range)));
      case BeamTargetIDCmd(time, target) =>
        if target in idMap {
          Store(id, BeamKind, Some(BeamTarget(TimeFromString(formats, time, refYear), idMap[target])));
        } else {
          Store(id, BeamKind, None);
        }
    }

    method HandleGate(id: AsiId, a: GateAction)
      modifies this, app.ds
      ensures Abs() == UseGate(old(Abs()), id, a)
    {
      CreateGate(id);
      match a
      case GateOnOffCmd(time, onOff) =>
        Store(id, GateKind, Some(Draw(TimeFromString(formats, time, refYear), onOff == 1)));
      case GateColorCmd(time, color) =>
        Store(id, GateKind, Some(Color(TimeFromString(formats, time, refYear), color)));
      case GateDataRAE(time, az, el, w, h, start, end, center) =>
        var az1, el1, w1, h1 := az, el, w, h;
        if degreeAngles {
          az1, el1, w1, h1 := az1 * DEG2RAD, el1 * DEG2RAD, w1 * DEG2RAD, h1 * DEG2RAD;
        }
        var t := TimeFromString(formats, time, refYear);
        Store(id, GateKind, Some(GateRae(t, az1, el1, w1, h1, start, end, center)));
    }

    method HandleProjector(id: AsiId, a: ProjectorAction)
      modifies this, app.ds
      ensures Abs() == Record(old(Abs()), id, ProjectorKind, Some(ProjectorEvent(old(Abs()), a)))
    {
      match a
      case ProjectorRasterFile(file) =>
        Store(id, ProjectorKind, Some(RasterPref(DeQuote(file))));
      case ProjectorInterpolateFOV(value) =>
        Store(id, ProjectorKind, Some(InterpolateFovPref(value == 1)));
      case ProjectorOn(time, onOff) =>
        Store(id, ProjectorKind, Some(Draw(TimeFromString(formats, time, refYear), onOff == 1)));
      case ProjectorFOV(time, fov) =>
        Store(id, ProjectorKind, Some(Fov(TimeFromString(formats, time, refYear), DEG2RAD * fov)));
    }

    method SetBeamAttribute(id: AsiId, a: BeamAttr)
      modifies this
      ensures Abs() == SetBeamAttr(old(Abs()), id, a)
    {
      if id !in pendingBeams {
        pendingBeams := pendingBeams[id := NewBeamData(0, 0)];
      }
      var b := pendingBeams[id];
      match a {
        case BeamType(text) => b := b.(beamType := TypeFromString(DeQuote(text)));
        case VertBW(width) => b := b.(vw := width);
        case HorzBW(width) => b := b.(hw := width);
      }
      ghost var was: map<AsiId, BeamData> := old(pendingBeams);
      assert was[id := NewBeamData(0, 0)][id := b] == was[id := b];
      pendingBeams := pendingBeams[id := b];
    }

    method HandleBeamID(host: AsiId, id: AsiId)
      modifies `pendingBeams
      ensures Abs() == DeclareBeam(old(Abs()), host, id)
    {
      if host in idMap && id !in pendingBeams {
        pendingBeams := pendingBeams[id := NewBeamData(id, idMap[host])];
      }
    }

    method HandleGateID(host: AsiId, id: AsiId)
      modifies `pendingGates
      ensures Abs() == DeclareGate(old(Abs()), host, id)
    {
      if host in idMap && id !in pendingGates {
        pendingGates := pendingGates[id := NewGateData(id, idMap[host])];
      }
    }

    method HandleGateType(id: AsiId, text: string)
      modifies `pendingGates
      ensures Abs() == SetGateType(old(Abs()), id, text)
    {
      var g := if id in pendingGates then pendingGates[id] else NewGateData(0, 0);
      pendingGates := pendingGates[id := g.(gateType := TypeFromString(DeQuote(text)))];
    }

    method HandleProjectorID(host: AsiId, id: AsiId)
      modifies `idMap, app.ds
      ensures Abs() == AddProjector(old(Abs()), host, id)
    {
      if host in idMap {
        var dsId := app.ds.Add(Projector(host, []));
        idMap := idMap[id := dsId];
      }
    }

    method HandlePlatformID(id: AsiId)
      requires !faulted
      modifies `idMap, app`platformIds, app.ds
      ensures Abs() == Step(old(Abs()), PlatformID(id))
    {
      var dsId := app.ds.Add(Platform([]));
      idMap := idMap[id := dsId];
      app.platformIds := app.platformIds + [id];
    }

    /** Takes action for one line of the file. */
    method HandleAsiCommand(c: Command)
      requires !faulted
      modifies this, app, app.ds
      ensures Abs() == Step(old(Abs()), c)
    {
      match c
      case PlatformID(id) => HandlePlatformID(id);
      case PlatformUse(id, a) => HandlePlatform(id, a);
      case BeamID(host, id) => HandleBeamID(host, id);
      case BeamAttribute(id, a) => SetBeamAttribute(id, a);
      case BeamUse(id, a) => HandleBeam(id, a);
      case GateID(host, id) => HandleGateID(host, id);
      case GateType(id, text) => HandleGateType(id, text);
      case GateUse(id, a) => HandleGate(id, a);
      case ProjectorID(host, id) => HandleProjectorID(host, id);
      case ProjectorUse(id, a) => HandleProjector(id, a);
      case DegreeAngles(val) => degreeAngles := val == 1;
      case ReferenceYear(year) => refYear := year;
      case Unrecognized =>
    }

    /** Reads the whole file, stopping only where the program itself would. */
    method Parse(lines: seq<Command>)
      requires !faulted
      modifies this, app, app.ds
      ensures Abs() == Run(old(Abs()), lines)
    {
      ghost var s0 := Abs();
      var i := 0;
      while i < |lines| && !faulted
        invariant 0 <= i <= |lines|
        invariant Abs() == After(s0, lines, i)
      {
        AfterStep(s0, lines, i);
        HandleAsiCommand(lines[i]);
        i := i + 1;
      }
      if faulted {
        FaultStays(s0, lines, i);
      }
      AfterAll(s0, lines);
    }
  }

  /** Once a line has faulted the rest of the file changes nothing. */
  lemma {:induction false} FaultStays(s: State, cs: seq<Command>, k: nat)
    requires k <= |cs| && After(s, cs, k).faulted
    ensures Run(s, cs) == After(s, cs, k)
    decreases |cs| - k
  {
    if k == |cs| {
      AfterAll(s, cs);
    } else {
      AfterStep(s, cs, k);
      FaultStays(s, cs, k + 1);
    }
  }

  /** `readASI`: opens the time window, then parses the file into the application's store. */
  method ReadAsi(app: AppData, file: Option<seq<Command>>, formats: TimeFormats, currentYear: int)
    requires app.ds.entities == [] && app.platformIds == [] && app.lastTime == 0.0
    modifies app, app.ds
    ensures file.None? ==> unchanged(app) && unchanged(app.ds)
    ensures file.Some? ==>
              var s := Run(Initial(formats, currentYear), file.value);
              && app.ds.entities == s.store && app.platformIds == s.platformIds
              && Window(app.startTime, app.endTime, app.lastTime) == s.window
  {
    if file.None? {
      return;
    }
    app.startTime, app.endTime := DBL_MAX, -DBL_MAX;
    var p := new SimpleAsiParser(app, formats, currentYear);
    assert p.Abs() == Initial(formats, currentYear);
    p.Parse(file.value);
  }
}
