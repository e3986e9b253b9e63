/**
  The SimpleServer data engine on values: what one call of `generateData_` makes of the engine, and what the frame
  timer makes of a frame.  Clock readings are arbitrary; the timer and the engine each take their own.
 */
module DataEngineModel {
  import opened Options

  const IDLE_TIMEOUT: real := 0.05
  const NEW_PLATFORM_TIMEOUT: real := 1.0
  const NUM_ROTATING_PLATFORMS: nat := 10

  /** The data store: the entity with id `i` is at index `i - 1`. */
  datatype Entity = PlatformEntity | BeamEntity(host: nat) | GateEntity(host: nat)

  // --------------------------------------------------------------- generators

  datatype Kind =
    | CirclingPlatform(id: nat, offset: nat)
    | CyclingAnimatedLine(anchor: nat)
    | ToggleIcon(id: nat)
    | CyclingTargetBeam(id: nat)
    | RotatingBeam(id: nat)
    | ToggleDrawState(id: nat)
    | CycleColor(id: nat, start: nat)
    | RotatingGate(id: nat)
    | MissileLaunchPlatform(id: nat)

  /** `cursor` is the current target, the colour index or the shown state, whichever the kind has. */
  datatype Generator = Generator(
    kind: Kind,
    interval: real,
    targets: seq<nat>,
    cursor: nat,
    lastTime: real,
    fired: seq<real>)  // the times at which generate_ ran

  function NewGenerator(kind: Kind, interval: real, targets: seq<nat>): Generator {
    Generator(kind, interval, targets, if kind.CycleColor? then kind.start else 0, 0.0, [])
  }

  function NextTarget(g: Generator): nat {
    if g.targets == [] then g.cursor
    else if g.cursor + 1 >= |g.targets| then 0 else g.cursor + 1
  }

  function NextCursor(g: Generator): nat {
    match g.kind
    case CyclingTargetBeam(id) => if id == 0 then g.cursor else NextTarget(g)
    case CyclingAnimatedLine(anchor) => if anchor == 0 then g.cursor else NextTarget(g)
    case ToggleIcon(_) => 1 - g.cursor % 2
    case ToggleDrawState(_) => 1 - g.cursor % 2
    case CycleColor(_, _) => g.cursor + 1
    case CirclingPlatform(_, _) => g.cursor
    case RotatingBeam(_) => g.cursor
    case RotatingGate(_) => g.cursor
    case MissileLaunchPlatform(_) => g.cursor
  }

  /** `idle`: generates if the interval has passed since the last time. */
  function Idled(g: Generator, now: real): (r: Generator)
    ensures r.kind == g.kind && r.interval == g.interval && r.targets == g.targets
  {
    if now >= g.lastTime + g.interval
    then g.(cursor := NextCursor(g), lastTime := now, fired := g.fired + [now])
    else g
  }

  // ------------------------------------------------------------------- engine

  datatype IdleCall = IdleCall(gen: nat, now: real)

  datatype Engine = Engine(
    store: seq<Entity>,
    platforms: seq<nat>,
    lastCreateTime: real,
    targetBeam: Option<nat>,   // where in `generators` the target beam is
    generators: seq<Generator>,
    log: seq<IdleCall>)        // every call of idle

  function NewEngine(store: seq<Entity>): Engine {
    Engine(store, [], 0.0, None, [], [])
  }

  /** What comes before the beam: the platform and, for some, the animated line or the icon. */
  function Lead(ps: seq<nat>): seq<Generator>
    requires ps != []
  {
    var k := |ps| - 1;
    [NewGenerator(CirclingPlatform(ps[k], k), 0.0, [])]
    + (if k == 4 then [NewGenerator(CyclingAnimatedLine(ps[3]), 2.0, [ps[2], ps[4]])] else [])
    + (if k == 1 then [NewGenerator(ToggleIcon(ps[1]), 3.0, [])] else [])
  }

  function BeamGenerator(ps: seq<nat>): Generator
    requires ps != []
  {
    var id := ps[|ps| - 1] + 1;
    if |ps| == 4 then NewGenerator(CyclingTargetBeam(id), 4.0, ps[..3]) else NewGenerator(RotatingBeam(id), 0.0, [])
  }

  /** What comes after the beam `id`: its animations, its gate, the gate's animations, and once the missile. */
  function Trail(n: nat, id: nat): seq<Generator> {
    [NewGenerator(ToggleDrawState(id), 5.0, []), NewGenerator(CycleColor(id, n * 13), 2.0, []),
     NewGenerator(RotatingGate(id + 1), 0.0, []), NewGenerator(ToggleDrawState(id + 1), 5.0, []),
     NewGenerator(CycleColor(id + 1, n * 13 + 5), 2.0, [])]
    + (if n == 2 then [NewGenerator(MissileLaunchPlatform(id + 2), 0.0, [])] else [])
  }

  /** The generators registered together with the last of the platforms; its beam and gate have the next two ids. */
  function Block(ps: seq<nat>): seq<Generator>
    requires ps != []
  {
    Lead(ps) + [BeamGenerator(ps)] + Trail(|ps|, ps[|ps| - 1] + 1)
  }

  function NewEntities(n: nat, id: nat): seq<Entity> {
    [PlatformEntity, BeamEntity(id), GateEntity(id + 1)] + (if n == 2 then [PlatformEntity] else [])
  }

  function WithTarget(gens: seq<Generator>, at: Option<nat>, id: nat): (r: seq<Generator>)
    ensures |r| == |gens|
    ensures forall i :: 0 <= i < |gens| ==> r[i].kind == gens[i].kind && r[i].(targets := gens[i].targets) == gens[i]
  {
    if at.Some? && at.value < |gens|
    then gens[at.value := gens[at.value].(targets := gens[at.value].targets + [id])]
    else gens
  }

  /** One more platform, with its beam and gate and everything that depends on their number. */
  function Create(e: Engine, now: real): Engine {
    var id := |e.store| + 1;
    var ps := e.platforms + [id];
    e.(store := e.store + NewEntities(|ps|, id),
       platforms := ps,
       lastCreateTime := now,
       targetBeam := if |ps| == 4 then Some(|e.generators| + 1) else e.targetBeam,
       generators := WithTarget(e.generators, e.targetBeam, id) + Block(ps))
  }

  predicate CreatesAt(e: Engine, now: real) {
    |e.platforms| < NUM_ROTATING_PLATFORMS && now > e.lastCreateTime + NEW_PLATFORM_TIMEOUT
  }

  function AllIdled(gens: seq<Generator>, now: real): (r: seq<Generator>)
    ensures |r| == |gens| && forall i :: 0 <= i < |gens| ==> r[i] == Idled(gens[i], now)
  {
    seq(|gens|, i requires 0 <= i < |gens| => Idled(gens[i], now))
  }

  /** One idle call for each generator, in the order of registration. */
  function Round(n: nat, now: real): (r: seq<IdleCall>)
    ensures |r| == n
  {
    if n == 0 then [] else Round(n - 1, now) + [IdleCall(n - 1, now)]
  }

  function GenerateData(e: Engine, now: real): Engine {
    var c := if CreatesAt(e, now) then Create(e, now) else e;
    c.(generators := AllIdled(c.generators, now), log := c.log + Round(|c.generators|, now))
  }

  // -------------------------------------------------------------------- timer

  /** `at` is the timer's clock reading, `now` the one the engine takes later in the same call. */
  datatype Event = Frame(at: real, now: real) | OtherEvent

  datatype Call = Call(at: real, now: real, created: bool, size: nat)

  datatype Server = Server(lastIdle: real, engine: Engine, calls: seq<Call>)

  function NewServer(store: seq<Entity>): Server {
    Server(0.0, NewEngine(store), [])
  }

  function Handle(s: Server, ev: Event): Server {
    if ev.Frame? && ev.at > s.lastIdle + IDLE_TIMEOUT then
      var e := GenerateData(s.engine, ev.now);
      Server(ev.at, e, s.calls + [Call(ev.at, ev.now, CreatesAt(s.engine, ev.now), |e.generators|)])
    else s
  }

  function Serve(s: Server, evs: seq<Event>): Server {
    if evs == [] then s else Handle(Serve(s, evs[..|evs| - 1]), evs[|evs| - 1])
  }
}
