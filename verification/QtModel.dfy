/**
  The reader and its generator threads as interleaved steps.

  The steps are as fine as the shared accesses: `Reader::stop` disconnects and then sets the flag, and
  `DataGenerator::update_` tests the flag and then emits, so either thread can act in between.  The Qt rules used:
    - a signal whose receiver lives in another thread is posted to that thread's event queue, which is first-in
      first-out; a receiver in the emitting thread is called directly;
    - `disconnect` stops later emissions from being posted and leaves posted calls in the queue;
    - `deleteLater` posts to the queue of the object's thread, and a thread that leaves its event loop runs the
      deletions still posted to it;
    - the QThread object and the reader live in the GUI thread, the generator and its timer in the worker thread;
    - destroying a receiver discards the calls still posted to it.
 */
module QtModel {
  import opened Cycles
  import opened Options

  const PI: real := 3.141592654
  const LAT0: real := 22.0 * (PI / 180.0)
  const LON0: real := -159.0 * (PI / 180.0)
  const ALT0: real := 100.0
  const LAT_STEP: real := 0.00001

  datatype Point = Point(lat: real, lon: real, alt: real)

  /** The `k`-th point a generator produces. */
  function PointAt(k: nat): Point {
    Point(LAT0 + k as real * LAT_STEP, LON0, ALT0)
  }

  // ------------------------------------------------------------ data generator

  /** The fields of `DataGenerator`; `timer` says whether `timer_` is set. */
  datatype Fields = Fields(timer: bool, done: bool, lat: real, lon: real, alt: real)

  const NEW_FIELDS := Fields(false, false, 0.0, 0.0, 0.0)

  function StartFields(f: Fields): Fields {
    Fields(true, f.done, LAT0, LON0, ALT0)
  }

  function AdvanceFields(f: Fields): Fields {
    f.(lat := f.lat + LAT_STEP)
  }

  datatype ThreadPhase = NotStarted | Looping | Ended

  /** A generator with its thread, the connection to the reader, and what has happened to them so far. */
  datatype Gen = Gen(
    fields: Fields,
    connected: bool,
    thread: ThreadPhase,
    emitting: bool,            // between the test of `done_` and the emission of `newData`
    quit: bool,                // the thread's event loop has been told to exit
    deletePosted: bool,        // the generator's deletion is posted to its thread
    threadDeletePosted: bool,  // the QThread's deletion is posted to the GUI thread
    timerDeletions: nat,
    finishedSignals: nat,
    objectDeletions: nat,
    threadDeletions: nat,
    ticks: nat,                // emissions of newData
    posted: seq<Point>,        // those that reached the GUI queue
    delivered: seq<Point>)     // those the reader has handled

  const NEW_GEN := Gen(NEW_FIELDS, true, NotStarted, false, false, false, false, 0, 0, 0, 0, 0, [], [])

  function CurrentPoint(f: Fields): Point {
    Point(f.lat, f.lon, f.alt)
  }

  // ------------------------------------------------------------------- world

  /** Calls posted to the GUI thread. */
  datatype Message =
    | NewData(gen: nat, point: Point)  // Reader::addDataPoint_
    | Quit(gen: nat)                   // QThread::quit
    | DeleteThreadLater(gen: nat)      // QThread::deleteLater, called through a signal from the worker
    | DeferredDelete(gen: nat)         // the deletion of the QThread

  /** One platform update: its time, and where it came from. */
  datatype Sample = Sample(time: nat, gen: nat, point: Point)

  datatype GuiPhase = Ready | Stopping(destroying: bool)  // between the disconnect and the rest of `stop`

  datatype World = World(
    gens: seq<Gen>,
    queue: seq<Message>,
    current: Option<nat>,      // threadedDataGen_
    id: nat,                   // id_; platform `id` has its samples in tracks[id - 1]
    numberProcessed: nat,
    tracks: seq<seq<Sample>>,
    gui: GuiPhase,
    alive: bool,               // the reader has not been destroyed
    sinceStart: nat)           // deliveries since `numberProcessed_` was last reset

  const INITIAL := World([], [], None, 0, 0, [], Ready, true, 0)

  datatype WorkerStep = Started | Test | Emit | DeleteObject | EndLoop

  datatype Action =
    | GuiStart
    | StopBegin(destroying: bool)
    | StopEnd
    | Deliver
    | Worker(gen: nat, step: WorkerStep)
    | Stutter

  // ------------------------------------------------------------ worker thread

  predicate WorkerEnabled(gen: Gen, step: WorkerStep) {
    match step
    case Started => gen.thread.NotStarted?
    case Test => gen.thread.Looping? && gen.fields.timer && !gen.emitting
    case Emit => gen.thread.Looping? && gen.emitting
    case DeleteObject => gen.thread.Looping? && gen.deletePosted && !gen.emitting
    case EndLoop => gen.thread.Looping? && gen.quit && !gen.emitting
  }

  function WorkerGen(gen: Gen, step: WorkerStep): Gen {
    match step
    case Started => gen.(fields := StartFields(gen.fields), thread := Looping)
    case Test =>
      if gen.fields.done
      then gen.(fields := gen.fields.(timer := false), timerDeletions := gen.timerDeletions + 1,
                finishedSignals := gen.finishedSignals + 1, deletePosted := true)
      else gen.(emitting := true)
    case Emit =>
      gen.(emitting := false, fields := AdvanceFields(gen.fields), ticks := gen.ticks + 1,
           posted := if gen.connected then gen.posted + [CurrentPoint(gen.fields)] else gen.posted)
    case DeleteObject => gen.(deletePosted := false, objectDeletions := gen.objectDeletions + 1)
    case EndLoop =>
      gen.(thread := Ended, deletePosted := false,
           objectDeletions := gen.objectDeletions + if gen.deletePosted then 1 else 0)
  }

  /** What the step posts to the GUI thread. */
  function WorkerPosts(g: nat, gen: Gen, step: WorkerStep): seq<Message> {
    match step
    case Test => if gen.fields.done then [Quit(g)] else []
    case Emit => if gen.connected then [NewData(g, CurrentPoint(gen.fields))] else []
    case EndLoop => [DeleteThreadLater(g)]
    case _ => []
  }

  // --------------------------------------------------------------- GUI thread

  /** `addDataPoint_`: adds the platform on the first point, then the point at the running count as its time. */
  function AddDataPoint(w: World, g: nat, pt: Point): (v: World)
    ensures v == w.(id := v.id, tracks := v.tracks, numberProcessed := v.numberProcessed, sinceStart := v.sinceStart)
    ensures w.id <= |w.tracks| ==> 1 <= v.id <= |v.tracks|
  {
    var id := if w.id == 0 then |w.tracks| + 1 else w.id;
    var tracks := if w.id == 0 then w.tracks + [[]] else w.tracks;
    w.(id := id,
       tracks := if id > |tracks| then tracks
                 else tracks[id - 1 := tracks[id - 1] + [Sample(w.numberProcessed, g, pt)]],
       numberProcessed := (w.numberProcessed + 1) % UINT_RANGE,
       sinceStart := w.sinceStart + 1)
  }

  function Handle(w: World, m: Message): World
    requires m.gen < |w.gens|
  {
    var gen := w.gens[m.gen];
    match m
    case NewData(g, pt) => AddDataPoint(w, g, pt).(gens := w.gens[g := gen.(delivered := gen.delivered + [pt])])
    case Quit(g) => w.(gens := w.gens[g := gen.(quit := true)])
    case DeleteThreadLater(g) =>
      w.(gens := w.gens[g := gen.(threadDeletePosted := true)], queue := w.queue + [DeferredDelete(g)])
    case DeferredDelete(g) => w.(gens := w.gens[g := gen.(threadDeletions := gen.threadDeletions + 1)])
  }

  function WithoutData(q: seq<Message>): seq<Message> {
    if q == [] then [] else (if q[0].NewData? then [] else [q[0]]) + WithoutData(q[1..])
  }

  function BeginStop(w: World, destroying: bool): World
    requires w.current.Some? ==> w.current.value < |w.gens|
  {
    var gens := if w.current.None? then w.gens
                else w.gens[w.current.value := w.gens[w.current.value].(connected := false)];
    w.(gens := gens, gui := Stopping(destroying))
  }

  function EndStop(w: World): World
    requires w.current.Some? ==> w.current.value < |w.gens|
    requires w.gui.Stopping?
  {
    var gens := if w.current.None? then w.gens
                else var gen := w.gens[w.current.value];
                     w.gens[w.current.value := gen.(fields := gen.fields.(done := true))];
    w.(gens := gens, current := None, id := 0, gui := Ready,
       alive := w.alive && !w.gui.destroying,
       queue := if w.gui.destroying then WithoutData(w.queue) else w.queue)
  }

  predicate Enabled(w: World, a: Action) {
    match a
    case GuiStart => w.gui.Ready? && w.alive
    case StopBegin(_) => w.gui.Ready? && w.alive && (w.current.Some? ==> w.current.value < |w.gens|)
    case StopEnd => w.gui.Stopping? && (w.current.Some? ==> w.current.value < |w.gens|)
    case Deliver => w.gui.Ready? && w.queue != [] && w.queue[0].gen < |w.gens|
    case Worker(g, step) => g < |w.gens| && WorkerEnabled(w.gens[g], step)
    case Stutter => true
  }

  function Apply(w: World, a: Action): World
    requires Enabled(w, a)
  {
    match a
    case GuiStart =>
      if w.current.Some? then w
      else w.(gens := w.gens + [NEW_GEN], current := Some(|w.gens|), numberProcessed := 0, sinceStart := 0)
    case StopBegin(destroying) => BeginStop(w, destroying)
    case StopEnd => EndStop(w)
    case Deliver => Handle(w.(queue := w.queue[1..]), w.queue[0])
    case Worker(g, step) =>
      w.(gens := w.gens[g := WorkerGen(w.gens[g], step)], queue := w.queue + WorkerPosts(g, w.gens[g], step))
    case Stutter => w
  }

  /** The world after the given actions, if each could be taken in turn. */
  function Exec(w: World, acts: seq<Action>): Option<World> {
    if acts == [] then Some(w)
    else
      var v := Exec(w, acts[..|acts| - 1]);
      if v.Some? && Enabled(v.value, acts[|acts| - 1]) then Some(Apply(v.value, acts[|acts| - 1])) else None
  }
}
