/**
  The two C++ classes of the example.  Their methods are proved to be the moves of the state machine in `QtModel`:
  `DataGenerator.Update` is its test and, when not done, its emission, with nothing in between; the reader's slots
  are its start, stop and delivery.
 */
module QtObjects {
  import opened Cycles
  import opened Options
  import opened QtModel

  datatype Signal = Finished | NewPoint(point: Point)

  class DataGenerator {
    var timer: bool
    var done: bool
    var lat: real
    var lon: real
    var alt: real

    function Abs(): Fields
      reads this
    {
      Fields(timer, done, lat, lon, alt)
    }

    constructor ()
      ensures Abs() == NEW_FIELDS
    {
      timer, done := false, false;
      lat, lon, alt := 0.0, 0.0, 0.0;
    }

    method Start()
      modifies this
      ensures Abs() == StartFields(old(Abs()))
      ensures CurrentPoint(Abs()) == PointAt(0)
    {
      lat := 22.0 * (PI / 180.0);
      lon := -159.0 * (PI / 180.0);
      alt := 100.0;
      timer := true;
    }

    /** The timer's slot: the last call deletes the timer and signals the end, every other one sends a point. */
    method Update() returns (signal: Signal)
      requires timer
      modifies this
      ensures signal == if old(done) then Finished else NewPoint(CurrentPoint(old(Abs())))
      ensures Abs() == if old(done) then old(Abs()).(timer := false) else AdvanceFields(old(Abs()))
    {
      if done {
        timer := false;
        return Finished;
      }
      signal := NewPoint(Point(lat, lon, alt));
      lat := lat + 0.00001;
    }

    method Stop()
      modifies this
      ensures Abs() == old(Abs()).(done := true)
    {
      done := true;
    }
  }

  /** The slot's effect on the fields is that of the worker's test step and, when not done, its emission step. */
  lemma UpdateIsTestThenEmit(gen: Gen)
    requires gen.fields.timer && !gen.emitting && gen.thread.Looping?
    ensures WorkerEnabled(gen, Test)
    ensures gen.fields.done ==>
              WorkerGen(gen, Test).fields == gen.fields.(timer := false) && WorkerPosts(0, gen, Test) == [Quit(0)]
    ensures !gen.fields.done ==>
              var mid := WorkerGen(gen, Test);
              && WorkerPosts(0, gen, Test) == [] && WorkerEnabled(mid, Emit)
              && WorkerGen(mid, Emit).fields == AdvanceFields(gen.fields)
              && (gen.connected ==> WorkerPosts(0, mid, Emit) == [NewData(0, CurrentPoint(gen.fields))])
  {
  }

  /** The connections made for a generator. */
  datatype Connection =
    | NewDataToReader         // newData -> Reader::addDataPoint_
    | StartedToStart          // QThread::started -> DataGenerator::start
    | FinishedToQuit          // finished -> QThread::quit
    | FinishedToDeletion      // finished -> deleteLater of the generator
    | ThreadToDeletion        // QThread::finished -> deleteLater of the thread

  const SHUTDOWN: set<Connection> := {StartedToStart, FinishedToQuit, FinishedToDeletion, ThreadToDeletion}

  class Thread {
    var started: bool

    constructor ()
      ensures !started
    {
      started := false;
    }

    method Start()
      modifies this
      ensures started
    {
      started := true;
    }
  }

  class Reader {
    var threadedDataGen: DataGenerator?
    var id: nat
    var numberProcessed: nat
    var tracks: seq<seq<Sample>>                 // the data store's platforms
    ghost var created: seq<DataGenerator>        // every generator so far, with its thread and connections
    ghost var threads: seq<Thread>
    ghost var connections: seq<set<Connection>>

    ghost predicate Valid()
      reads this
    {
      && id <= |tracks|
      && |created| == |threads| == |connections|
      && (forall g, h :: 0 <= g < h < |created| ==> created[g] != created[h])
      && (threadedDataGen != null ==> created != [] && created[|created| - 1] == threadedDataGen)
    }

    /** The reader and its generators are what the world says they are. */
    ghost predicate Represents(w: World)
      requires Valid()
      reads this, created, threads
    {
      && w.alive && w.gui.Ready? && |w.gens| == |created|
      && w.current == (if threadedDataGen == null then None else Some(|created| - 1))
      && w.id == id && w.numberProcessed == numberProcessed && w.tracks == tracks
      && (forall g :: 0 <= g < |created| ==> created[g].Abs() == w.gens[g].fields && threads[g].started)
      && (forall g :: 0 <= g < |created| ==>
            connections[g] == SHUTDOWN + if w.gens[g].connected then {NewDataToReader} else {})
    }

    constructor ()
      ensures Valid() && Represents(INITIAL)
    {
      threadedDataGen, id, numberProcessed := null, 0, 0;
      tracks, created, threads, connections := [], [], [], [];
    }

    /** The move `GuiStart`. */
    method Start(ghost w: World)
      requires Valid() && Represents(w)
      modifies this
      ensures Valid() && Represents(Apply(w, GuiStart))
      ensures if old(threadedDataGen) != null then created == old(created)
              else threadedDataGen != null && fresh(threadedDataGen) && created == old(created) + [threadedDataGen]
    {
      if threadedDataGen != null {
        return;
      }
      numberProcessed := 0;
      var thread := new Thread();
      var generator := new DataGenerator();
      threadedDataGen := generator;
      created, threads := created + [generator], threads + [thread];
      connections := connections +
        [{NewDataToReader, StartedToStart, FinishedToQuit, FinishedToDeletion, ThreadToDeletion}];
      thread.Start();
    }

    /** The moves `StopBegin` and `StopEnd`, with nothing in between; `destroying` when the destructor calls it. */
    method Stop(ghost w: World, ghost destroying: bool)
      requires Valid() && Represents(w)
      modifies this, threadedDataGen
      ensures Valid() && created == old(created)
      ensures var v := Apply(Apply(w, StopBegin(destroying)), StopEnd);
              && v.alive == !destroying && v.queue == (if destroying then WithoutData(w.queue) else w.queue)
              && Represents(v.(alive := true))
    {
      if threadedDataGen != null {
        ghost var g := |created| - 1;
        connections := connections[g := connections[g] - {NewDataToReader}];
        threadedDataGen.Stop();
      }
      threadedDataGen := null;
      id := 0;
    }

    /** The move `Deliver` for a posted `newData`; `gen` numbers the sender. */
    method AddDataPoint(ghost w: World, gen: nat, point: Point)
      requires Valid() && Represents(w) && Enabled(w, Deliver) && w.queue[0] == NewData(gen, point)
      modifies `id, `numberProcessed, `tracks
      ensures Valid() && Represents(Apply(w, Deliver))
    {
      if id == 0 {
        tracks := tracks + [[]];
        id := |tracks|;
      }
      if id != 0 {
        tracks := tracks[id - 1 := tracks[id - 1] + [Sample(numberProcessed, gen, point)]];
      }
      numberProcessed := (numberProcessed + 1) % UINT_RANGE;
    }
  }
}
