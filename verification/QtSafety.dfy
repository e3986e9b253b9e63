/** What holds in every interleaving: who owns which generator, and that nothing is used after its deletion. */
module QtSafety {
  import opened Cycles
  import opened Options
  import opened QtModel

  // ------------------------------------------------------ one generator's life

  ghost predicate Produces(ps: seq<Point>) {
    forall k :: 0 <= k < |ps| ==> ps[k] == PointAt(k)
  }

  ghost predicate DataOk(gen: Gen) {
    && |gen.posted| <= gen.ticks && Produces(gen.posted)
    && (gen.connected ==> |gen.posted| == gen.ticks)
    && (gen.thread.NotStarted? ==> gen.ticks == 0 && !gen.emitting)
    && (!gen.thread.NotStarted? ==> CurrentPoint(gen.fields) == PointAt(gen.ticks))
  }

  ghost predicate LifeOk(gen: Gen) {
    && gen.timerDeletions == gen.finishedSignals <= 1
    && gen.objectDeletions + (if gen.deletePosted then 1 else 0) == gen.finishedSignals
    && (gen.finishedSignals == 1 ==> gen.fields.done && !gen.emitting && !gen.fields.timer)
    && (gen.quit ==> gen.finishedSignals == 1)
    && match gen.thread
       case NotStarted => gen.finishedSignals == 0 && !gen.threadDeletePosted && gen.threadDeletions == 0
       case Looping => (gen.finishedSignals == 0 ==> gen.fields.timer) && !gen.threadDeletePosted &&
                       gen.threadDeletions == 0
       case Ended => gen.quit && gen.objectDeletions == 1 && gen.threadDeletions <= 1 &&
                     (gen.threadDeletions == 1 ==> gen.threadDeletePosted)
  }

  /** The calls about the generator's thread that are due in the GUI queue. */
  function Due(g: nat, gen: Gen): seq<Message> {
    match gen.thread
    case NotStarted => []
    case Looping => if gen.finishedSignals == 1 && !gen.quit then [Quit(g)] else []
    case Ended =>
      if gen.threadDeletions == 1 then []
      else if gen.threadDeletePosted then [DeferredDelete(g)]
      else [DeleteThreadLater(g)]
  }

  // ---------------------------------------------------------------- the queue

  function ControlOf(m: Message, g: nat): seq<Message> {
    if m.gen == g && !m.NewData? then [m] else []
  }

  /** The calls in the queue about generator `g`'s thread. */
  function Control(q: seq<Message>, g: nat): seq<Message> {
    if q == [] then [] else ControlOf(q[0], g) + Control(q[1..], g)
  }

  function DataOf(m: Message, g: nat): seq<Point> {
    if m.gen == g && m.NewData? then [m.point] else []
  }

  /** The points of generator `g` still in the queue. */
  function Data(q: seq<Message>, g: nat): seq<Point> {
    if q == [] then [] else DataOf(q[0], g) + Data(q[1..], g)
  }

  lemma {:induction false} ControlAppend(q: seq<Message>, m: Message, g: nat)
    ensures Control(q + [m], g) == Control(q, g) + ControlOf(m, g)
  {
    if q != [] {
      ControlAppend(q[1..], m, g);
      assert (q + [m])[1..] == q[1..] + [m];
    }
  }

  lemma {:induction false} DataAppend(q: seq<Message>, m: Message, g: nat)
    ensures Data(q + [m], g) == Data(q, g) + DataOf(m, g)
  {
    if q != [] {
      DataAppend(q[1..], m, g);
      assert (q + [m])[1..] == q[1..] + [m];
    }
  }

  lemma {:induction false} WithoutDataKeeps(q: seq<Message>, g: nat, n: nat)
    requires forall i :: 0 <= i < |q| ==> q[i].gen < n
    ensures Control(WithoutData(q), g) == Control(q, g) && Data(WithoutData(q), g) == []
    ensures forall i :: 0 <= i < |WithoutData(q)| ==> WithoutData(q)[i].gen < n
  {
    if q != [] {
      var rest := WithoutData(q[1..]);
      WithoutDataKeeps(q[1..], g, n);
      if q[0].NewData? {
        assert WithoutData(q) == rest;
      } else {
        assert WithoutData(q) == [q[0]] + rest && WithoutData(q)[1..] == rest;
      }
    }
  }

  // ------------------------------------------------------------ the invariant

  ghost predicate GenOk(w: World, g: nat)
    requires g < |w.gens|
  {
    var gen := w.gens[g];
    && DataOk(gen) && LifeOk(gen)
    && Control(w.queue, g) == Due(g, gen)
    && (if w.alive then gen.posted == gen.delivered + Data(w.queue, g)
        else gen.delivered <= gen.posted && Data(w.queue, g) == [])
  }

  ghost predicate Owned(w: World) {
    && (w.current.Some? ==> w.current.value < |w.gens|)
    && (!w.alive ==> w.current.None? && w.gui.Ready?)
    && (forall g :: 0 <= g < |w.gens| ==>
          && (!w.gens[g].fields.done <==> w.current == Some(g))
          && (w.gens[g].connected <==> w.current == Some(g) && w.gui.Ready?))
  }

  ghost predicate Counted(w: World) {
    w.numberProcessed == w.sinceStart % UINT_RANGE && w.id <= |w.tracks|
  }

  ghost predicate Inv(w: World) {
    && Owned(w) && Counted(w)
    && (forall i :: 0 <= i < |w.queue| ==> w.queue[i].gen < |w.gens|)
    && (forall g :: 0 <= g < |w.gens| ==> GenOk(w, g))
  }

  // ---------------------------------------------------- each step preserves it

  /** Generator `g` becomes `gen` and the GUI queue becomes `q`; the others are as before. */
  lemma OthersOk(w: World, v: World, g: nat)
    requires Inv(w) && g < |w.gens| == |v.gens| && v.alive == w.alive && GenOk(v, g)
    requires forall h :: 0 <= h < |w.gens| && h != g ==>
               && v.gens[h] == w.gens[h]
               && Control(v.queue, h) == Control(w.queue, h) && Data(v.queue, h) == Data(w.queue, h)
    ensures forall h :: 0 <= h < |v.gens| ==> GenOk(v, h)
  {
    forall h | 0 <= h < |v.gens| ensures GenOk(v, h) {
      if h != g {
        assert GenOk(w, h);
      }
    }
  }

  lemma WorkerGenOk(gen: Gen, step: WorkerStep)
    requires DataOk(gen) && LifeOk(gen) && WorkerEnabled(gen, step)
    ensures DataOk(WorkerGen(gen, step)) && LifeOk(WorkerGen(gen, step))
    ensures WorkerGen(gen, step).fields.done == gen.fields.done && WorkerGen(gen, step).connected == gen.connected
    ensures WorkerGen(gen, step).delivered == gen.delivered
  {
    match step
    case Started =>
    case Test =>
    case Emit =>
      assert CurrentPoint(AdvanceFields(gen.fields)) == PointAt(gen.ticks + 1);
    case DeleteObject =>
    case EndLoop =>
  }

  lemma WorkerPostsDue(g: nat, gen: Gen, step: WorkerStep)
    requires LifeOk(gen) && WorkerEnabled(gen, step)
    ensures |WorkerPosts(g, gen, step)| <= 1
    ensures WorkerPosts(g, gen, step) == [] ==>
              Due(g, WorkerGen(gen, step)) == Due(g, gen) && WorkerGen(gen, step).posted == gen.posted
    ensures WorkerPosts(g, gen, step) != [] ==>
              var m := WorkerPosts(g, gen, step)[0];
              && m.gen == g && Due(g, WorkerGen(gen, step)) == Due(g, gen) + ControlOf(m, g)
              && WorkerGen(gen, step).posted == gen.posted + DataOf(m, g)
  {
    match step
    case Started =>
    case Test =>
    case Emit =>
    case DeleteObject =>
    case EndLoop =>
  }

  lemma QueueAfterPost(q: seq<Message>, g: nat, posts: seq<Message>, h: nat)
    requires |posts| <= 1 && (posts != [] ==> posts[0].gen == g)
    ensures posts == [] ==> Control(q + posts, h) == Control(q, h) && Data(q + posts, h) == Data(q, h)
    ensures posts != [] ==> Control(q + posts, h) == Control(q, h) + ControlOf(posts[0], h) &&
                            Data(q + posts, h) == Data(q, h) + DataOf(posts[0], h)
    ensures h != g ==> Control(q + posts, h) == Control(q, h) && Data(q + posts, h) == Data(q, h)
  {
    if posts == [] {
      assert q + posts == q;
    } else {
      assert posts == [posts[0]];
      ControlAppend(q, posts[0], h);
      DataAppend(q, posts[0], h);
    }
  }

  lemma WorkerKeepsControl(q: seq<Message>, g: nat, gen: Gen, step: WorkerStep)
    requires LifeOk(gen) && WorkerEnabled(gen, step) && Control(q, g) == Due(g, gen)
    ensures Control(q + WorkerPosts(g, gen, step), g) == Due(g, WorkerGen(gen, step))
  {
    WorkerPostsDue(g, gen, step);
    QueueAfterPost(q, g, WorkerPosts(g, gen, step), g);
  }

  lemma WorkerKeepsData(q: seq<Message>, g: nat, gen: Gen, step: WorkerStep)
    requires LifeOk(gen) && WorkerEnabled(gen, step)
    ensures var v := WorkerGen(gen, step);
            var q' := q + WorkerPosts(g, gen, step);
            && (gen.posted == gen.delivered + Data(q, g) ==> v.posted == gen.delivered + Data(q', g))
            && (!gen.connected ==> v.posted == gen.posted && Data(q', g) == Data(q, g))
  {
    var posts := WorkerPosts(g, gen, step);
    WorkerPostsDue(g, gen, step);
    QueueAfterPost(q, g, posts, g);
    if !gen.connected && posts != [] {
      WorkerAfterDisconnect(gen, step);
      assert DataOf(posts[0], g) == [];
    }
  }

  lemma WorkerKeepsGenOk(w: World, g: nat, step: WorkerStep)
    requires g < |w.gens| && GenOk(w, g) && WorkerEnabled(w.gens[g], step) && (!w.alive ==> !w.gens[g].connected)
    ensures GenOk(Apply(w, Worker(g, step)), g)
  {
    var gen := w.gens[g];
    WorkerGenOk(gen, step);
    WorkerKeepsControl(w.queue, g, gen, step);
    WorkerKeepsData(w.queue, g, gen, step);
  }

  lemma WorkerKeepsOwned(w: World, g: nat, step: WorkerStep)
    requires Inv(w) && Enabled(w, Worker(g, step))
    ensures Owned(Apply(w, Worker(g, step))) && Counted(Apply(w, Worker(g, step)))
  {
    assert GenOk(w, g);
    WorkerGenOk(w.gens[g], step);
  }

  lemma WorkerKeepsQueue(w: World, g: nat, step: WorkerStep)
    requires Inv(w) && Enabled(w, Worker(g, step))
    ensures var q := Apply(w, Worker(g, step)).queue;
            && (forall i :: 0 <= i < |q| ==> q[i].gen < |w.gens|)
            && (forall h: nat :: h != g ==> Control(q, h) == Control(w.queue, h) && Data(q, h) == Data(w.queue, h))
  {
    var posts := WorkerPosts(g, w.gens[g], step);
    assert GenOk(w, g);
    WorkerPostsDue(g, w.gens[g], step);
    forall h: nat | h != g
      ensures Control(w.queue + posts, h) == Control(w.queue, h) && Data(w.queue + posts, h) == Data(w.queue, h)
    {
      QueueAfterPost(w.queue, g, posts, h);
    }
  }

  lemma WorkerKeepsInv(w: World, g: nat, step: WorkerStep)
    requires Inv(w) && Enabled(w, Worker(g, step))
    ensures Inv(Apply(w, Worker(g, step)))
  {
    assert GenOk(w, g);
    WorkerKeepsGenOk(w, g, step);
    WorkerKeepsQueue(w, g, step);
    OthersOk(w, Apply(w, Worker(g, step)), g);
    WorkerKeepsOwned(w, g, step);
  }

  /** Taking the head off the queue changes nothing for the other generators. */
  lemma HeadOfOthers(q: seq<Message>)
    requires q != []
    ensures forall h: nat :: h != q[0].gen ==> Control(q[1..], h) == Control(q, h) && Data(q[1..], h) == Data(q, h)
  {
    forall h: nat | h != q[0].gen ensures Control(q[1..], h) == Control(q, h) && Data(q[1..], h) == Data(q, h) {
      assert ControlOf(q[0], h) == [] && DataOf(q[0], h) == [];
    }
  }

  /** The head for its own generator: the oldest point, or the only control call there. */
  lemma HeadOfOwn(q: seq<Message>)
    requires q != []
    ensures var m, g := q[0], q[0].gen;
            && (m.NewData? ==> Control(q[1..], g) == Control(q, g) && Data(q, g) == [m.point] + Data(q[1..], g))
            && (!m.NewData? ==> Control(q, g) == [m] + Control(q[1..], g) && Data(q, g) == Data(q[1..], g))
  {
    var m := q[0];
    assert Control(q, m.gen) == ControlOf(m, m.gen) + Control(q[1..], m.gen);
    assert Data(q, m.gen) == DataOf(m, m.gen) + Data(q[1..], m.gen);
  }

  lemma AtMostOneDue(g: nat, gen: Gen)
    ensures |Due(g, gen)| <= 1
  {
  }

  lemma HeadDataIsDue(w: World)
    requires Inv(w) && w.queue != [] && w.queue[0].NewData?
    ensures var g := w.queue[0].gen;
            && w.alive && Control(w.queue[1..], g) == Due(g, w.gens[g])
            && w.gens[g].posted == w.gens[g].delivered + [w.queue[0].point] + Data(w.queue[1..], g)
  {
    HeadOfOwn(w.queue);
    assert GenOk(w, w.queue[0].gen);
  }

  lemma HeadControlIsDue(w: World)
    requires Inv(w) && w.queue != [] && !w.queue[0].NewData?
    ensures var g := w.queue[0].gen;
            && Due(g, w.gens[g]) == [w.queue[0]] && Control(w.queue[1..], g) == []
            && Data(w.queue[1..], g) == Data(w.queue, g)
  {
    var m := w.queue[0];
    HeadOfOwn(w.queue);
    assert GenOk(w, m.gen);
    AtMostOneDue(m.gen, w.gens[m.gen]);
    assert |[m] + Control(w.queue[1..], m.gen)| <= 1;
  }

  /** The queue's head for its generator and for the others. */
  lemma HeadIsDue(w: World)
    requires Inv(w) && w.queue != []
    ensures var g := w.queue[0].gen;
            var gen := w.gens[g];
            && (w.queue[0].NewData? ==>
                  w.alive && Control(w.queue[1..], g) == Due(g, gen) &&
                  gen.posted == gen.delivered + [w.queue[0].point] + Data(w.queue[1..], g))
            && (!w.queue[0].NewData? ==>
                  Due(g, gen) == [w.queue[0]] && Control(w.queue[1..], g) == [] &&
                  Data(w.queue[1..], g) == Data(w.queue, g))
    ensures forall h: nat :: h != w.queue[0].gen ==>
              Control(w.queue[1..], h) == Control(w.queue, h) && Data(w.queue[1..], h) == Data(w.queue, h)
  {
    HeadOfOthers(w.queue);
    if w.queue[0].NewData? {
      HeadDataIsDue(w);
    } else {
      HeadControlIsDue(w);
    }
  }

  /** A delivery changes one generator, and of that one neither the fields nor what it posted. */
  lemma DeliverFrame(w: World, h: nat)
    requires Enabled(w, Deliver) && h < |w.gens|
    ensures var v := Apply(w, Deliver);
            && v.current == w.current && v.gui == w.gui && v.alive == w.alive && |v.gens| == |w.gens|
            && (h != w.queue[0].gen ==> v.gens[h] == w.gens[h])
            && v.gens[h].fields == w.gens[h].fields && v.gens[h].connected == w.gens[h].connected
            && v.gens[h].posted == w.gens[h].posted && w.gens[h].delivered <= v.gens[h].delivered
  {
    match w.queue[0]
    case NewData(_, _) =>
    case Quit(_) =>
    case DeleteThreadLater(_) =>
    case DeferredDelete(_) =>
  }

  lemma DeliverKeepsOwned(w: World)
    requires Owned(w) && Enabled(w, Deliver)
    ensures Owned(Apply(w, Deliver)) && |Apply(w, Deliver).gens| == |w.gens|
    ensures forall h :: 0 <= h < |w.gens| && h != w.queue[0].gen ==> Apply(w, Deliver).gens[h] == w.gens[h]
  {
    DeliverFrame(w, w.queue[0].gen);
    forall h | 0 <= h < |w.gens|
      ensures Apply(w, Deliver).gens[h].fields == w.gens[h].fields
      ensures Apply(w, Deliver).gens[h].connected == w.gens[h].connected
      ensures h != w.queue[0].gen ==> Apply(w, Deliver).gens[h] == w.gens[h]
    {
      DeliverFrame(w, h);
    }
  }

  lemma DeliveredOk(gen: Gen, pt: Point, g: nat)
    requires DataOk(gen) && LifeOk(gen)
    ensures var v := gen.(delivered := gen.delivered + [pt]);
            DataOk(v) && LifeOk(v) && Due(g, v) == Due(g, gen)
  {
  }

  lemma HandleDataGen(w: World)
    requires Inv(w) && Enabled(w, Deliver) && w.queue[0].NewData?
    ensures w.queue[0].gen < |Apply(w, Deliver).gens| && GenOk(Apply(w, Deliver), w.queue[0].gen)
  {
    var m := w.queue[0];
    HeadDataIsDue(w);
    assert GenOk(w, m.gen);
    DeliveredOk(w.gens[m.gen], m.point, m.gen);
    assert Apply(w, Deliver).gens[m.gen] == w.gens[m.gen].(delivered := w.gens[m.gen].delivered + [m.point]);
    assert Apply(w, Deliver).queue == w.queue[1..] && Apply(w, Deliver).alive == w.alive;
  }

  lemma HandleDataCounted(w: World)
    requires Counted(w) && Enabled(w, Deliver) && w.queue[0].NewData?
    ensures Counted(Apply(w, Deliver)) && Apply(w, Deliver).queue == w.queue[1..]
    ensures Apply(w, Deliver).alive == w.alive
  {
    var n := w.sinceStart;
    assert (n % UINT_RANGE + 1) % UINT_RANGE == (n + 1) % UINT_RANGE;
  }

  lemma HandleData(w: World)
    requires Inv(w) && Enabled(w, Deliver) && w.queue[0].NewData?
    ensures Inv(Apply(w, Deliver))
  {
    DeliverKeepsOwned(w);
    HandleDataCounted(w);
    HandleDataGen(w);
    HeadIsDue(w);
    OthersOk(w, Apply(w, Deliver), w.queue[0].gen);
  }

  lemma HandleQuit(w: World)
    requires Inv(w) && Enabled(w, Deliver) && w.queue[0].Quit?
    ensures Inv(Apply(w, Deliver))
  {
    var m, v := w.queue[0], Apply(w, Deliver);
    DeliverKeepsOwned(w);
    HeadIsDue(w);
    assert GenOk(w, m.gen);
    assert GenOk(v, m.gen);
    OthersOk(w, v, m.gen);
  }

  lemma HandleDeferredDelete(w: World)
    requires Inv(w) && Enabled(w, Deliver) && w.queue[0].DeferredDelete?
    ensures Inv(Apply(w, Deliver))
  {
    var m, v := w.queue[0], Apply(w, Deliver);
    DeliverKeepsOwned(w);
    HeadIsDue(w);
    assert GenOk(w, m.gen);
    assert GenOk(v, m.gen);
    OthersOk(w, v, m.gen);
  }

  lemma DeleteThreadGen(w: World)
    requires Inv(w) && Enabled(w, Deliver) && w.queue[0].DeleteThreadLater?
    ensures var v, g := Apply(w, Deliver), w.queue[0].gen;
            && GenOk(v, g)
            && forall h :: h != g ==> Control(v.queue, h) == Control(w.queue, h) && Data(v.queue, h) == Data(w.queue, h)
  {
    var m, v := w.queue[0], Apply(w, Deliver);
    var post := DeferredDelete(m.gen);
    HeadIsDue(w);
    forall h ensures Control(v.queue, h) == Control(w.queue[1..], h) + ControlOf(post, h) &&
                     Data(v.queue, h) == Data(w.queue[1..], h)
    {
      ControlAppend(w.queue[1..], post, h);
      DataAppend(w.queue[1..], post, h);
    }
    assert GenOk(w, m.gen);
  }

  lemma HandleDeleteThread(w: World)
    requires Inv(w) && Enabled(w, Deliver) && w.queue[0].DeleteThreadLater?
    ensures Inv(Apply(w, Deliver))
  {
    DeliverKeepsOwned(w);
    DeleteThreadGen(w);
    OthersOk(w, Apply(w, Deliver), w.queue[0].gen);
  }

  lemma NoMessages(q: seq<Message>, g: nat)
    requires forall i :: 0 <= i < |q| ==> q[i].gen != g
    ensures Control(q, g) == [] && Data(q, g) == []
  {
    if q != [] {
      NoMessages(q[1..], g);
    }
  }

  lemma StartKeepsInv(w: World)
    requires Inv(w) && Enabled(w, GuiStart)
    ensures Inv(Apply(w, GuiStart))
  {
    if w.current.None? {
      var v, n := Apply(w, GuiStart), |w.gens|;
      NoMessages(w.queue, n);
      forall g | 0 <= g < |v.gens| ensures GenOk(v, g) {
        if g < n {
          assert GenOk(w, g);
        }
      }
      assert Owned(v);
    }
  }

  lemma StopBeginKeepsInv(w: World, destroying: bool)
    requires Inv(w) && Enabled(w, StopBegin(destroying))
    ensures Inv(Apply(w, StopBegin(destroying)))
  {
    var v := Apply(w, StopBegin(destroying));
    forall g | 0 <= g < |v.gens| ensures GenOk(v, g) {
      assert GenOk(w, g);
    }
    assert Owned(v);
  }

  lemma StopEndKeepsInv(w: World)
    requires Inv(w) && Enabled(w, StopEnd)
    ensures Inv(Apply(w, StopEnd))
  {
    var v := Apply(w, StopEnd);
    forall g | 0 <= g < |v.gens| ensures GenOk(v, g) {
      assert GenOk(w, g);
      if w.gui.destroying {
        WithoutDataKeeps(w.queue, g, |w.gens|);
      }
    }
    if w.gui.destroying {
      WithoutDataKeeps(w.queue, 0, |w.gens|);
    }
    assert Owned(v);
  }

  lemma StepKeepsInv(w: World, a: Action)
    requires Inv(w) && Enabled(w, a)
    ensures Inv(Apply(w, a))
  {
    match a
    case GuiStart => StartKeepsInv(w);
    case StopBegin(destroying) => StopBeginKeepsInv(w, destroying);
    case StopEnd => StopEndKeepsInv(w);
    case Deliver =>
      if w.queue[0].NewData? {
        HandleData(w);
      } else if w.queue[0].Quit? {
        HandleQuit(w);
      } else if w.queue[0].DeleteThreadLater? {
        HandleDeleteThread(w);
      } else {
        HandleDeferredDelete(w);
      }
    case Worker(g, step) => WorkerKeepsInv(w, g, step);
    case Stutter =>
  }

  lemma {:induction false} ExecKeepsInv(w: World, acts: seq<Action>)
    requires Inv(w) && Exec(w, acts).Some?
    ensures Inv(Exec(w, acts).value)
  {
    if acts != [] {
      ExecKeepsInv(w, acts[..|acts| - 1]);
      StepKeepsInv(Exec(w, acts[..|acts| - 1]).value, acts[|acts| - 1]);
    }
  }

  // ------------------------------------------------------------ what it gives

  /**
    In every interleaving: `threadedDataGen_`, when set, points to a generator that is not done, not deleted and,
    outside `stop`, connected; it is the only one not done; so neither a second stop nor a late one touches a
    deleted generator, however many older ones are still shutting down.
   */
  lemma OwnershipIsSafe(acts: seq<Action>)
    requires Exec(INITIAL, acts).Some?
    ensures var w := Exec(INITIAL, acts).value;
            && (w.current.Some? ==>
                  && w.current.value < |w.gens|
                  && !w.gens[w.current.value].fields.done && w.gens[w.current.value].objectDeletions == 0
                  && (w.gui.Ready? ==> w.gens[w.current.value].connected))
            && (forall g, h :: 0 <= g < h < |w.gens| ==> w.gens[g].fields.done || w.gens[h].fields.done)
  {
    ExecKeepsInv(INITIAL, acts);
    var w := Exec(INITIAL, acts).value;
    if w.current.Some? {
      assert GenOk(w, w.current.value);
    }
  }

  /**
    In every interleaving: the timer, the generator and the thread are each deleted at most once, in that order;
    the timer fires only into a live generator; and calls posted to a QThread find it alive, its deletion finding
    it finished.
   */
  lemma DeletionsAreSafe(acts: seq<Action>, g: nat)
    requires Exec(INITIAL, acts).Some? && g < |Exec(INITIAL, acts).value.gens|
    ensures var w := Exec(INITIAL, acts).value;
            var gen := w.gens[g];
            && gen.threadDeletions <= gen.objectDeletions <= gen.timerDeletions == gen.finishedSignals <= 1
            && (WorkerEnabled(gen, Test) || WorkerEnabled(gen, Emit) ==>
                  gen.objectDeletions == 0 && gen.timerDeletions == 0)
            && (gen.threadDeletions == 1 ==> gen.thread.Ended?)
            && (w.queue != [] && w.queue[0].gen == g && !w.queue[0].NewData? ==> gen.threadDeletions == 0)
            && (w.queue != [] && w.queue[0] == DeferredDelete(g) ==> gen.thread.Ended?)
  {
    ExecKeepsInv(INITIAL, acts);
    var w := Exec(INITIAL, acts).value;
    assert GenOk(w, g);
    if w.queue != [] && w.queue[0].gen == g {
      HeadIsDue(w);
    }
  }

  /**
    In every interleaving: while the reader lives the points posted by a generator are those delivered followed by
    those queued, and the `k`-th is the start position moved north by `k` steps; the running count is the number
    of deliveries since the last start, modulo the range of the counter.
   */
  lemma DataIsConserved(acts: seq<Action>, g: nat)
    requires Exec(INITIAL, acts).Some? && g < |Exec(INITIAL, acts).value.gens|
    ensures var w := Exec(INITIAL, acts).value;
            var gen := w.gens[g];
            && (w.alive ==> gen.posted == gen.delivered + Data(w.queue, g))
            && gen.delivered <= gen.posted && Produces(gen.posted) && Produces(gen.delivered)
            && (forall k :: 0 <= k < |gen.posted| ==>
                  gen.posted[k] == Point(22.0 * (3.141592654 / 180.0) + k as real * 0.00001,
                                         -159.0 * (3.141592654 / 180.0), 100.0))
            && w.numberProcessed == w.sinceStart % UINT_RANGE
  {
    ExecKeepsInv(INITIAL, acts);
    assert GenOk(Exec(INITIAL, acts).value, g);
  }

  // ------------------------------------------------------ after the disconnect

  lemma WorkerAfterDisconnect(gen: Gen, step: WorkerStep)
    requires WorkerEnabled(gen, step) && !gen.connected
    ensures WorkerGen(gen, step).posted == gen.posted && WorkerGen(gen, step).delivered == gen.delivered
    ensures !WorkerGen(gen, step).connected
  {
    match step
    case Started =>
    case Test =>
    case Emit =>
    case DeleteObject =>
    case EndLoop =>
  }

  /** The generator is disconnected, has posted exactly `posted`, and at least `delivered` of it is delivered. */
  ghost predicate Cut(w: World, g: nat, posted: seq<Point>, delivered: seq<Point>) {
    g < |w.gens| && !w.gens[g].connected && w.gens[g].posted == posted && delivered <= w.gens[g].delivered
  }

  lemma StepKeepsCut(w: World, a: Action, g: nat, posted: seq<Point>, delivered: seq<Point>)
    requires Enabled(w, a) && Cut(w, g, posted, delivered)
    ensures Cut(Apply(w, a), g, posted, delivered)
  {
    match a
    case GuiStart => if w.current.Some? { } else { }
    case StopBegin(_) => if w.current.Some? { } else { }
    case StopEnd => if w.current.Some? { } else { }
    case Deliver => DeliverFrame(w, g);
    case Worker(h, step) =>
      if h == g {
        WorkerAfterDisconnect(w.gens[g], step);
      }
    case Stutter =>
  }

  lemma {:induction false} ExecKeepsCut(w: World, acts: seq<Action>, g: nat, posted: seq<Point>, delivered: seq<Point>)
    requires Exec(w, acts).Some? && Cut(w, g, posted, delivered)
    ensures Cut(Exec(w, acts).value, g, posted, delivered)
  {
    if acts != [] {
      ExecKeepsCut(w, acts[..|acts| - 1], g, posted, delivered);
      StepKeepsCut(Exec(w, acts[..|acts| - 1]).value, acts[|acts| - 1], g, posted, delivered);
    }
  }

  /** From the disconnect on, a generator posts nothing more, and what is delivered later was in the queue then. */
  lemma LateDeliveriesWereQueued(w: World, acts: seq<Action>, g: nat)
    requires Inv(w) && Exec(w, acts).Some? && g < |w.gens| && !w.gens[g].connected
    ensures var v := Exec(w, acts).value;
            && g < |v.gens| && v.gens[g].posted == w.gens[g].posted
            && w.gens[g].delivered <= v.gens[g].delivered
            && |v.gens[g].delivered| - |w.gens[g].delivered| <= |Data(w.queue, g)|
  {
    var v := Exec(w, acts).value;
    ExecKeepsCut(w, acts, g, w.gens[g].posted, w.gens[g].delivered);
    ExecKeepsInv(w, acts);
    assert GenOk(w, g) && GenOk(v, g);
    if !w.alive {
      DeadDeliversNothing(w, acts, g);
    }
  }

  lemma StepWhenDead(w: World, a: Action, g: nat)
    requires Inv(w) && Enabled(w, a) && !w.alive && g < |w.gens|
    ensures !Apply(w, a).alive && g < |Apply(w, a).gens| && Apply(w, a).gens[g].delivered == w.gens[g].delivered
  {
    match a
    case Deliver =>
      assert GenOk(w, w.queue[0].gen);
      HeadIsDue(w);
    case Worker(h, step) =>
      if h == g {
        assert GenOk(w, g);
        WorkerGenOk(w.gens[g], step);
      }
    case _ =>
  }

  /** A destroyed reader is delivered nothing. */
  lemma {:induction false} DeadDeliversNothing(w: World, acts: seq<Action>, g: nat)
    requires Inv(w) && Exec(w, acts).Some? && !w.alive && g < |w.gens|
    ensures var v := Exec(w, acts).value;
            !v.alive && g < |v.gens| && v.gens[g].delivered == w.gens[g].delivered
  {
    if acts != [] {
      DeadDeliversNothing(w, acts[..|acts| - 1], g);
      ExecKeepsInv(w, acts[..|acts| - 1]);
      StepWhenDead(Exec(w, acts[..|acts| - 1]).value, acts[|acts| - 1], g);
    }
  }
}
