/** Once told to stop, a generator shuts down completely in every fair schedule. */
module QtShutdown {
  import opened QtModel
  import opened QtSafety

  // -------------------------------------------------------------- the measure

  /** How far the generator is from being gone; odd jobs of other threads do not change it. */
  function Stage(gen: Gen): nat {
    match gen.thread
    case NotStarted => 7
    case Looping =>
      if gen.finishedSignals == 0 then (if gen.emitting then 6 else 5)
      else if !gen.quit then 4 else 3
    case Ended => if gen.threadDeletions == 1 then 0 else if gen.threadDeletePosted then 1 else 2
  }

  predicate WaitsForGui(gen: Gen) {
    Stage(gen) == 4 || Stage(gen) == 2 || Stage(gen) == 1
  }

  /** How many calls are ahead of the first control call for `g`. */
  function Ahead(q: seq<Message>, g: nat): nat {
    if q == [] || ControlOf(q[0], g) != [] then 0 else 1 + Ahead(q[1..], g)
  }

  /** Within a stage: the calls ahead in the GUI queue, or whether the generator object still exists. */
  function Remaining(w: World, g: nat): nat
    requires g < |w.gens|
  {
    if WaitsForGui(w.gens[g]) then Ahead(w.queue, g)
    else if Stage(w.gens[g]) == 3 && w.gens[g].deletePosted then 1
    else 0
  }

  ghost predicate NotFarther(w: World, v: World, g: nat) {
    && g < |w.gens| && g < |v.gens|
    && (Stage(v.gens[g]) < Stage(w.gens[g]) ||
        (Stage(v.gens[g]) == Stage(w.gens[g]) && Remaining(v, g) <= Remaining(w, g)))
  }

  ghost predicate Closer(w: World, v: World, g: nat) {
    && g < |w.gens| && g < |v.gens|
    && (Stage(v.gens[g]) < Stage(w.gens[g]) ||
        (Stage(v.gens[g]) == Stage(w.gens[g]) && Remaining(v, g) < Remaining(w, g)))
  }

  lemma {:induction false} AheadAppend(q: seq<Message>, m: Message, g: nat)
    requires Control(q, g) != []
    ensures Ahead(q + [m], g) == Ahead(q, g)
  {
    if ControlOf(q[0], g) == [] {
      AheadAppend(q[1..], m, g);
      assert (q + [m])[1..] == q[1..] + [m];
    }
  }

  lemma {:induction false} AheadWithoutData(q: seq<Message>, g: nat)
    requires Control(q, g) != []
    ensures Ahead(WithoutData(q), g) <= Ahead(q, g)
  {
    if ControlOf(q[0], g) == [] {
      AheadWithoutData(q[1..], g);
      if q[0].NewData? {
        assert WithoutData(q) == WithoutData(q[1..]);
      } else {
        assert WithoutData(q)[1..] == WithoutData(q[1..]);
      }
    }
  }

  lemma WaitingIsQueued(w: World, g: nat)
    requires Inv(w) && g < |w.gens| && WaitsForGui(w.gens[g])
    ensures |Control(w.queue, g)| == 1 && w.queue != []
  {
    assert GenOk(w, g);
  }

  // ------------------------------------------------------ steps and the measure

  lemma StopKeepsRank(w: World, a: Action, g: nat)
    requires Inv(w) && Enabled(w, a) && g < |w.gens| && (a.StopBegin? || a.StopEnd?)
    ensures NotFarther(w, Apply(w, a), g)
  {
    var v := Apply(w, a);
    assert Stage(v.gens[g]) == Stage(w.gens[g]) && v.gens[g].deletePosted == w.gens[g].deletePosted;
    if WaitsForGui(w.gens[g]) {
      WaitingIsQueued(w, g);
      AheadWithoutData(w.queue, g);
    }
  }

  /** The worker's own steps bring its end closer, except while it waits for the GUI thread. */
  lemma WorkerHelps(w: World, g: nat, step: WorkerStep)
    requires Inv(w) && Enabled(w, Worker(g, step)) && w.gens[g].fields.done
    ensures !WaitsForGui(w.gens[g]) ==> Closer(w, Apply(w, Worker(g, step)), g)
    ensures WaitsForGui(w.gens[g]) ==> NotFarther(w, Apply(w, Worker(g, step)), g)
  {
    assert GenOk(w, g);
    var v := Apply(w, Worker(g, step));
    match step
    case Started =>
    case Test =>
    case Emit =>
    case DeleteObject => assert v.queue == w.queue;
    case EndLoop =>
  }

  lemma OtherWorkerKeepsRank(w: World, h: nat, step: WorkerStep, g: nat)
    requires Inv(w) && Enabled(w, Worker(h, step)) && g < |w.gens| && g != h
    ensures NotFarther(w, Apply(w, Worker(h, step)), g)
  {
    assert GenOk(w, h);
    WorkerPostsDue(h, w.gens[h], step);
    var posts := WorkerPosts(h, w.gens[h], step);
    if posts == [] {
      assert w.queue + posts == w.queue;
    } else if WaitsForGui(w.gens[g]) {
      WaitingIsQueued(w, g);
      assert posts == [posts[0]];
      AheadAppend(w.queue, posts[0], g);
    }
  }

  /** Handling the call the generator waits for ends the wait. */
  lemma HandlingHelps(w: World, g: nat)
    requires Inv(w) && Enabled(w, Deliver) && g < |w.gens| && WaitsForGui(w.gens[g]) && ControlOf(w.queue[0], g) != []
    ensures Closer(w, Apply(w, Deliver), g)
  {
    assert GenOk(w, g);
    HeadIsDue(w);
    var gen := w.gens[g];
    assert Due(g, gen) == [w.queue[0]];
    match w.queue[0]
    case Quit(_) => assert Stage(gen) == 4 && Stage(Apply(w, Deliver).gens[g]) == 3;
    case DeleteThreadLater(_) => assert Stage(gen) == 2 && Stage(Apply(w, Deliver).gens[g]) == 1;
    case DeferredDelete(_) => assert Stage(gen) == 1 && Stage(Apply(w, Deliver).gens[g]) == 0;
  }

  /** Handling any other call leaves the generator where it is, one call closer to its turn. */
  lemma OtherCall(w: World, g: nat)
    requires Inv(w) && Enabled(w, Deliver) && g < |w.gens| && ControlOf(w.queue[0], g) == []
    ensures var v := Apply(w, Deliver);
            if WaitsForGui(w.gens[g]) then Closer(w, v, g) else NotFarther(w, v, g)
  {
    var m, v := w.queue[0], Apply(w, Deliver);
    assert g < |v.gens| && Stage(v.gens[g]) == Stage(w.gens[g]) && v.gens[g].deletePosted == w.gens[g].deletePosted by {
      DeliverFrame(w, g);
    }
    if WaitsForGui(w.gens[g]) {
      WaitingIsQueued(w, g);
      assert Control(w.queue, g) == Control(w.queue[1..], g);
      assert Ahead(w.queue, g) == 1 + Ahead(w.queue[1..], g);
      if m.DeleteThreadLater? {
        AheadAppend(w.queue[1..], DeferredDelete(m.gen), g);
      } else {
        assert v.queue == w.queue[1..];
      }
    }
  }

  /** A delivery never sets a stopped generator back, and brings it closer while it waits for the GUI thread. */
  lemma DeliveryHelps(w: World, g: nat)
    requires Inv(w) && Enabled(w, Deliver) && g < |w.gens|
    ensures if WaitsForGui(w.gens[g]) then Closer(w, Apply(w, Deliver), g) else NotFarther(w, Apply(w, Deliver), g)
  {
    if ControlOf(w.queue[0], g) == [] {
      OtherCall(w, g);
    } else {
      HeadIsDue(w);
      assert WaitsForGui(w.gens[g]) by {
        assert GenOk(w, g) && Due(g, w.gens[g]) != [];
      }
      HandlingHelps(w, g);
    }
  }

  lemma DoneStays(w: World, a: Action, g: nat)
    requires Inv(w) && Enabled(w, a) && g < |w.gens| && w.gens[g].fields.done
    ensures g < |Apply(w, a).gens| && Apply(w, a).gens[g].fields.done
  {
    match a
    case GuiStart => if w.current.Some? { } else { }
    case StopBegin(_) => if w.current.Some? { } else { }
    case StopEnd => if w.current.Some? { } else { }
    case Deliver => DeliverFrame(w, g);
    case Worker(h, step) =>
      if h == g {
        assert GenOk(w, g);
        WorkerGenOk(w.gens[g], step);
      }
    case Stutter =>
  }

  lemma NoStepSetsBack(w: World, a: Action, g: nat)
    requires Inv(w) && Enabled(w, a) && g < |w.gens| && w.gens[g].fields.done
    ensures NotFarther(w, Apply(w, a), g)
  {
    match a
    case GuiStart => if w.current.Some? { } else { }
    case StopBegin(_) => StopKeepsRank(w, a, g);
    case StopEnd => StopKeepsRank(w, a, g);
    case Deliver => DeliveryHelps(w, g);
    case Worker(h, step) =>
      if h == g {
        WorkerHelps(w, g, step);
      } else {
        OtherWorkerKeepsRank(w, h, step, g);
      }
    case Stutter =>
  }

  /** Unless it waits for the GUI thread or is gone, the worker has a step to take. */
  lemma WorkerCanMove(w: World, g: nat) returns (step: WorkerStep)
    requires Inv(w) && g < |w.gens| && !WaitsForGui(w.gens[g]) && Stage(w.gens[g]) != 0
    ensures WorkerEnabled(w.gens[g], step)
  {
    assert GenOk(w, g);
    var gen := w.gens[g];
    step := if gen.thread.NotStarted? then Started
            else if gen.emitting then Emit
            else if gen.finishedSignals == 0 then Test
            else EndLoop;
  }

  // ------------------------------------------------------------ whole schedules

  /** An endless run; `Stutter` pads one in which nothing more happens. */
  ghost predicate IsRun(sigma: nat -> World, act: nat -> Action) {
    forall n: nat :: Enabled(sigma(n), act(n)) && sigma(n + 1) == Apply(sigma(n), act(n))
  }

  predicate GuiTurn(w: World, a: Action) {
    a == Deliver || w.queue == []
  }

  ghost predicate GuiTurnFrom(sigma: nat -> World, act: nat -> Action, n: nat) {
    exists m: nat :: n <= m && GuiTurn(sigma(m), act(m))
  }

  /** The GUI thread keeps handling posted calls as long as there are any. */
  ghost predicate FairGui(sigma: nat -> World, act: nat -> Action) {
    forall n: nat :: GuiTurnFrom(sigma, act, n)
  }

  predicate Blocked(gen: Gen) {
    !WorkerEnabled(gen, Started) && !WorkerEnabled(gen, Test) && !WorkerEnabled(gen, Emit)
    && !WorkerEnabled(gen, DeleteObject) && !WorkerEnabled(gen, EndLoop)
  }

  predicate WorkerTurn(w: World, a: Action, g: nat) {
    (a.Worker? && a.gen == g) || (g < |w.gens| && Blocked(w.gens[g]))
  }

  ghost predicate WorkerTurnFrom(sigma: nat -> World, act: nat -> Action, g: nat, n: nat) {
    exists m: nat :: n <= m && WorkerTurn(sigma(m), act(m), g)
  }

  /** Thread `g` keeps running as long as it has something to do. */
  ghost predicate FairWorker(sigma: nat -> World, act: nat -> Action, g: nat) {
    forall n: nat :: WorkerTurnFrom(sigma, act, g, n)
  }

  lemma {:induction false} StaysOnCourse(sigma: nat -> World, act: nat -> Action, g: nat, n: nat, m: nat)
    requires IsRun(sigma, act) && n <= m
    requires Inv(sigma(n)) && g < |sigma(n).gens| && sigma(n).gens[g].fields.done
    ensures Inv(sigma(m)) && g < |sigma(m).gens| && sigma(m).gens[g].fields.done
    ensures NotFarther(sigma(n), sigma(m), g)
    decreases m - n
  {
    if n < m {
      assert sigma(n + 1) == Apply(sigma(n), act(n));
      StepKeepsInv(sigma(n), act(n));
      DoneStays(sigma(n), act(n), g);
      NoStepSetsBack(sigma(n), act(n), g);
      StaysOnCourse(sigma, act, g, n + 1, m);
    }
  }

  lemma StepInRun(sigma: nat -> World, act: nat -> Action, m: nat)
    requires IsRun(sigma, act)
    ensures Enabled(sigma(m), act(m)) && sigma(m + 1) == Apply(sigma(m), act(m))
  {
  }

  lemma CloserLater(w: World, v: World, u: World, g: nat)
    requires NotFarther(w, v, g) && Closer(v, u, g)
    ensures Closer(w, u, g)
  {
  }

  lemma GuiBringsCloser(sigma: nat -> World, act: nat -> Action, g: nat, n: nat) returns (m: nat)
    requires IsRun(sigma, act) && FairGui(sigma, act)
    requires Inv(sigma(n)) && g < |sigma(n).gens| && sigma(n).gens[g].fields.done && WaitsForGui(sigma(n).gens[g])
    ensures n <= m && Closer(sigma(n), sigma(m), g)
  {
    assert GuiTurnFrom(sigma, act, n);
    m :| n <= m && GuiTurn(sigma(m), act(m));
    StaysOnCourse(sigma, act, g, n, m);
    if !Closer(sigma(n), sigma(m), g) {
      WaitingIsQueued(sigma(m), g);
      StepInRun(sigma, act, m);
      DeliveryHelps(sigma(m), g);
      CloserLater(sigma(n), sigma(m), sigma(m + 1), g);
      m := m + 1;
    }
  }

  lemma WorkerBringsCloser(sigma: nat -> World, act: nat -> Action, g: nat, n: nat) returns (m: nat)
    requires IsRun(sigma, act) && FairWorker(sigma, act, g)
    requires Inv(sigma(n)) && g < |sigma(n).gens| && sigma(n).gens[g].fields.done
    requires Stage(sigma(n).gens[g]) != 0 && !WaitsForGui(sigma(n).gens[g])
    ensures n <= m && Closer(sigma(n), sigma(m), g)
  {
    assert WorkerTurnFrom(sigma, act, g, n);
    m :| n <= m && WorkerTurn(sigma(m), act(m), g);
    StaysOnCourse(sigma, act, g, n, m);
    if !Closer(sigma(n), sigma(m), g) {
      var step := WorkerCanMove(sigma(m), g);
      StepInRun(sigma, act, m);
      WorkerHelps(sigma(m), g, act(m).step);
      CloserLater(sigma(n), sigma(m), sigma(m + 1), g);
      m := m + 1;
    }
  }

  lemma {:induction false} Disappears(sigma: nat -> World, act: nat -> Action, g: nat, n: nat) returns (m: nat)
    requires IsRun(sigma, act) && FairGui(sigma, act) && FairWorker(sigma, act, g)
    requires Inv(sigma(n)) && g < |sigma(n).gens| && sigma(n).gens[g].fields.done
    ensures n <= m && g < |sigma(m).gens| && Stage(sigma(m).gens[g]) == 0 && Inv(sigma(m))
    decreases Stage(sigma(n).gens[g]), Remaining(sigma(n), g)
  {
    if Stage(sigma(n).gens[g]) == 0 {
      m := n;
    } else {
      var k: nat;
      if WaitsForGui(sigma(n).gens[g]) {
        k := GuiBringsCloser(sigma, act, g, n);
      } else {
        k := WorkerBringsCloser(sigma, act, g, n);
      }
      StaysOnCourse(sigma, act, g, n, k);
      m := Disappears(sigma, act, g, k);
    }
  }

  /** Everything that belongs to the generator has been deleted, once, and it has signalled its end, once. */
  ghost predicate Gone(gen: Gen) {
    gen.timerDeletions == gen.finishedSignals == gen.objectDeletions == gen.threadDeletions == 1 && gen.thread.Ended?
  }

  lemma GoneStays(w: World, a: Action, g: nat)
    requires Inv(w) && Enabled(w, a) && g < |w.gens| && Gone(w.gens[g])
    ensures var v := Apply(w, a);
            && g < |v.gens| && Gone(v.gens[g])
            && v.gens[g].ticks == w.gens[g].ticks && v.gens[g].posted == w.gens[g].posted
  {
    assert GenOk(w, g);
    match a
    case GuiStart => if w.current.Some? { } else { }
    case StopBegin(_) => if w.current.Some? { } else { }
    case StopEnd => if w.current.Some? { } else { }
    case Deliver => HeadIsDue(w);
    case Worker(_, _) =>
    case Stutter =>
  }

  lemma {:induction false} GoneForever(sigma: nat -> World, act: nat -> Action, g: nat, m: nat, k: nat)
    requires IsRun(sigma, act) && Inv(sigma(m)) && m <= k && g < |sigma(m).gens| && Gone(sigma(m).gens[g])
    ensures g < |sigma(k).gens| && Gone(sigma(k).gens[g])
    ensures sigma(k).gens[g].ticks == sigma(m).gens[g].ticks && sigma(k).gens[g].posted == sigma(m).gens[g].posted
    decreases k - m
  {
    if m < k {
      assert sigma(m + 1) == Apply(sigma(m), act(m));
      StepKeepsInv(sigma(m), act(m));
      GoneStays(sigma(m), act(m), g);
      GoneForever(sigma, act, g, m + 1, k);
    }
  }

  /**
    In every fair schedule a generator that has been told to stop, at any point of its life and with any others
    running or shutting down beside it, comes to the point where its timer, itself and its thread have each been
    deleted exactly once and `finished` has been emitted exactly once; from then on nothing of it happens.
   */
  lemma ShutdownCompletes(sigma: nat -> World, act: nat -> Action, g: nat, n: nat) returns (m: nat)
    requires IsRun(sigma, act) && sigma(0) == INITIAL && FairGui(sigma, act) && FairWorker(sigma, act, g)
    requires g < |sigma(n).gens| && sigma(n).gens[g].fields.done
    ensures n <= m && g < |sigma(m).gens|
    ensures forall k: nat :: m <= k ==>
              && g < |sigma(k).gens| && Gone(sigma(k).gens[g])
              && sigma(k).gens[g].ticks == sigma(m).gens[g].ticks && sigma(k).gens[g].posted == sigma(m).gens[g].posted
  {
    InvThroughout(sigma, act, n);
    m := Disappears(sigma, act, g, n);
    assert GenOk(sigma(m), g);
    forall k: nat | m <= k
      ensures g < |sigma(k).gens| && Gone(sigma(k).gens[g])
      ensures sigma(k).gens[g].ticks == sigma(m).gens[g].ticks && sigma(k).gens[g].posted == sigma(m).gens[g].posted
    {
      GoneForever(sigma, act, g, m, k);
    }
  }

  lemma {:induction false} InvThroughout(sigma: nat -> World, act: nat -> Action, n: nat)
    requires IsRun(sigma, act) && sigma(0) == INITIAL
    ensures Inv(sigma(n))
  {
    if n > 0 {
      InvThroughout(sigma, act, n - 1);
      assert sigma(n - 1 + 1) == Apply(sigma(n - 1), act(n - 1));
      StepKeepsInv(sigma(n - 1), act(n - 1));
    }
  }
}
