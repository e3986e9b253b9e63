/**
  What ends up in the data store.  A start/stop session should be one platform with times 0, 1, 2, ...  It is, as
  long as no point is still queued when `stop` disconnects; and one point queued then is enough to spoil it.
 */
module QtTracks {
  import opened Cycles
  import opened Options
  import opened QtModel
  import opened QtSafety

  // ---------------------------------------------------------- the intended store

  /** Platform `p` holds exactly what the reader got from generator `g`, in order, at times 0, 1, 2, ... */
  ghost predicate TrackOf(w: World, p: nat, g: nat)
    requires p < |w.tracks|
  {
    && g < |w.gens| && |w.tracks[p]| == |w.gens[g].delivered|
    && forall i :: 0 <= i < |w.tracks[p]| ==> w.tracks[p][i] == Sample(i % UINT_RANGE, g, w.gens[g].delivered[i])
  }

  /** The generator whose point created platform `p`. */
  ghost predicate From(w: World, p: nat, g: nat) {
    p < |w.tracks| && w.tracks[p] != [] && w.tracks[p][0].gen == g
  }

  /** Every platform is exactly one session's track. */
  ghost predicate TracksExact(w: World) {
    forall p :: 0 <= p < |w.tracks| ==> w.tracks[p] != [] && TrackOf(w, p, w.tracks[p][0].gen)
  }

  /** No two platforms hold the same session's points. */
  ghost predicate TracksDistinct(w: World) {
    forall p: nat, q: nat, g: nat :: p < q && From(w, p, g) ==> !From(w, q, g)
  }

  /** Every session that delivered something has a platform. */
  ghost predicate SessionsTracked(w: World) {
    forall g :: 0 <= g < |w.gens| && w.gens[g].delivered != [] ==> exists p :: From(w, p, g)
  }

  /** Platforms and sessions that delivered something correspond one to one; each platform is its session's track. */
  ghost predicate TracksGood(w: World) {
    TracksExact(w) && TracksDistinct(w) && SessionsTracked(w)
  }

  // ---------------------------------------------------------------- quiet runs

  ghost predicate NoData(q: seq<Message>) {
    forall i :: 0 <= i < |q| ==> !q[i].NewData?
  }

  /** All points in the queue are from `g`. */
  ghost predicate OnlyDataOf(q: seq<Message>, g: nat) {
    forall i :: 0 <= i < |q| && q[i].NewData? ==> q[i].gen == g
  }

  /** A run in which no point is queued whenever `stop` begins. */
  ghost predicate QuietRun(w: World, acts: seq<Action>) {
    acts == [] ||
    (var front := acts[..|acts| - 1];
     QuietRun(w, front) && Exec(w, acts).Some? &&
     (acts[|acts| - 1].StopBegin? && Exec(w, front).Some? ==> NoData(Exec(w, front).value.queue)))
  }

  ghost predicate SessionOk(w: World) {
    match w.current
    case None => w.id == 0 && NoData(w.queue)
    case Some(g) =>
      && g < |w.gens| && OnlyDataOf(w.queue, g) && w.sinceStart == |w.gens[g].delivered|
      && (if w.id == 0 then w.gens[g].delivered == [] else From(w, w.id - 1, g))
  }

  ghost predicate QuietInv(w: World) {
    && Inv(w) && TracksGood(w) && SessionOk(w)
    && (w.gui.Stopping? ==> NoData(w.queue))
  }

  // ------------------------------------------------------------- it is preserved

  /** Steps that leave the store and the deliveries alone keep the tracks good. */
  lemma SameTracks(w: World, v: World)
    requires TracksGood(w) && v.tracks == w.tracks && |w.gens| <= |v.gens|
    requires forall g :: 0 <= g < |w.gens| ==> v.gens[g].delivered == w.gens[g].delivered
    requires forall g :: |w.gens| <= g < |v.gens| ==> v.gens[g].delivered == []
    ensures TracksGood(v)
  {
    forall p | 0 <= p < |v.tracks| ensures v.tracks[p] != [] && TrackOf(v, p, v.tracks[p][0].gen) {
      assert TrackOf(w, p, w.tracks[p][0].gen);
    }
    forall p: nat, q: nat, g: nat | p < q && From(v, p, g) ensures !From(v, q, g) {
      assert From(w, p, g);
      assert !From(w, q, g);
    }
    forall g | 0 <= g < |v.gens| && v.gens[g].delivered != [] ensures exists p :: From(v, p, g) {
      var p :| From(w, p, g);
      assert From(v, p, g);
    }
  }

  lemma NoDataAppend(q: seq<Message>, posts: seq<Message>)
    requires NoData(q) && |posts| <= 1 && (posts != [] ==> !posts[0].NewData?)
    ensures NoData(q + posts)
  {
  }

  lemma OnlyDataOfAppend(q: seq<Message>, posts: seq<Message>, g: nat)
    requires OnlyDataOf(q, g) && |posts| <= 1 && (posts != [] && posts[0].NewData? ==> posts[0].gen == g)
    ensures OnlyDataOf(q + posts, g)
  {
  }

  /** A worker posts points only for the session under way, and never while `stop` is under way. */
  lemma WorkerKeepsSession(w: World, g: nat, step: WorkerStep)
    requires QuietInv(w) && Enabled(w, Worker(g, step))
    ensures SessionOk(Apply(w, Worker(g, step)))
    ensures w.gui.Stopping? ==> NoData(Apply(w, Worker(g, step)).queue)
    ensures WorkerGen(w.gens[g], step).delivered == w.gens[g].delivered
  {
    var v, posts := Apply(w, Worker(g, step)), WorkerPosts(g, w.gens[g], step);
    assert w.gens[g].connected ==> w.current == Some(g) && w.gui.Ready?;
    assert WorkerGen(w.gens[g], step).delivered == w.gens[g].delivered && |posts| <= 1
           && (posts != [] && posts[0].NewData? ==> posts[0].gen == g && w.gens[g].connected) by {
      match step
      case Started =>
      case Test =>
      case Emit =>
      case DeleteObject =>
      case EndLoop =>
    }
    if w.current.Some? {
      OnlyDataOfAppend(w.queue, posts, w.current.value);
      assert w.id != 0 ==> From(v, w.id - 1, w.current.value);
    }
    if NoData(w.queue) && (w.current.None? || w.gui.Stopping?) {
      NoDataAppend(w.queue, posts);
    }
  }

  lemma WorkerKeepsQuiet(w: World, g: nat, step: WorkerStep)
    requires QuietInv(w) && Enabled(w, Worker(g, step))
    ensures QuietInv(Apply(w, Worker(g, step)))
  {
    StepKeepsInv(w, Worker(g, step));
    WorkerKeepsSession(w, g, step);
    SameTracks(w, Apply(w, Worker(g, step)));
  }

  lemma StartKeepsQuiet(w: World)
    requires QuietInv(w) && Enabled(w, GuiStart)
    ensures QuietInv(Apply(w, GuiStart))
  {
    StepKeepsInv(w, GuiStart);
    SameTracks(w, Apply(w, GuiStart));
  }

  lemma StopBeginKeepsQuiet(w: World, destroying: bool)
    requires QuietInv(w) && Enabled(w, StopBegin(destroying)) && NoData(w.queue)
    ensures QuietInv(Apply(w, StopBegin(destroying)))
  {
    StepKeepsInv(w, StopBegin(destroying));
    SameTracks(w, Apply(w, StopBegin(destroying)));
  }

  lemma {:induction false} NothingToRemove(q: seq<Message>)
    requires NoData(q)
    ensures WithoutData(q) == q
  {
    if q != [] {
      NothingToRemove(q[1..]);
      assert q == [q[0]] + q[1..];
    }
  }

  lemma StopEndKeepsQuiet(w: World)
    requires QuietInv(w) && Enabled(w, StopEnd)
    ensures QuietInv(Apply(w, StopEnd))
  {
    NothingToRemove(w.queue);
    StepKeepsInv(w, StopEnd);
    SameTracks(w, Apply(w, StopEnd));
  }

  /** Deliveries of control calls post at most another one. */
  lemma ControlFrame(w: World)
    requires Enabled(w, Deliver) && !w.queue[0].NewData?
    ensures var v := Apply(w, Deliver);
            && v.tracks == w.tracks && v.id == w.id && v.current == w.current && v.sinceStart == w.sinceStart
            && v.gui == w.gui && v.alive == w.alive && |v.gens| == |w.gens|
            && (v.queue == w.queue[1..] || v.queue == w.queue[1..] + [DeferredDelete(w.queue[0].gen)])
            && (forall g :: 0 <= g < |w.gens| ==> v.gens[g].delivered == w.gens[g].delivered)
  {
    match w.queue[0]
    case Quit(_) =>
    case DeleteThreadLater(_) =>
    case DeferredDelete(_) =>
  }

  lemma ControlKeepsSession(w: World)
    requires SessionOk(w) && Enabled(w, Deliver) && !w.queue[0].NewData?
    ensures SessionOk(Apply(w, Deliver))
  {
    var v, post := Apply(w, Deliver), DeferredDelete(w.queue[0].gen);
    ControlFrame(w);
    if w.current.None? {
      NoDataAppend(w.queue[1..], [post]);
    } else {
      OnlyDataOfAppend(w.queue[1..], [post], w.current.value);
      assert w.id != 0 ==> From(v, w.id - 1, w.current.value);
    }
  }

  lemma ControlKeepsQuiet(w: World)
    requires QuietInv(w) && Enabled(w, Deliver) && !w.queue[0].NewData?
    ensures QuietInv(Apply(w, Deliver))
  {
    StepKeepsInv(w, Deliver);
    ControlFrame(w);
    ControlKeepsSession(w);
    SameTracks(w, Apply(w, Deliver));
  }

  /** The delivery of a point of the current session extends that session's track. */
  lemma DataExtendsTrack(w: World)
    requires QuietInv(w) && Enabled(w, Deliver) && w.queue[0].NewData?
    ensures w.current == Some(w.queue[0].gen)
    ensures var v := Apply(w, Deliver);
            && From(v, v.id - 1, w.queue[0].gen) && TrackOf(v, v.id - 1, w.queue[0].gen)
            && |v.tracks| == (if w.id == 0 then |w.tracks| + 1 else |w.tracks|)
            && (forall p :: 0 <= p < |v.tracks| && p != v.id - 1 ==> p < |w.tracks| && v.tracks[p] == w.tracks[p])
  {
    var g := w.queue[0].gen;
    if w.id != 0 {
      assert TrackOf(w, w.id - 1, g);
    }
  }

  /** Platforms other than the current one belong to other sessions. */
  lemma OtherTracks(w: World, p: nat, g: nat)
    requires TracksGood(w) && SessionOk(w) && w.current == Some(g) && p < |w.tracks| && p != w.id - 1
    ensures !From(w, p, g)
  {
    assert w.tracks[p] != [] && TrackOf(w, p, w.tracks[p][0].gen);
    if w.id != 0 {
      assert From(w, w.id - 1, g);
    }
  }

  lemma DataKeepsExact(w: World)
    requires QuietInv(w) && Enabled(w, Deliver) && w.queue[0].NewData?
    ensures TracksExact(Apply(w, Deliver))
  {
    var v, g := Apply(w, Deliver), w.queue[0].gen;
    DataExtendsTrack(w);
    forall p | 0 <= p < |v.tracks| ensures v.tracks[p] != [] && TrackOf(v, p, v.tracks[p][0].gen) {
      if p != v.id - 1 {
        var h := w.tracks[p][0].gen;
        assert TrackOf(w, p, h);
        OtherTracks(w, p, g);
        assert From(w, p, h);
        DeliverFrame(w, h);
      }
    }
  }

  lemma DataKeepsDistinct(w: World)
    requires QuietInv(w) && Enabled(w, Deliver) && w.queue[0].NewData?
    ensures TracksDistinct(Apply(w, Deliver))
  {
    var v, g := Apply(w, Deliver), w.queue[0].gen;
    DataExtendsTrack(w);
    forall p: nat, q: nat, h: nat | p < q && From(v, p, h) ensures !From(v, q, h) {
      if p == v.id - 1 {
        if q < |v.tracks| {
          OtherTracks(w, q, g);
        }
      } else {
        OtherTracks(w, p, g);
        assert From(w, p, h);
        assert !From(w, q, h);
      }
    }
  }

  lemma DataKeepsTracked(w: World)
    requires QuietInv(w) && Enabled(w, Deliver) && w.queue[0].NewData?
    ensures SessionsTracked(Apply(w, Deliver))
  {
    var v, g := Apply(w, Deliver), w.queue[0].gen;
    DataExtendsTrack(w);
    forall h | 0 <= h < |v.gens| && v.gens[h].delivered != [] ensures exists p :: From(v, p, h) {
      if h == g {
        assert From(v, v.id - 1, h);
      } else {
        DeliverFrame(w, h);
        var p :| From(w, p, h);
        assert From(v, p, h);
      }
    }
  }

  lemma DataKeepsQuiet(w: World)
    requires QuietInv(w) && Enabled(w, Deliver) && w.queue[0].NewData?
    ensures QuietInv(Apply(w, Deliver))
  {
    StepKeepsInv(w, Deliver);
    DataKeepsExact(w);
    DataKeepsDistinct(w);
    DataKeepsTracked(w);
    DataExtendsTrack(w);
  }

  lemma StepKeepsQuiet(w: World, a: Action)
    requires QuietInv(w) && Enabled(w, a) && (a.StopBegin? ==> NoData(w.queue))
    ensures QuietInv(Apply(w, a))
  {
    match a
    case GuiStart => StartKeepsQuiet(w);
    case StopBegin(destroying) => StopBeginKeepsQuiet(w, destroying);
    case StopEnd => StopEndKeepsQuiet(w);
    case Deliver =>
      if w.queue[0].NewData? {
        DataKeepsQuiet(w);
      } else {
        ControlKeepsQuiet(w);
      }
    case Worker(g, step) => WorkerKeepsQuiet(w, g, step);
    case Stutter =>
  }

  lemma {:induction false} QuietRunKeepsQuiet(w: World, acts: seq<Action>)
    requires QuietInv(w) && QuietRun(w, acts)
    ensures Exec(w, acts).Some? && QuietInv(Exec(w, acts).value)
  {
    if acts != [] {
      var front := acts[..|acts| - 1];
      QuietRunKeepsQuiet(w, front);
      StepKeepsQuiet(Exec(w, front).value, acts[|acts| - 1]);
    }
  }

  /**
    In every run in which no point is queued whenever `stop` begins, each session writes to at most one platform,
    no two sessions share one, and a platform's update times are 0, 1, ..., n - 1 (on the 32-bit counter).
   */
  lemma SessionsAreTracks(acts: seq<Action>)
    requires QuietRun(INITIAL, acts)
    ensures Exec(INITIAL, acts).Some? && TracksGood(Exec(INITIAL, acts).value)
  {
    QuietRunKeepsQuiet(INITIAL, acts);
  }

  // ------------------------------------------------- the condition is necessary

  ghost predicate NoStop(acts: seq<Action>) {
    forall i :: 0 <= i < |acts| ==> !acts[i].StopBegin?
  }

  ghost predicate LeadsTo(w: World, acts: seq<Action>, v: World) {
    NoStop(acts) && Exec(w, acts) == Some(v)
  }

  lemma OneStep(w: World, a: Action)
    requires Enabled(w, a) && !a.StopBegin?
    ensures LeadsTo(w, [a], Apply(w, a))
  {
    assert [a][..0] == [];
    assert Exec(w, [a][..0]) == Some(w);
  }

  lemma {:induction false} ThenSteps(w: World, acts: seq<Action>, v: World, more: seq<Action>, u: World)
    requires LeadsTo(w, acts, v) && LeadsTo(v, more, u)
    ensures LeadsTo(w, acts + more, u)
  {
    if more == [] {
      assert acts + more == acts;
    } else {
      var front := more[..|more| - 1];
      ThenSteps(w, acts, v, front, Exec(v, front).value);
      assert (acts + more)[..|acts + more| - 1] == acts + front;
    }
  }

  lemma {:induction false} WithoutStopIsQuiet(w: World, acts: seq<Action>)
    requires NoStop(acts) && Exec(w, acts).Some?
    ensures QuietRun(w, acts)
  {
    if acts != [] {
      WithoutStopIsQuiet(w, acts[..|acts| - 1]);
    }
  }

  /** The reader has a platform open, whose first point came from `g`. */
  ghost predicate Filling(w: World, g: nat) {
    w.id != 0 && From(w, w.id - 1, g)
  }

  ghost predicate Holds(w: World, p: nat, h: nat) {
    p < |w.tracks| && exists i :: 0 <= i < |w.tracks[p]| && w.tracks[p][i].gen == h
  }

  /** While a platform is open every delivery leaves it open, and a point delivered goes there. */
  lemma DeliverFills(w: World, g: nat)
    requires Inv(w) && Enabled(w, Deliver) && Filling(w, g)
    ensures var v := Apply(w, Deliver);
            && Inv(v) && Filling(v, g) && v.id == w.id && v.current == w.current && v.gui == w.gui && v.alive == w.alive
            && (w.queue[0].NewData? ==> Holds(v, v.id - 1, w.queue[0].gen))
  {
    StepKeepsInv(w, Deliver);
    DeliverFrame(w, w.queue[0].gen);
    if w.queue[0].NewData? {
      var track := Apply(w, Deliver).tracks[w.id - 1];
      assert track[|track| - 1].gen == w.queue[0].gen;
    } else {
      ControlFrame(w);
    }
  }

  lemma QueueMoves(w: World)
    requires Enabled(w, Deliver)
    ensures w.queue[1..] <= Apply(w, Deliver).queue
  {
    match w.queue[0]
    case NewData(_, _) =>
    case Quit(_) =>
    case DeleteThreadLater(_) =>
    case DeferredDelete(_) =>
  }

  lemma DeliverOnce(w: World, g: nat) returns (u: World)
    requires Inv(w) && w.gui.Ready? && Filling(w, g) && w.queue != []
    ensures LeadsTo(w, [Deliver], u) && Filling(u, g) && (w.queue[0].NewData? ==> Holds(u, u.id - 1, w.queue[0].gen))
    ensures Inv(u) && u.gui.Ready? && w.queue[1..] <= u.queue
  {
    u := Apply(w, Deliver);
    DeliverFills(w, g);
    OneStep(w, Deliver);
    QueueMoves(w);
  }

  /** Delivering up to a queued point puts it on the open platform. */
  lemma {:induction false} DeliverUpTo(w: World, g: nat, k: nat) returns (acts: seq<Action>, v: World)
    requires Inv(w) && w.gui.Ready? && Filling(w, g) && k < |w.queue| && w.queue[k].NewData?
    ensures LeadsTo(w, acts, v) && Filling(v, g) && Holds(v, v.id - 1, w.queue[k].gen)
    decreases k
  {
    var u := DeliverOnce(w, g);
    if k == 0 {
      acts, v := [Deliver], u;
    } else {
      assert u.queue[k - 1] == w.queue[1..][k - 1];
      acts, v := DeliverUpTo(u, g, k - 1);
      ThenSteps(w, [Deliver], u, acts, v);
      acts := [Deliver] + acts;
    }
  }

  /** With no session under way, delivering up to the first queued point opens a platform for it. */
  lemma {:induction false} DeliverFirst(w: World, g: nat, k: nat) returns (acts: seq<Action>, v: World)
    requires Inv(w) && w.gui.Ready? && w.alive && w.current.None? && w.id == 0
    requires k < |w.queue| && w.queue[k].NewData? && OnlyDataOf(w.queue, g)
    ensures LeadsTo(w, acts, v) && Filling(v, g) && Inv(v) && v.gui.Ready? && v.alive && v.current.None?
    ensures g < |v.gens|
    decreases k
  {
    var u := Apply(w, Deliver);
    StepKeepsInv(w, Deliver);
    DeliverFrame(w, w.queue[0].gen);
    OneStep(w, Deliver);
    if w.queue[0].NewData? {
      acts, v := [Deliver], u;
      assert Filling(v, g);
    } else {
      QueueMoves(w);
      ControlFrame(w);
      assert u.queue[k - 1] == w.queue[1..][k - 1];
      OnlyDataOfAppend(w.queue[1..], [DeferredDelete(w.queue[0].gen)], g);
      acts, v := DeliverFirst(u, g, k - 1);
      ThenSteps(w, [Deliver], u, acts, v);
      acts := [Deliver] + acts;
    }
  }

  /** The next session sends its first point while the platform of `g` is still open. */
  lemma NextSessionPosts(w: World, g: nat) returns (acts: seq<Action>, v: World)
    requires Inv(w) && w.gui.Ready? && w.alive && w.current.None? && Filling(w, g)
    ensures LeadsTo(w, acts, v) && Filling(v, g) && Inv(v) && v.gui.Ready?
    ensures v.queue != [] && v.queue[|v.queue| - 1].NewData? && v.queue[|v.queue| - 1].gen == |w.gens|
  {
    var n := |w.gens|;
    var w1 := Apply(w, GuiStart);
    OneStep(w, GuiStart);
    StepKeepsInv(w, GuiStart);
    assert w1.gens[n] == NEW_GEN;
    var w2 := WorkerMove(w1, n, Started, g);
    var w3 := WorkerMove(w2, n, Test, g);
    v := WorkerMove(w3, n, Emit, g);
    ThenSteps(w, [GuiStart], w1, [Worker(n, Started)], w2);
    ThenSteps(w, [GuiStart] + [Worker(n, Started)], w2, [Worker(n, Test)], w3);
    acts := [GuiStart] + [Worker(n, Started)] + [Worker(n, Test)];
    ThenSteps(w, acts, w3, [Worker(n, Emit)], v);
    acts := acts + [Worker(n, Emit)];
  }

  lemma WorkerMove(w: World, n: nat, step: WorkerStep, g: nat) returns (v: World)
    requires Inv(w) && w.gui.Ready? && Filling(w, g) && n < |w.gens| && WorkerEnabled(w.gens[n], step)
    ensures LeadsTo(w, [Worker(n, step)], v) && Inv(v) && v.gui.Ready? && Filling(v, g)
    ensures n < |v.gens| && v.gens[n] == WorkerGen(w.gens[n], step)
    ensures v.queue == w.queue + WorkerPosts(n, w.gens[n], step)
  {
    v := Apply(w, Worker(n, step));
    OneStep(w, Worker(n, step));
    StepKeepsInv(w, Worker(n, step));
  }

  /** `stop` runs to its end. */
  lemma Stops(w: World) returns (v: World)
    requires Inv(w) && w.gui == Stopping(false) && w.alive
    ensures LeadsTo(w, [StopEnd], v) && Inv(v) && v.gui.Ready? && v.alive && v.current.None? && v.id == 0
    ensures v.queue == w.queue
  {
    v := Apply(w, StopEnd);
    OneStep(w, StopEnd);
    StepKeepsInv(w, StopEnd);
  }

  /** A point queued when `stop` begins: the schedule in which the next session shares the platform it opens. */
  lemma LatePointSpoils(w: World, g: nat, k: nat) returns (acts: seq<Action>, v: World)
    requires Inv(w) && w.gui == Stopping(false) && w.alive
    requires k < |w.queue| && w.queue[k].NewData? && OnlyDataOf(w.queue, g)
    ensures LeadsTo(w, acts, v) && !TracksGood(v)
  {
    var w1 := Stops(w);
    var acts2, w2 := DeliverFirst(w1, g, k);
    ThenSteps(w, [StopEnd], w1, acts2, w2);
    var acts3, w3 := NextSessionPosts(w2, g);
    ThenSteps(w, [StopEnd] + acts2, w2, acts3, w3);
    var acts4, w4 := DeliverUpTo(w3, g, |w3.queue| - 1);
    ThenSteps(w, [StopEnd] + acts2 + acts3, w3, acts4, w4);
    acts, v := [StopEnd] + acts2 + acts3 + acts4, w4;
    assert !TrackOf(v, v.id - 1, g);
  }

  /** The quiet run keeps the tracks good. */
  ghost predicate StaysGood(w: World, acts: seq<Action>) {
    QuietRun(w, acts) ==> Exec(w, acts).Some? && TracksGood(Exec(w, acts).value)
  }

  /**
    Beginning `stop` during a session keeps the store good in every quiet continuation exactly when no point is
    queued at that moment; otherwise some continuation, without another `stop`, mixes two sessions on one platform.
   */
  lemma StopIsSafeIff(acts: seq<Action>)
    requires QuietRun(INITIAL, acts) && Exec(INITIAL, acts).Some?
    requires Exec(INITIAL, acts).value.current.Some? && Exec(INITIAL, acts).value.gui.Ready?
    ensures var w := Exec(INITIAL, acts).value;
            && Enabled(w, StopBegin(false))
            && (NoData(w.queue) <==> forall more :: StaysGood(Apply(w, StopBegin(false)), more))
  {
    QuietRunKeepsQuiet(INITIAL, acts);
    var w := Exec(INITIAL, acts).value;
    var v := Apply(w, StopBegin(false));
    if NoData(w.queue) {
      StopBeginKeepsQuiet(w, false);
      forall more ensures StaysGood(v, more) {
        if QuietRun(v, more) {
          QuietRunKeepsQuiet(v, more);
        }
      }
    } else {
      var k :| 0 <= k < |w.queue| && w.queue[k].NewData?;
      StepKeepsInv(w, StopBegin(false));
      var more, u := LatePointSpoils(v, w.current.value, k);
      WithoutStopIsQuiet(v, more);
      assert !StaysGood(v, more);
    }
  }

  lemma RunSnoc(w: World, acts: seq<Action>, a: Action)
    requires Exec(w, acts).Some? && Enabled(Exec(w, acts).value, a)
    ensures Exec(w, acts + [a]) == Some(Apply(Exec(w, acts).value, a))
  {
    assert (acts + [a])[..|acts|] == acts;
  }

  /** The failing side is reached: a session that has just sent its first point. */
  lemma PointCanBeQueued()
    ensures var acts := [GuiStart, Worker(0, Started), Worker(0, Test), Worker(0, Emit)];
            && QuietRun(INITIAL, acts) && Exec(INITIAL, acts).Some?
            && var w := Exec(INITIAL, acts).value;
               w.current == Some(0) && w.gui.Ready? && !NoData(w.queue) && Enabled(w, StopBegin(false)) &&
               exists more :: !StaysGood(Apply(w, StopBegin(false)), more)
  {
    var a0: seq<Action>, a1 := [], [GuiStart];
    var a2, a3 := a1 + [Worker(0, Started)], a1 + [Worker(0, Started)] + [Worker(0, Test)];
    var acts := a3 + [Worker(0, Emit)];
    assert a0 + [GuiStart] == a1;
    RunSnoc(INITIAL, a0, GuiStart);
    assert Exec(INITIAL, a1).value.gens == [NEW_GEN];
    RunSnoc(INITIAL, a1, Worker(0, Started));
    RunSnoc(INITIAL, a2, Worker(0, Test));
    RunSnoc(INITIAL, a3, Worker(0, Emit));
    var w := Exec(INITIAL, acts).value;
    assert w.current == Some(0) && |w.queue| == 1 && w.queue[0].NewData?;
    WithoutStopIsQuiet(INITIAL, acts);
    StopIsSafeIff(acts);
    assert acts == [GuiStart, Worker(0, Started), Worker(0, Test), Worker(0, Emit)];
  }
}
