/** How often the engine is called and creates, and when each generator is idled and fires, at any clock readings. */
module DataEngineTiming {
  import opened DataEngineModel

  // ------------------------------------------------------- spaced clock readings

  /** Each reading is at least `gap` after the one before. */
  predicate Spaced(ts: seq<real>, gap: real) {
    forall i :: 1 <= i < |ts| ==> ts[i] >= ts[i - 1] + gap
  }

  /** Each reading is more than `gap` after the one before, the first more than `gap` after 0. */
  predicate Apart(ts: seq<real>, gap: real) {
    && (ts != [] ==> ts[0] > gap)
    && (forall i :: 1 <= i < |ts| ==> ts[i] > ts[i - 1] + gap)
  }

  function CountIn(ts: seq<real>, lo: real, hi: real): nat {
    if ts == [] then 0
    else CountIn(ts[..|ts| - 1], lo, hi) + if lo <= ts[|ts| - 1] <= hi then 1 else 0
  }

  lemma {:induction false} EarlierAreLower(ts: seq<real>, gap: real, i: nat)
    requires Spaced(ts, gap) && gap >= 0.0 && i + 1 < |ts|
    ensures ts[i] <= ts[|ts| - 1] - gap
  {
    if i + 2 < |ts| {
      EarlierAreLower(ts[..|ts| - 1], gap, i);
    }
  }

  /** Raising the upper end of the interval beyond every reading changes nothing. */
  lemma {:induction false} SameCount(ts: seq<real>, lo: real, hi: real, hi2: real)
    requires hi <= hi2 && forall i :: 0 <= i < |ts| ==> ts[i] <= hi
    ensures CountIn(ts, lo, hi) == CountIn(ts, lo, hi2)
  {
    if ts != [] {
      SameCount(ts[..|ts| - 1], lo, hi, hi2);
    }
  }

  /** The length of `n` gaps. */
  function Span(n: nat, gap: real): real {
    if n == 0 then 0.0 else Span(n - 1, gap) + gap
  }

  lemma {:induction false} CountSpan(ts: seq<real>, gap: real, lo: real, hi: real)
    requires Spaced(ts, gap) && gap > 0.0 && CountIn(ts, lo, hi) > 0
    ensures Span(CountIn(ts, lo, hi) - 1, gap) <= hi - lo
    decreases |ts|
  {
    var front, x := ts[..|ts| - 1], ts[|ts| - 1];
    if lo <= x <= hi {
      forall i | 0 <= i < |front| ensures front[i] <= x - gap {
        EarlierAreLower(ts, gap, i);
      }
      SameCount(front, lo, x - gap, hi);
      if CountIn(front, lo, hi) > 0 {
        CountSpan(front, gap, lo, x - gap);
      }
    } else {
      CountSpan(front, gap, lo, hi);
    }
  }

  lemma {:induction false} SpanIsProduct(n: nat, gap: real)
    ensures Span(n, gap) == n as real * gap
  {
    if n > 0 {
      SpanIsProduct(n - 1, gap);
    }
  }

  lemma FitsInto(a: real, b: real, gap: real)
    requires a * gap <= b && gap > 0.0
    ensures a <= b / gap
  {
    assert (a - b / gap) * gap == a * gap - b;
  }

  /** At most floor(W / gap) + 1 spaced readings fall into any interval of length W. */
  lemma CountBound(ts: seq<real>, gap: real, lo: real, hi: real)
    requires Spaced(ts, gap) && gap > 0.0 && lo <= hi
    ensures CountIn(ts, lo, hi) <= ((hi - lo) / gap).Floor + 1
  {
    var c := CountIn(ts, lo, hi);
    if c > 0 {
      CountSpan(ts, gap, lo, hi);
      SpanIsProduct(c - 1, gap);
      FitsInto((c - 1) as real, hi - lo, gap);
    } else {
      FitsInto(0.0, hi - lo, gap);
    }
  }

  // ------------------------------------------------------------------ throttles

  function Ats(calls: seq<Call>): seq<real> {
    if calls == [] then [] else Ats(calls[..|calls| - 1]) + [calls[|calls| - 1].at]
  }

  /** The engine's readings in the calls that created a platform. */
  function Creations(calls: seq<Call>): seq<real> {
    if calls == [] then []
    else Creations(calls[..|calls| - 1]) + if calls[|calls| - 1].created then [calls[|calls| - 1].now] else []
  }

  function LastOr(ts: seq<real>, default: real): real {
    if ts == [] then default else ts[|ts| - 1]
  }

  predicate Throttled(s: Server) {
    && Apart(Ats(s.calls), IDLE_TIMEOUT) && s.lastIdle == LastOr(Ats(s.calls), 0.0)
    && Apart(Creations(s.calls), NEW_PLATFORM_TIMEOUT) && s.engine.lastCreateTime == LastOr(Creations(s.calls), 0.0)
    && |Creations(s.calls)| == |s.engine.platforms| <= NUM_ROTATING_PLATFORMS
  }

  lemma ApartGrows(ts: seq<real>, gap: real, t: real)
    requires Apart(ts, gap) && t > LastOr(ts, 0.0) + gap
    ensures Apart(ts + [t], gap) && LastOr(ts + [t], 0.0) == t
  {
  }

  lemma HandleThrottles(s: Server, ev: Event)
    requires Throttled(s)
    ensures Throttled(Handle(s, ev))
  {
    var v := Handle(s, ev);
    if v.calls != s.calls {
      assert v.calls[..|v.calls| - 1] == s.calls;
      ApartGrows(Ats(s.calls), IDLE_TIMEOUT, ev.at);
      if CreatesAt(s.engine, ev.now) {
        ApartGrows(Creations(s.calls), NEW_PLATFORM_TIMEOUT, ev.now);
      }
    }
  }

  lemma {:induction false} ThrottledAlways(store: seq<Entity>, evs: seq<Event>)
    ensures Throttled(Serve(NewServer(store), evs))
  {
    if evs != [] {
      ThrottledAlways(store, evs[..|evs| - 1]);
      HandleThrottles(Serve(NewServer(store), evs[..|evs| - 1]), evs[|evs| - 1]);
    }
  }

  /**
    Whatever the clocks read, also backwards: calls of the engine are more than 0.05 apart on the timer's clock and
    creations more than 1.0 apart on the engine's, so an interval of length W holds at most floor(20 W) + 1 of the
    former and floor(W) + 1 of the latter, and there are never more than ten.
   */
  lemma ThrottleBounds(store: seq<Entity>, evs: seq<Event>, lo: real, hi: real)
    requires lo <= hi
    ensures var s := Serve(NewServer(store), evs);
            && Apart(Ats(s.calls), 0.05) && Apart(Creations(s.calls), 1.0)
            && CountIn(Ats(s.calls), lo, hi) <= (20.0 * (hi - lo)).Floor + 1
            && CountIn(Creations(s.calls), lo, hi) <= (hi - lo).Floor + 1
            && |Creations(s.calls)| == |s.engine.platforms| <= 10
  {
    var s := Serve(NewServer(store), evs);
    ThrottledAlways(store, evs);
    CountBound(Ats(s.calls), 0.05, lo, hi);
    CountBound(Creations(s.calls), 1.0, lo, hi);
    assert (hi - lo) / 0.05 == 20.0 * (hi - lo);
    assert (hi - lo) / 1.0 == hi - lo;
  }

  /** The frames at which the engine is called: as soon as more than 0.05 has passed on the timer's clock. */
  function Called(evs: seq<Event>): (r: seq<Event>)
    ensures forall i :: 0 <= i < |r| ==> r[i].Frame?
  {
    if evs == [] then []
    else
      var before, ev := Called(evs[..|evs| - 1]), evs[|evs| - 1];
      if ev.Frame? && ev.at > (if before == [] then 0.0 else before[|before| - 1].at) + 0.05
      then before + [ev] else before
  }

  /** The readings at which a platform is created: as soon as more than 1.0 has passed on the engine's, up to ten. */
  function CreatedAt(frames: seq<Event>): seq<real>
    requires forall i :: 0 <= i < |frames| ==> frames[i].Frame?
  {
    if frames == [] then []
    else
      var before, now := CreatedAt(frames[..|frames| - 1]), frames[|frames| - 1].now;
      if |before| < 10 && now > LastOr(before, 0.0) + 1.0 then before + [now] else before
  }

  /** The calls so far are those frames. */
  ghost predicate OnSchedule(s: Server, frames: seq<Event>)
    requires forall i :: 0 <= i < |frames| ==> frames[i].Frame?
  {
    && |s.calls| == |frames|
    && (forall c :: 0 <= c < |frames| ==> s.calls[c].at == frames[c].at && s.calls[c].now == frames[c].now)
    && Creations(s.calls) == CreatedAt(frames)
  }

  lemma LastAt(calls: seq<Call>)
    requires calls != []
    ensures Ats(calls) != [] && Ats(calls)[|Ats(calls)| - 1] == calls[|calls| - 1].at
  {
  }

  lemma CallKeepsSchedule(s: Server, frames: seq<Event>, ev: Event)
    requires forall i :: 0 <= i < |frames| ==> frames[i].Frame?
    requires Throttled(s) && OnSchedule(s, frames) && ev.Frame? && ev.at > s.lastIdle + IDLE_TIMEOUT
    ensures OnSchedule(Handle(s, ev), frames + [ev])
  {
    var v := Handle(s, ev);
    assert v.calls[..|v.calls| - 1] == s.calls;
    assert (frames + [ev])[..|frames|] == frames;
  }

  /**
    For every sequence of events: the engine is called at exactly the frames at which it is due, with their readings,
    and creates platforms at exactly the calls at which one is due, as long as there are fewer than ten.
   */
  lemma {:induction false} ScheduleIsExact(store: seq<Entity>, evs: seq<Event>)
    ensures OnSchedule(Serve(NewServer(store), evs), Called(evs))
    ensures |Serve(NewServer(store), evs).engine.platforms| == |CreatedAt(Called(evs))|
  {
    ThrottledAlways(store, evs);
    if evs != [] {
      var front, ev := evs[..|evs| - 1], evs[|evs| - 1];
      var s := Serve(NewServer(store), front);
      ScheduleIsExact(store, front);
      ThrottledAlways(store, front);
      if s.calls != [] {
        LastAt(s.calls);
      }
      if ev.Frame? && ev.at > s.lastIdle + IDLE_TIMEOUT {
        CallKeepsSchedule(s, Called(front), ev);
      }
    }
  }

  // ------------------------------------------------------------ idle accounting

  /** One round for each call, over the generators there were then. */
  function Rounds(calls: seq<Call>): seq<IdleCall> {
    if calls == [] then [] else Rounds(calls[..|calls| - 1]) + Round(calls[|calls| - 1].size, calls[|calls| - 1].now)
  }

  function Sizes(calls: seq<Call>): nat {
    if calls == [] then 0 else Sizes(calls[..|calls| - 1]) + calls[|calls| - 1].size
  }

  /** The times passed to the idle calls of generator `i`. */
  function TimesOf(log: seq<IdleCall>, i: nat): seq<real> {
    if log == [] then []
    else TimesOf(log[..|log| - 1], i) + if log[|log| - 1].gen == i then [log[|log| - 1].now] else []
  }

  /** The first call in which generator `i` existed. */
  function FirstCall(calls: seq<Call>, i: nat): (c: nat)
    ensures c <= |calls|
    ensures c < |calls| ==> i < calls[c].size
    ensures forall b :: 0 <= b < c ==> calls[b].size <= i
  {
    if calls == [] then 0
    else
      var c := FirstCall(calls[..|calls| - 1], i);
      if c < |calls| - 1 || i < calls[|calls| - 1].size then c else |calls|
  }

  function Nows(calls: seq<Call>): (ts: seq<real>)
    ensures |ts| == |calls| && forall c :: 0 <= c < |calls| ==> ts[c] == calls[c].now
  {
    seq(|calls|, c requires 0 <= c < |calls| => calls[c].now)
  }

  predicate Logged(s: Server) {
    s.engine.log == Rounds(s.calls)
  }

  function LastSize(calls: seq<Call>): nat {
    if calls == [] then 0 else calls[|calls| - 1].size
  }

  /** The list of generators never shrinks, and grows only in calls that create. */
  predicate Sized(calls: seq<Call>) {
    && (forall b, c :: 0 <= b < c < |calls| ==> calls[b].size <= calls[c].size)
    && (forall c :: 0 <= c < |calls| && !calls[c].created ==> calls[c].size == LastSize(calls[..c]))
  }

  predicate Accounted(s: Server) {
    Logged(s) && Sized(s.calls) && LastSize(s.calls) == |s.engine.generators|
  }

  lemma GenerateGrows(e: Engine, now: real)
    ensures var v := GenerateData(e, now);
            && |e.generators| <= |v.generators| && v.log == e.log + Round(|v.generators|, now)
            && (!CreatesAt(e, now) ==> |v.generators| == |e.generators|)
  {
  }

  lemma SizedGrows(calls: seq<Call>, call: Call)
    requires Sized(calls) && LastSize(calls) <= call.size
    requires !call.created ==> call.size == LastSize(calls)
    ensures Sized(calls + [call])
  {
    var more := calls + [call];
    forall c | 0 <= c < |more| && !more[c].created ensures more[c].size == LastSize(more[..c]) {
      assert more[..c] == calls[..c];
      assert calls[..|calls|] == calls;
    }
  }

  lemma RoundsGrow(calls: seq<Call>, call: Call)
    ensures Rounds(calls + [call]) == Rounds(calls) + Round(call.size, call.now)
  {
    assert (calls + [call])[..|calls|] == calls;
  }

  lemma HandleAccounts(s: Server, ev: Event)
    requires Accounted(s)
    ensures Accounted(Handle(s, ev))
  {
    var v := Handle(s, ev);
    if v.calls != s.calls {
      GenerateGrows(s.engine, ev.now);
      var call := v.calls[|v.calls| - 1];
      SizedGrows(s.calls, call);
      RoundsGrow(s.calls, call);
    }
  }

  lemma {:induction false} AccountedAlways(store: seq<Entity>, evs: seq<Event>)
    ensures Accounted(Serve(NewServer(store), evs))
  {
    if evs != [] {
      AccountedAlways(store, evs[..|evs| - 1]);
      HandleAccounts(Serve(NewServer(store), evs[..|evs| - 1]), evs[|evs| - 1]);
    }
  }

  lemma {:induction false} TimesAppend(a: seq<IdleCall>, b: seq<IdleCall>, i: nat)
    ensures TimesOf(a + b, i) == TimesOf(a, i) + TimesOf(b, i)
  {
    if b == [] {
      assert a + b == a;
    } else {
      TimesAppend(a, b[..|b| - 1], i);
      assert (a + b)[..|a + b| - 1] == a + b[..|b| - 1];
    }
  }

  lemma {:induction false} TimesOfRound(n: nat, now: real, i: nat)
    ensures TimesOf(Round(n, now), i) == if i < n then [now] else []
  {
    if n > 0 {
      TimesOfRound(n - 1, now, i);
      TimesAppend(Round(n - 1, now), [IdleCall(n - 1, now)], i);
      assert TimesOf([IdleCall(n - 1, now)], i) == if i == n - 1 then [now] else [] by {
        assert [IdleCall(n - 1, now)][..0] == [];
      }
    }
  }

  /** One more call adds its time for the generators it reaches. */
  lemma NowsFromFirst(calls: seq<Call>, i: nat)
    requires calls != [] && forall c :: 0 <= c < |calls| ==> calls[c].size <= calls[|calls| - 1].size
    ensures var front, last := calls[..|calls| - 1], calls[|calls| - 1];
            Nows(calls[FirstCall(calls, i)..]) ==
              Nows(front[FirstCall(front, i)..]) + if i < last.size then [last.now] else []
  {
    var front, last := calls[..|calls| - 1], calls[|calls| - 1];
    var c := FirstCall(front, i);
    if i < last.size {
      assert FirstCall(calls, i) == c;
      assert calls[c..] == front[c..] + [last];
    } else {
      assert c == |front| && FirstCall(calls, i) == |calls|;
    }
  }

  lemma {:induction false} TimesOfRounds(calls: seq<Call>, i: nat)
    requires forall b, c :: 0 <= b < c < |calls| ==> calls[b].size <= calls[c].size
    ensures TimesOf(Rounds(calls), i) == Nows(calls[FirstCall(calls, i)..])
  {
    if calls != [] {
      var front, last := calls[..|calls| - 1], calls[|calls| - 1];
      TimesOfRounds(front, i);
      TimesOfRound(last.size, last.now, i);
      TimesAppend(Rounds(front), Round(last.size, last.now), i);
      NowsFromFirst(calls, i);
    }
  }

  lemma {:induction false} RoundsLength(calls: seq<Call>)
    ensures |Rounds(calls)| == Sizes(calls)
  {
    if calls != [] {
      RoundsLength(calls[..|calls| - 1]);
    }
  }

  /**
    The idle calls are one round for each call of the engine, in the order of registration; so generator `i` is idled
    exactly once in each call from the one on that created it, with that call's time, and the total is the sum of
    the numbers of generators over the calls.
   */
  lemma IdleAccounting(store: seq<Entity>, evs: seq<Event>, i: nat)
    ensures var s := Serve(NewServer(store), evs);
            var first := FirstCall(s.calls, i);
            && s.engine.log == Rounds(s.calls) && |s.engine.log| == Sizes(s.calls)
            && TimesOf(s.engine.log, i) == Nows(s.calls[first..])
            && (first < |s.calls| <==> i < |s.engine.generators|)
            && (first < |s.calls| ==> s.calls[first].created)
  {
    var s := Serve(NewServer(store), evs);
    AccountedAlways(store, evs);
    TimesOfRounds(s.calls, i);
    RoundsLength(s.calls);
  }

  // -------------------------------------------------------- generator intervals

  /** When a generator with the given interval fires, idled at the given times: as soon as the interval has passed. */
  function Fires(interval: real, times: seq<real>): seq<real> {
    if times == [] then []
    else
      var before := Fires(interval, times[..|times| - 1]);
      var now := times[|times| - 1];
      if now >= LastOr(before, 0.0) + interval then before + [now] else before
  }

  lemma {:induction false} FiresAreSpaced(interval: real, times: seq<real>)
    ensures Spaced(Fires(interval, times), interval)
  {
    if times != [] {
      FiresAreSpaced(interval, times[..|times| - 1]);
    }
  }

  predicate InStep(g: Generator, times: seq<real>) {
    g.fired == Fires(g.interval, times) && g.lastTime == LastOr(g.fired, 0.0)
  }

  predicate AllInStep(s: Server) {
    forall i :: 0 <= i < |s.engine.generators| ==> InStep(s.engine.generators[i], TimesOf(s.engine.log, i))
  }

  /** The generators as the round of idle calls finds them. */
  function BeforeRound(e: Engine, now: real): seq<Generator> {
    if CreatesAt(e, now) then Create(e, now).generators else e.generators
  }

  lemma NewAreUnfired(e: Engine, now: real, i: nat)
    requires |e.generators| <= i < |BeforeRound(e, now)|
    ensures BeforeRound(e, now)[i].fired == [] && BeforeRound(e, now)[i].lastTime == 0.0
  {
    var ps := e.platforms + [|e.store| + 1];
    var j := i - |e.generators|;
    assert BeforeRound(e, now)[i] == Block(ps)[j];
    if j < |Lead(ps)| {
    } else if j > |Lead(ps)| {
      assert Block(ps)[j] == Trail(|ps|, ps[|ps| - 1] + 1)[j - |Lead(ps)| - 1];
    }
  }

  lemma OldKeepTheirTimes(e: Engine, now: real, i: nat)
    requires i < |e.generators|
    ensures i < |BeforeRound(e, now)|
    ensures var g := BeforeRound(e, now)[i];
            && g.fired == e.generators[i].fired && g.lastTime == e.generators[i].lastTime
            && g.interval == e.generators[i].interval
  {
  }

  lemma {:induction false} NotYetIdled(calls: seq<Call>, i: nat)
    requires forall c :: 0 <= c < |calls| ==> calls[c].size <= i
    ensures TimesOf(Rounds(calls), i) == []
  {
    if calls != [] {
      var front, last := calls[..|calls| - 1], calls[|calls| - 1];
      NotYetIdled(front, i);
      TimesOfRound(last.size, last.now, i);
      TimesAppend(Rounds(front), Round(last.size, last.now), i);
    }
  }

  lemma IdledStaysInStep(g: Generator, times: seq<real>, now: real)
    requires InStep(g, times)
    ensures InStep(Idled(g, now), times + [now])
  {
    assert (times + [now])[..|times|] == times;
  }

  lemma SizesBounded(calls: seq<Call>)
    requires Sized(calls)
    ensures forall c :: 0 <= c < |calls| ==> calls[c].size <= LastSize(calls)
  {
  }

  lemma NewAreIdle(s: Server, i: nat)
    requires Accounted(s) && |s.engine.generators| <= i
    ensures TimesOf(s.engine.log, i) == []
  {
    SizesBounded(s.calls);
    NotYetIdled(s.calls, i);
  }

  lemma UnfiredInStep(g: Generator)
    requires g.fired == [] && g.lastTime == 0.0
    ensures InStep(g, [])
  {
  }

  lemma OldStayInStep(e: Engine, now: real, i: nat, times: seq<real>)
    requires i < |e.generators| && InStep(e.generators[i], times)
    ensures i < |BeforeRound(e, now)| && InStep(BeforeRound(e, now)[i], times)
  {
    OldKeepTheirTimes(e, now, i);
  }

  lemma ReadyForRound(s: Server, now: real, i: nat)
    requires Accounted(s) && AllInStep(s) && i < |BeforeRound(s.engine, now)|
    ensures InStep(BeforeRound(s.engine, now)[i], TimesOf(s.engine.log, i))
  {
    if i < |s.engine.generators| {
      OldStayInStep(s.engine, now, i, TimesOf(s.engine.log, i));
    } else {
      NewAreUnfired(s.engine, now, i);
      NewAreIdle(s, i);
      UnfiredInStep(BeforeRound(s.engine, now)[i]);
    }
  }

  lemma RoundIdlesEach(e: Engine, now: real, i: nat)
    requires i < |GenerateData(e, now).generators|
    ensures i < |BeforeRound(e, now)| && GenerateData(e, now).generators[i] == Idled(BeforeRound(e, now)[i], now)
    ensures TimesOf(GenerateData(e, now).log, i) == TimesOf(e.log, i) + [now]
  {
    var n := |GenerateData(e, now).generators|;
    TimesAppend(e.log, Round(n, now), i);
    TimesOfRound(n, now, i);
  }

  lemma HandleKeepsInStep(s: Server, ev: Event)
    requires Accounted(s) && AllInStep(s)
    ensures AllInStep(Handle(s, ev))
  {
    var v := Handle(s, ev);
    if v.calls != s.calls {
      forall i | 0 <= i < |v.engine.generators| ensures InStep(v.engine.generators[i], TimesOf(v.engine.log, i)) {
        RoundIdlesEach(s.engine, ev.now, i);
        ReadyForRound(s, ev.now, i);
        IdledStaysInStep(BeforeRound(s.engine, ev.now)[i], TimesOf(s.engine.log, i), ev.now);
      }
    }
  }

  lemma {:induction false} InStepAlways(store: seq<Entity>, evs: seq<Event>)
    ensures AllInStep(Serve(NewServer(store), evs))
  {
    if evs != [] {
      InStepAlways(store, evs[..|evs| - 1]);
      AccountedAlways(store, evs[..|evs| - 1]);
      HandleKeepsInStep(Serve(NewServer(store), evs[..|evs| - 1]), evs[|evs| - 1]);
    }
  }

  /**
    Each generator fires at exactly the engine times since its creation at which its interval had passed since it
    last fired; so, with a positive interval, at most floor(W / interval) + 1 times in any interval of length W.
   */
  lemma FiringBounds(store: seq<Entity>, evs: seq<Event>, i: nat, lo: real, hi: real)
    requires i < |Serve(NewServer(store), evs).engine.generators| && lo <= hi
    ensures var s := Serve(NewServer(store), evs);
            var g := s.engine.generators[i];
            && g.fired == Fires(g.interval, Nows(s.calls[FirstCall(s.calls, i)..]))
            && Spaced(g.fired, g.interval)
            && (g.interval > 0.0 ==> CountIn(g.fired, lo, hi) <= ((hi - lo) / g.interval).Floor + 1)
  {
    InStepAlways(store, evs);
    IdleAccounting(store, evs, i);
    var s := Serve(NewServer(store), evs);
    var g := s.engine.generators[i];
    assert InStep(g, TimesOf(s.engine.log, i));
    FiresAreSpaced(g.interval, TimesOf(s.engine.log, i));
    if g.interval > 0.0 {
      CountBound(g.fired, g.interval, lo, hi);
    }
  }
}
