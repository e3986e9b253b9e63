/** Dragging the map scale around the screen. */
module MapScale {

  datatype Vec = Vec(x: real, y: real) {
    function Plus(v: Vec): Vec {
      Vec(x + v.x, y + v.y)
    }

    function Minus(v: Vec): Vec {
      Vec(x - v.x, y - v.y)
    }
  }

  datatype Size = Size(width: real, height: real)

  datatype Kind = Move | Release | Drag | Push(left: bool) | OtherKind

  /** A mouse event in logical coordinates, and the size of the scale at that moment. */
  datatype Event = Event(kind: Kind, mouse: Vec, size: Size)

  // ------------------------------------------------------------------- values

  datatype State = State(
    trans: Vec,          // the lower left corner of the scale's box
    clicked: bool,
    clickPos: Vec,
    startingPos: Vec,
    outlineShown: bool,
    outlineSize: Size)

  const ORIGIN := Vec(0.0, 0.0)

  function NewState(trans: Vec): State {
    State(trans, false, ORIGIN, ORIGIN, false, Size(510.0, 110.0))
  }

  predicate InBox(trans: Vec, size: Size, pos: Vec) {
    trans.x <= pos.x <= trans.x + size.width && trans.y <= pos.y <= trans.y + size.height
  }

  function Dragged(s: State, mouse: Vec): State {
    s.(trans := s.startingPos.Plus(mouse.Minus(s.clickPos)))
  }

  function Step(s: State, e: Event): State {
    match e.kind
    case Move =>
      if InBox(s.trans, e.size, e.mouse)
      then s.(outlineShown := true, outlineSize := Size(e.size.width + 10.0, e.size.height + 10.0))
      else s.(outlineShown := false)
    case Release => if s.clicked then Dragged(s, e.mouse).(outlineShown := true, clicked := false) else s
    case Drag => if s.clicked then Dragged(s, e.mouse) else s
    case Push(left) =>
      if !left then s
      else if InBox(s.trans, e.size, e.mouse)
      then s.(clickPos := e.mouse, startingPos := s.trans, clicked := true, outlineShown := false)
      else s.(clickPos := e.mouse)
    case OtherKind => s
  }

  predicate Consumed(s: State, e: Event) {
    match e.kind
    case Release => s.clicked
    case Drag => s.clicked
    case Push(left) => left && InBox(s.trans, e.size, e.mouse)
    case Move => false
    case OtherKind => false
  }

  function Run(s: State, es: seq<Event>): State {
    if es == [] then s else Step(Run(s, es[..|es| - 1]), es[|es| - 1])
  }

  // -------------------------------------------------------------------- class

  class TranslateMapScaleHandler {
    var width: real           // the scale's, which changes with the view
    var height: real
    var trans: Vec
    var outlineShown: bool
    var outlineSize: Size
    var clicked: bool
    var clickPos: Vec
    var startingPos: Vec

    function Abs(): State
      reads this
    {
      State(trans, clicked, clickPos, startingPos, outlineShown, outlineSize)
    }

    constructor (trans: Vec, size: Size)
      ensures Abs() == NewState(trans) && Size(width, height) == size
      ensures !clicked && !outlineShown && outlineSize == Size(510.0, 110.0) && this.trans == trans
    {
      this.trans, width, height := trans, size.width, size.height;
      outlineShown, outlineSize := false, Size(510.0, 110.0);
      clicked, clickPos, startingPos := false, ORIGIN, ORIGIN;
    }

    method Handle(e: Event) returns (handled: bool)
      requires e.size == Size(width, height)
      modifies this
      ensures Abs() == Step(old(Abs()), e) && handled == Consumed(old(Abs()), e)
      ensures width == old(width) && height == old(height)
    {
      match e.kind {
        case Move =>
          var inside := IsInside(e.mouse);
          if inside {
            outlineSize, outlineShown := Size(width + 10.0, height + 10.0), true;
          } else {
            outlineShown := false;
          }
        case Release =>
          if clicked {
            ProcessDrag(e.mouse);
            outlineShown := true;
            clicked := false;
            return true;
          }
        case Drag =>
          if clicked {
            ProcessDrag(e.mouse);
            return true;
          }
        case Push(left) =>
          if left {
            clickPos := e.mouse;
            var inside := IsInside(clickPos);
            if inside {
              startingPos := trans;
              clicked := true;
              outlineShown := false;
              return true;
            }
          }
        case OtherKind =>
      }
      handled := false;
    }

    /** Tests the four sides in turn. */
    method IsInside(pos: Vec) returns (inside: bool)
      ensures inside <==> InBox(trans, Size(width, height), pos)
    {
      if pos.x < trans.x || pos.y < trans.y {
        return false;
      }
      if pos.x > trans.x + width {
        return false;
      }
      if pos.y > trans.y + height {
        return false;
      }
      inside := true;
    }

    method ProcessDrag(newMousePos: Vec)
      modifies `trans
      ensures Abs() == Dragged(old(Abs()), newMousePos)
    {
      var delta := newMousePos.Minus(clickPos);
      trans := startingPos.Plus(delta);
    }
  }

  // ------------------------------------------------------------- path independence

  predicate NoLeftPush(es: seq<Event>) {
    forall i :: 0 <= i < |es| ==> es[i].kind != Push(true)
  }

  predicate NoRelease(es: seq<Event>) {
    forall i :: 0 <= i < |es| ==> !es[i].kind.Release?
  }

  lemma {:induction false} RunConcat(s: State, a: seq<Event>, b: seq<Event>)
    ensures Run(s, a + b) == Run(Run(s, a), b)
  {
    if b == [] {
      assert a + b == a;
    } else {
      RunConcat(s, a, b[..|b| - 1]);
      assert (a + b)[..|a + b| - 1] == a + b[..|b| - 1];
    }
  }

  /** While nothing is grabbed only a left push changes more than the outline. */
  lemma {:induction false} Idle(s: State, es: seq<Event>)
    requires !s.clicked && NoLeftPush(es)
    ensures !Run(s, es).clicked && Run(s, es).trans == s.trans
  {
    if es != [] {
      Idle(s, es[..|es| - 1]);
    }
  }

  /** During a drag the grab itself stays as it is. */
  lemma {:induction false} Holding(s: State, es: seq<Event>)
    requires s.clicked && NoLeftPush(es) && NoRelease(es)
    ensures var v := Run(s, es);
            v.clicked && v.startingPos == s.startingPos && v.clickPos == s.clickPos
  {
    if es != [] {
      Holding(s, es[..|es| - 1]);
    }
  }

  /** A left push, the release after it, and what happens before and in between. */
  datatype Gesture = Gesture(before: seq<Event>, push: Event, between: seq<Event>, release: Event)

  predicate IsGesture(g: Gesture) {
    && NoLeftPush(g.before) && g.push.kind == Push(true)
    && NoLeftPush(g.between) && NoRelease(g.between) && g.release.kind == Release
  }

  function Events(g: Gesture): seq<Event> {
    g.before + ([g.push] + g.between + [g.release])
  }

  function AllEvents(gs: seq<Gesture>): seq<Event> {
    if gs == [] then [] else AllEvents(gs[..|gs| - 1]) + Events(gs[|gs| - 1])
  }

  /** Where the box should end up: each gesture that begins on it moves it by the way from push to release. */
  function Intended(trans: Vec, gs: seq<Gesture>): Vec {
    if gs == [] then trans
    else
      var g := gs[|gs| - 1];
      var t := Intended(trans, gs[..|gs| - 1]);
      if InBox(t, g.push.size, g.push.mouse) then t.Plus(g.release.mouse.Minus(g.push.mouse)) else t
  }

  /** Any left push, in any state, and the release after it. */
  lemma AfterRelease(s: State, push: Event, between: seq<Event>, release: Event)
    requires push.kind == Push(true) && NoLeftPush(between) && NoRelease(between) && release.kind == Release
    ensures var v := Run(s, [push] + between + [release]);
            var p := Step(s, push);
            && !v.clicked
            && v.trans == (if p.clicked then p.startingPos.Plus(release.mouse.Minus(push.mouse)) else s.trans)
  {
    var p := Step(s, push);
    assert [push][..0] == [];
    assert Run(s, [push]) == p;
    RunConcat(s, [push], between);
    assert ([push] + between + [release])[..1 + |between|] == [push] + between;
    if p.clicked {
      Holding(p, between);
    } else {
      Idle(p, between);
    }
  }

  lemma GestureMoves(s: State, g: Gesture)
    requires IsGesture(g) && !s.clicked
    ensures !Run(s, Events(g)).clicked && Run(s, Events(g)).trans == Intended(s.trans, [g])
  {
    Idle(s, g.before);
    var b := Run(s, g.before);
    RunConcat(s, g.before, [g.push] + g.between + [g.release]);
    AfterRelease(b, g.push, g.between, g.release);
    assert [g][..0] == [];
    assert Intended(s.trans, []) == s.trans;
  }

  /**
    When left pushes and releases alternate, the box ends up where it was, moved by release minus push for each
    gesture that began on it, whatever moves, drags and other events come before, between and after.
   */
  lemma {:induction false} DragIsPathIndependent(s: State, gs: seq<Gesture>, after: seq<Event>)
    requires !s.clicked && NoLeftPush(after) && forall i :: 0 <= i < |gs| ==> IsGesture(gs[i])
    ensures Run(s, AllEvents(gs) + after).trans == Intended(s.trans, gs)
    ensures !Run(s, AllEvents(gs) + after).clicked
  {
    RunConcat(s, AllEvents(gs), after);
    if gs != [] {
      var front, g := gs[..|gs| - 1], gs[|gs| - 1];
      DragIsPathIndependent(s, front, []);
      assert AllEvents(front) + [] == AllEvents(front);
      RunConcat(s, AllEvents(front), Events(g));
      GestureMoves(Run(s, AllEvents(front)), g);
      assert [g][..0] == [];
      assert Intended(Intended(s.trans, front), []) == Intended(s.trans, front);
    }
    Idle(Run(s, AllEvents(gs)), after);
  }

  /**
    The grip: when something is held after a left push, the box is at the same place relative to the mouse at the
    release as it was at the push exactly when the push was on the box or the box had not been moved since the
    earlier push that took hold of it; otherwise it jumps.
   */
  lemma GripIsKeptIff(s: State, push: Event, between: seq<Event>, release: Event)
    requires push.kind == Push(true) && NoLeftPush(between) && NoRelease(between) && release.kind == Release
    requires Step(s, push).clicked
    ensures var v := Run(s, [push] + between + [release]);
            v.trans.Minus(release.mouse) == s.trans.Minus(push.mouse) <==>
              InBox(s.trans, push.size, push.mouse) || s.startingPos == s.trans
  {
    AfterRelease(s, push, between, release);
    var v := Run(s, [push] + between + [release]);
    if !InBox(s.trans, push.size, push.mouse) {
      assert v.trans == s.startingPos.Plus(release.mouse.Minus(push.mouse));
    }
  }

  /** A box of unchanged size that was pushed on holds the mouse when it is released. */
  lemma MouseEndsInside(s: State, push: Event, between: seq<Event>, release: Event)
    requires push.kind == Push(true) && NoLeftPush(between) && NoRelease(between) && release.kind == Release
    requires InBox(s.trans, push.size, push.mouse) && release.size == push.size
    ensures InBox(Run(s, [push] + between + [release]).trans, release.size, release.mouse)
  {
    AfterRelease(s, push, between, release);
  }

  /** A push off the box during a drag, and the box jumps although mouse and button end where they were. */
  lemma StrayPushJumps()
    ensures var size := Size(100.0, 50.0);
            var grab := Event(Push(true), Vec(10.0, 10.0), size);
            var drag := Event(Drag, Vec(30.0, 10.0), size);
            var stray := Event(Push(true), Vec(300.0, 10.0), size);
            var release := Event(Release, Vec(300.0, 10.0), size);
            && Run(NewState(ORIGIN), [grab, drag]).trans == Vec(20.0, 0.0)
            && Run(NewState(ORIGIN), [grab, drag] + ([stray] + [] + [release])).trans == ORIGIN
  {
    var size := Size(100.0, 50.0);
    var grab := Event(Push(true), Vec(10.0, 10.0), size);
    var drag := Event(Drag, Vec(30.0, 10.0), size);
    var stray := Event(Push(true), Vec(300.0, 10.0), size);
    var release := Event(Release, Vec(300.0, 10.0), size);
    var s := NewState(ORIGIN);
    assert [grab][..0] == [];
    assert Run(s, [grab]) == Step(s, grab);
    assert [grab, drag][..1] == [grab];
    RunConcat(s, [grab, drag], [stray] + [] + [release]);
    AfterRelease(Run(s, [grab, drag]), stray, [], release);
  }

  // ---------------------------------------------------------- what the map still sees

  /**
    With nothing grabbed an event is kept from the map exactly when it begins a grab; during a grab exactly the
    releases, the drags and the left pushes on the box are.
   */
  lemma ConsumedIff(s: State, e: Event)
    ensures !s.clicked ==> (Consumed(s, e) <==> Step(s, e).clicked)
    ensures s.clicked ==>
              (Consumed(s, e) <==>
                 || e.kind == Release || e.kind == Drag
                 || (e.kind == Push(true) && InBox(s.trans, e.size, e.mouse)))
  {
  }

  /** The `i`-th of the events is kept from the map. */
  predicate ConsumedAt(s: State, es: seq<Event>, i: nat) {
    i < |es| && Consumed(Run(s, es[..i]), es[i])
  }

  lemma ConsumedLater(s: State, a: seq<Event>, b: seq<Event>, i: nat)
    requires i < |b|
    ensures ConsumedAt(s, a + b, |a| + i) <==> ConsumedAt(Run(s, a), b, i)
  {
    assert (a + b)[..|a| + i] == a + b[..i];
    RunConcat(s, a, b[..i]);
  }

  lemma NoneConsumed(s: State, es: seq<Event>, i: nat)
    requires !s.clicked && NoLeftPush(es) && i < |es|
    ensures !ConsumedAt(s, es, i)
  {
    Idle(s, es[..i]);
  }

  /** Of the events from a left push to its release: all but those between that are not drags, or none. */
  lemma GrabConsumes(s: State, push: Event, between: seq<Event>, release: Event, i: nat)
    requires !s.clicked && push.kind == Push(true) && release.kind == Release
    requires NoLeftPush(between) && NoRelease(between)
    requires i < |between| + 2
    ensures ConsumedAt(s, [push] + between + [release], i) <==>
              && InBox(s.trans, push.size, push.mouse)
              && (i == 0 || i == |between| + 1 || between[i - 1].kind == Drag)
  {
    var es, p := [push] + between + [release], Step(s, push);
    assert [push][..0] == [];
    assert Run(s, [push]) == p;
    if i == 0 {
      assert es[..0] == [];
    } else {
      assert es[..i] == [push] + between[..i - 1];
      RunConcat(s, [push], between[..i - 1]);
      if p.clicked {
        Holding(p, between[..i - 1]);
      } else {
        Idle(p, between[..i - 1]);
      }
      assert i <= |between| ==> es[i] == between[i - 1];
    }
  }

  /**
    Over a gesture: of one that begins on the box exactly the push, the drags after it and the release are kept from
    the map, and of one that begins off it nothing is.
   */
  lemma GestureConsumes(s: State, g: Gesture, i: nat)
    requires IsGesture(g) && !s.clicked && i < |Events(g)|
    ensures ConsumedAt(s, Events(g), i) <==>
              && InBox(s.trans, g.push.size, g.push.mouse)
              && (i == |g.before| || i == |Events(g)| - 1 || (i > |g.before| && Events(g)[i].kind == Drag))
  {
    var es, rest := Events(g), [g.push] + g.between + [g.release];
    if i < |g.before| {
      assert es[..i] == g.before[..i] && es[i] == g.before[i];
      NoneConsumed(s, g.before, i);
    } else {
      var j := i - |g.before|;
      Idle(s, g.before);
      ConsumedLater(s, g.before, rest, j);
      GrabConsumes(Run(s, g.before), g.push, g.between, g.release, j);
      assert 0 < j <= |g.between| ==> es[i] == g.between[j - 1];
    }
  }

  // ------------------------------------------------------------- box and outline

  /** The box is the rectangle of the scale's size with its lower left corner at the translation, edges included. */
  lemma BoxIsRectangle(trans: Vec, size: Size, pos: Vec)
    ensures InBox(trans, size, pos) <==>
              exists v: Vec :: 0.0 <= v.x <= size.width && 0.0 <= v.y <= size.height && trans.Plus(v) == pos
  {
    var v := pos.Minus(trans);
    assert trans.Plus(v) == pos;
    if InBox(trans, size, pos) {
      assert 0.0 <= v.x <= size.width && 0.0 <= v.y <= size.height;
    }
  }

  /** The event decides whether the outline is shown. */
  predicate Decides(s: State, e: Event) {
    e.kind == Move || (e.kind == Release && s.clicked) || (e.kind == Push(true) && InBox(s.trans, e.size, e.mouse))
  }

  /** The last of the events that decided it. */
  function LastDecision(s: State, es: seq<Event>): (r: int)
    ensures -1 <= r < |es|
    ensures r >= 0 ==> Decides(Run(s, es[..r]), es[r])
    ensures forall i :: r < i < |es| ==> !Decides(Run(s, es[..i]), es[i])
  {
    if es == [] then -1
    else if Decides(Run(s, es[..|es| - 1]), es[|es| - 1]) then |es| - 1
    else
      var r := LastDecision(s, es[..|es| - 1]);
      assert forall i :: 0 <= i < |es| - 1 ==> es[..|es| - 1][..i] == es[..i];
      r
  }

  /**
    The outline is shown exactly when the last event to decide it was the release of a grab, or a move of the mouse
    within the box; a push that grabs hides it.
   */
  lemma {:induction false} OutlineIff(s: State, es: seq<Event>)
    ensures var r := LastDecision(s, es);
            Run(s, es).outlineShown <==>
              if r < 0 then s.outlineShown
              else
                || es[r].kind == Release
                || (es[r].kind == Move && InBox(Run(s, es[..r]).trans, es[r].size, es[r].mouse))
  {
    if es != [] {
      var front := es[..|es| - 1];
      OutlineIff(s, front);
      var r := LastDecision(s, front);
      assert r >= 0 ==> front[..r] == es[..r];
    }
  }

  /** When the mouse moves within the box the outline is fitted around it, five wider on each side. */
  lemma OutlineFits(s: State, e: Event)
    requires e.kind == Move
    ensures var v := Step(s, e);
            && v.trans == s.trans && v.clicked == s.clicked
            && (InBox(s.trans, e.size, e.mouse) ==>
                  v.outlineShown && v.outlineSize == Size(e.size.width + 10.0, e.size.height + 10.0))
            && (!InBox(s.trans, e.size, e.mouse) ==> !v.outlineShown && v.outlineSize == s.outlineSize)
  {
  }
}
