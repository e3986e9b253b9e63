/** The render engines of the custom rendering and picking examples. */
module CustomRendering {
  import opened Cycles

  // ------------------------------------------------------------ pulsating scale

  datatype Scale = Scale(x: int, y: int)

  const START := Scale(100, 100)

  class RenderEngine {
    var scale: Scale
    var rendered: seq<Scale>   // the scales given to the transform so far

    /** Whatever updates came before: the `i`-th scale rendered is the closed form at `i`. */
    ghost predicate Valid()
      reads this
    {
      && scale == ScaleAt(|rendered|)
      && forall i :: 0 <= i < |rendered| ==> rendered[i] == ScaleAt(i)
    }

    constructor ()
      ensures Valid() && scale == START && rendered == []
    {
      scale, rendered := START, [];
    }

    /** One update: renders the current scale and moves on to the next one, unless the node is not valid. */
    method Update(nodeValid: bool) returns (ok: bool)
      requires Valid()
      modifies this
      ensures Valid() && ok == nodeValid
      ensures scale == if ok then NextScale(old(scale)) else old(scale)
      ensures rendered == if ok then old(rendered) + [old(scale)] else old(rendered)
    {
      if !nodeValid {
        return false;
      }
      NextX(|rendered|);
      NextY(|rendered|);
      rendered := rendered + [scale];
      scale := scale.(x := scale.x + 3);
      if scale.x > 200 {
        scale := scale.(x := 100);
      }
      scale := scale.(y := scale.y + 2);
      if scale.y > 200 {
        scale := scale.(y := 100);
      }
      ok := true;
    }
  }

  function NextScale(s: Scale): Scale {
    Scale(if s.x + 3 > 200 then 100 else s.x + 3, if s.y + 2 > 200 then 100 else s.y + 2)
  }

  function Iterated(n: nat): Scale {
    if n == 0 then START else NextScale(Iterated(n - 1))
  }

  function XAt(n: nat): int {
    100 + 3 * (n % 34)
  }

  function YAt(n: nat): int {
    100 + 2 * (n % 51)
  }

  /** The closed form: 34 widths and 51 heights, each in its own cycle. */
  function ScaleAt(n: nat): Scale {
    Scale(XAt(n), YAt(n))
  }

  lemma NextX(n: nat)
    ensures XAt(n + 1) == if XAt(n) + 3 > 200 then 100 else XAt(n) + 3
  {
    NextPhase(n, 34);
  }

  lemma NextY(n: nat)
    ensures YAt(n + 1) == if YAt(n) + 2 > 200 then 100 else YAt(n) + 2
  {
    NextPhase(n, 51);
  }

  /** The scale after `n` updates is the closed form. */
  lemma {:induction false} ScaleAtIsIterated(n: nat)
    ensures ScaleAt(n) == Iterated(n)
  {
    if n > 0 {
      ScaleAtIsIterated(n - 1);
      NextX(n - 1);
      NextY(n - 1);
    }
  }

  /** Every rendered scale lies between 100 and 200, in both directions. */
  lemma ScaleStaysInRange(n: nat)
    ensures 100 <= Iterated(n).x <= 199 && 100 <= Iterated(n).y <= 200
  {
    ScaleAtIsIterated(n);
  }

  ghost predicate IsPeriod(p: nat) {
    forall n: nat :: Iterated(n + p) == Iterated(n)
  }

  lemma MultipleOfEach(p: nat)
    requires p % 102 == 0
    ensures p % 34 == 0 && p % 51 == 0
  {
    ModOf(3 * (p / 102), 0, 34);
    ModOf(2 * (p / 102), 0, 51);
  }

  lemma MultipleOfAll(p: nat, a: nat, b: nat)
    requires p == 34 * a == 51 * b
    ensures p % 102 == 0
  {
    assert 2 * a == 3 * b;
    ModOf(b / 2, 0, 102);
  }

  lemma MultipleOfBoth(p: nat)
    ensures p % 102 == 0 <==> p % 34 == 0 && p % 51 == 0
  {
    if p % 102 == 0 {
      MultipleOfEach(p);
    }
    if p % 34 == 0 && p % 51 == 0 {
      MultipleOfAll(p, p / 34, p / 51);
    }
  }

  /** The picture repeats after exactly the multiples of 102 updates. */
  lemma PeriodIff(p: nat)
    ensures IsPeriod(p) <==> p % 102 == 0
  {
    MultipleOfBoth(p);
    if p % 34 == 0 && p % 51 == 0 {
      forall n: nat ensures Iterated(n + p) == Iterated(n) {
        ScaleAtIsIterated(n);
        ScaleAtIsIterated(n + p);
        AddPeriods(n, p, 34);
        AddPeriods(n, p, 51);
      }
    } else {
      ScaleAtIsIterated(p);
      assert Iterated(0 + p) != Iterated(0);
    }
  }

  // ---------------------------------------------------------------- unit circle

  datatype Vertex = Vertex(x: real, y: real, z: real)

  predicate TurnAt(cos: int -> real, sin: int -> real, quarter: nat, k: int) {
    cos(k + quarter) == -sin(k) && sin(k + quarter) == cos(k)
  }

  /** A quarter of the circle on, cosine becomes minus sine and sine becomes cosine. */
  ghost predicate QuarterTurn(cos: int -> real, sin: int -> real, quarter: nat) {
    forall k :: TurnAt(cos, sin, quarter, k)
  }

  lemma Turned(cos: int -> real, sin: int -> real, quarter: nat, k: int)
    requires QuarterTurn(cos, sin, quarter)
    ensures cos(k + quarter) == -sin(k) && sin(k + quarter) == cos(k)
    ensures cos(k + 2 * quarter) == -cos(k) && sin(k + 2 * quarter) == -sin(k)
    ensures cos(k + 3 * quarter) == sin(k) && sin(k + 3 * quarter) == -cos(k)
  {
    assert TurnAt(cos, sin, quarter, k);
    assert TurnAt(cos, sin, quarter, k + quarter);
    assert (k + quarter) + quarter == k + 2 * quarter;
    assert TurnAt(cos, sin, quarter, k + 2 * quarter);
    assert (k + 2 * quarter) + quarter == k + 3 * quarter;
  }

  /** The four slots filled in step `i`. */
  function Slots(i: nat, quarter: nat): seq<nat> {
    [i, i + quarter, i + 2 * quarter, i + 3 * quarter]
  }

  /** All slots filled in the first `n` steps, in order. */
  function Filled(n: nat, quarter: nat): seq<nat> {
    if n == 0 then [] else Filled(n - 1, quarter) + Slots(n - 1, quarter)
  }

  /** The four quarters of the circle, as the loop leaves them after `n` steps. */
  ghost predicate Quarters(verts: seq<Vertex>, cos: int -> real, sin: int -> real, quarter: nat, n: nat) {
    && |verts| == 4 * quarter && n <= quarter
    && (forall k :: 0 <= k < n ==> verts[k] == Vertex(cos(k), sin(k), 0.0))
    && (forall k :: 0 <= k < n ==> verts[k + quarter] == Vertex(-sin(k), cos(k), 0.0))
    && (forall k :: 0 <= k < n ==> verts[k + 2 * quarter] == Vertex(-cos(k), -sin(k), 0.0))
    && (forall k :: 0 <= k < n ==> verts[k + 3 * quarter] == Vertex(sin(k), -cos(k), 0.0))
  }

  lemma QuartersAreCircle(verts: seq<Vertex>, cos: int -> real, sin: int -> real, quarter: nat)
    requires QuarterTurn(cos, sin, quarter) && Quarters(verts, cos, sin, quarter, quarter)
    ensures forall k :: 0 <= k < |verts| ==> verts[k] == Vertex(cos(k), sin(k), 0.0)
  {
    forall k | 0 <= k < |verts| ensures verts[k] == Vertex(cos(k), sin(k), 0.0) {
      SlotIsOnCircle(verts, cos, sin, quarter, k);
    }
  }

  lemma SlotIsOnCircle(verts: seq<Vertex>, cos: int -> real, sin: int -> real, quarter: nat, k: nat)
    requires QuarterTurn(cos, sin, quarter) && Quarters(verts, cos, sin, quarter, quarter) && k < 4 * quarter
    ensures verts[k] == Vertex(cos(k), sin(k), 0.0)
  {
    if k < quarter {
    } else if k < 2 * quarter {
      Turned(cos, sin, quarter, k - quarter);
      assert verts[(k - quarter) + quarter] == Vertex(-sin(k - quarter), cos(k - quarter), 0.0);
    } else if k < 3 * quarter {
      Turned(cos, sin, quarter, k - 2 * quarter);
      assert verts[(k - 2 * quarter) + 2 * quarter] == Vertex(-cos(k - 2 * quarter), -sin(k - 2 * quarter), 0.0);
    } else {
      Turned(cos, sin, quarter, k - 3 * quarter);
      assert verts[(k - 3 * quarter) + 3 * quarter] == Vertex(sin(k - 3 * quarter), -cos(k - 3 * quarter), 0.0);
    }
  }

  function UpTo(n: nat): seq<int> {
    seq(n, i => i)
  }

  /** `cos(k)` and `sin(k)` are taken at `k` parts of a quarter turn, once for each `k` in the first quarter only. */
  method MakeUnitCircle(cos: int -> real, sin: int -> real, pointsPerQuarter: nat)
    returns (verts: array<Vertex>, evaluated: seq<int>, ghost written: seq<nat>)
    requires QuarterTurn(cos, sin, pointsPerQuarter)
    ensures fresh(verts) && verts.Length == 4 * pointsPerQuarter
    ensures forall k :: 0 <= k < verts.Length ==> verts[k] == Vertex(cos(k), sin(k), 0.0)
    ensures evaluated == UpTo(pointsPerQuarter)
    ensures written == Filled(pointsPerQuarter, pointsPerQuarter)
  {
    var p := pointsPerQuarter;
    verts := new Vertex[4 * p];
    evaluated, written := [], [];
    for i := 0 to p
      invariant evaluated == UpTo(i) && written == Filled(i, p)
      invariant Quarters(verts[..], cos, sin, p, i)
    {
      var x, y := cos(i), sin(i);
      evaluated := evaluated + [i];
      ghost var before := verts[..];
      verts[i] := Vertex(x, y, 0.0);
      verts[i + p] := Vertex(-y, x, 0.0);
      verts[i + 2 * p] := Vertex(-x, -y, 0.0);
      verts[i + 3 * p] := Vertex(y, -x, 0.0);
      written := written + Slots(i, p);
      StepFills(before, verts[..], cos, sin, p, i);
    }
    QuartersAreCircle(verts[..], cos, sin, p);
    assert forall k :: 0 <= k < verts.Length ==> verts[k] == verts[..][k];
  }

  lemma StepFills(before: seq<Vertex>, after: seq<Vertex>, cos: int -> real, sin: int -> real, p: nat, i: nat)
    requires Quarters(before, cos, sin, p, i) && i < p
    requires after == before[i := Vertex(cos(i), sin(i), 0.0)][i + p := Vertex(-sin(i), cos(i), 0.0)]
                        [i + 2 * p := Vertex(-cos(i), -sin(i), 0.0)][i + 3 * p := Vertex(sin(i), -cos(i), 0.0)]
    ensures Quarters(after, cos, sin, p, i + 1)
  {
    forall k | 0 <= k < i + 1
      ensures after[k] == Vertex(cos(k), sin(k), 0.0)
      ensures after[k + p] == Vertex(-sin(k), cos(k), 0.0)
      ensures after[k + 2 * p] == Vertex(-cos(k), -sin(k), 0.0)
      ensures after[k + 3 * p] == Vertex(sin(k), -cos(k), 0.0)
    {
    }
  }

  /** Where the `q`-th quarter begins. */
  function Offset(q: nat, quarter: nat): nat {
    if q == 0 then 0 else if q == 1 then quarter else if q == 2 then 2 * quarter else 3 * quarter
  }

  /** The `q`-th write of step `i`. */
  lemma {:induction false} FilledAt(n: nat, quarter: nat, i: nat, q: nat)
    requires i < n && q < 4
    ensures |Filled(n, quarter)| == 4 * n && Filled(n, quarter)[4 * i + q] == i + Offset(q, quarter)
  {
    if i < n - 1 {
      FilledAt(n - 1, quarter, i, q);
    } else if n > 1 {
      FilledAt(n - 1, quarter, 0, 0);
    }
  }

  /** The loop writes each of the `4 * quarter` slots exactly once. */
  lemma WrittenOnce(quarter: nat, k: nat)
    requires k < 4 * quarter
    ensures var written := Filled(quarter, quarter);
            exists j :: 0 <= j < |written| && written[j] == k &&
              forall i :: 0 <= i < |written| && written[i] == k ==> i == j
  {
    var written := Filled(quarter, quarter);
    var q := if k < quarter then 0 else if k < 2 * quarter then 1 else if k < 3 * quarter then 2 else 3;
    var step := k - Offset(q, quarter);
    FilledAt(quarter, quarter, step, q);
    forall i | 0 <= i < |written| && written[i] == k ensures i == 4 * step + q {
      FilledAt(quarter, quarter, i / 4, i % 4);
    }
    assert written[4 * step + q] == k;
  }
}
