/**
 * The bracketed list text a block digests: "[" + the items joined by ", " + "]".
 * `Join` is defined by peeling off the last item, which is how an
 * appending loop builds the text; `Offset` gives where each item lands.
 */
module Render {

  /** The items separated by ", ", with no separator before the first item. */
  function Join(ps: seq<string>): string
  {
    if |ps| == 0 then ""
    else if |ps| == 1 then ps[0]
    else Join(ps[..|ps| - 1]) + ", " + ps[|ps| - 1]
  }

  /** The list text; an empty list renders as "[]". */
  function RenderList(ps: seq<string>): (r: string)
    ensures |r| >= 2 && r[0] == '[' && r[|r| - 1] == ']'
    ensures ps == [] ==> r == "[]"
  {
    "[" + Join(ps) + "]"
  }

  /** Position of item `i` inside `Join(ps)`: every earlier item plus its separator. */
  function Offset(ps: seq<string>, i: nat): nat
    requires i <= |ps|
  {
    if i == 0 then 0 else Offset(ps, i - 1) + |ps[i - 1]| + 2
  }

  lemma {:induction false} OffsetOfPrefix(ps: seq<string>, k: nat, i: nat)
    requires i <= k <= |ps|
    ensures Offset(ps[..k], i) == Offset(ps, i)
  {
    if i > 0 {
      OffsetOfPrefix(ps, k, i - 1);
    }
  }

  lemma {:induction false} JoinLength(ps: seq<string>)
    requires |ps| > 0
    ensures |Join(ps)| + 2 == Offset(ps, |ps|)
  {
    if |ps| > 1 {
      var init := ps[..|ps| - 1];
      JoinLength(init);
      OffsetOfPrefix(ps, |ps| - 1, |ps| - 1);
    }
  }

  /** Each item appears verbatim at its offset. */
  lemma {:induction false} JoinItem(ps: seq<string>, i: nat)
    requires i < |ps|
    ensures Offset(ps, i) + |ps[i]| <= |Join(ps)|
    ensures Join(ps)[Offset(ps, i)..Offset(ps, i) + |ps[i]|] == ps[i]
  {
    if |ps| == 1 {
      assert Join(ps)[0..|ps[0]|] == ps[0];
    } else {
      var init := ps[..|ps| - 1];
      JoinLength(init);
      OffsetOfPrefix(ps, |ps| - 1, |ps| - 1);
      assert Join(ps) == Join(init) + ", " + ps[|ps| - 1];
      if i < |ps| - 1 {
        JoinItem(init, i);
        OffsetOfPrefix(ps, |ps| - 1, i);
        assert init[i] == ps[i];
        var a := Offset(ps, i);
        SliceOfPrefix(Join(init), ", ", ps[|ps| - 1], a, a + |ps[i]|);
      } else {
        LastSlice(Join(init), ", ", ps[|ps| - 1]);
      }
    }
  }

  /** Consecutive items are separated by exactly ", ". */
  lemma {:induction false} JoinSeparator(ps: seq<string>, i: nat)
    requires i + 1 < |ps|
    ensures Offset(ps, i + 1) <= |Join(ps)|
    ensures Join(ps)[Offset(ps, i) + |ps[i]|..Offset(ps, i + 1)] == ", "
  {
    var init := ps[..|ps| - 1];
    JoinLength(init);
    OffsetOfPrefix(ps, |ps| - 1, |ps| - 1);
    assert Join(ps) == Join(init) + ", " + ps[|ps| - 1];
    if i + 1 < |ps| - 1 {
      JoinSeparator(init, i);
      OffsetOfPrefix(ps, |ps| - 1, i);
      OffsetOfPrefix(ps, |ps| - 1, i + 1);
      SliceOfPrefix(Join(init), ", ", ps[|ps| - 1], Offset(ps, i) + |ps[i]|, Offset(ps, i + 1));
    } else {
      OffsetOfPrefix(ps, |ps| - 1, i);
      assert Offset(ps, i) + |ps[i]| == |Join(init)|;
      MiddleSlice(Join(init), ", ", ps[|ps| - 1]);
    }
  }

  lemma MiddleSlice(x: string, y: string, z: string)
    ensures (x + y + z)[|x|..|x| + |y|] == y
  {
  }

  lemma LastSlice(x: string, y: string, z: string)
    ensures (x + y + z)[|x| + |y|..] == z
  {
  }

  lemma SliceOfPrefix(x: string, y: string, z: string, lo: nat, hi: nat)
    requires lo <= hi <= |x|
    ensures (x + y + z)[lo..hi] == x[lo..hi]
  {
    assert forall k :: lo <= k < hi ==> (x + y + z)[k] == x[k];
  }

  /** Items that come earlier in the list come strictly earlier in the text. */
  lemma {:induction false} OffsetIncreasing(ps: seq<string>, i: nat, j: nat)
    requires i < j <= |ps|
    ensures Offset(ps, i) + |ps[i]| + 2 <= Offset(ps, j)
  {
    if j > i + 1 {
      OffsetIncreasing(ps, i, j - 1);
    }
  }

  /**
   * Order preservation of the list text: item `i` sits at `1 + Offset(ps, i)`
   * (after the opening bracket), it is followed by ", ", and item `j > i`
   * starts only after item `i` and that separator have ended.
   */
  lemma RenderListOrder(ps: seq<string>, i: nat, j: nat)
    requires i < j < |ps|
    ensures 1 + Offset(ps, i) + |ps[i]| + 2 <= 1 + Offset(ps, j)
    ensures 1 + Offset(ps, j) + |ps[j]| < |RenderList(ps)|
    ensures RenderList(ps)[1 + Offset(ps, i)..1 + Offset(ps, i) + |ps[i]|] == ps[i]
    ensures RenderList(ps)[1 + Offset(ps, i) + |ps[i]|..1 + Offset(ps, i) + |ps[i]| + 2] == ", "
    ensures RenderList(ps)[1 + Offset(ps, j)..1 + Offset(ps, j) + |ps[j]|] == ps[j]
  {
    OffsetIncreasing(ps, i, j);
    RenderListItem(ps, i);
    RenderListItem(ps, j);
    RenderListSeparator(ps, i);
  }

  /** Item `i` is followed by ", " in the list text whenever another item comes after it. */
  lemma RenderListSeparator(ps: seq<string>, i: nat)
    requires i + 1 < |ps|
    ensures 1 + Offset(ps, i) + |ps[i]| + 2 <= |RenderList(ps)|
    ensures RenderList(ps)[1 + Offset(ps, i) + |ps[i]|..1 + Offset(ps, i) + |ps[i]| + 2] == ", "
  {
    JoinSeparator(ps, i);
    BracketedSlice(Join(ps), Offset(ps, i) + |ps[i]|, Offset(ps, i + 1));
    assert RenderList(ps) == "[" + Join(ps) + "]";
  }

  /** Item `i` of the list appears verbatim right after its offset in the list text. */
  lemma RenderListItem(ps: seq<string>, i: nat)
    requires i < |ps|
    ensures 1 + Offset(ps, i) + |ps[i]| < |RenderList(ps)|
    ensures RenderList(ps)[1 + Offset(ps, i)..1 + Offset(ps, i) + |ps[i]|] == ps[i]
  {
    var x := Join(ps);
    var lo, hi := Offset(ps, i), Offset(ps, i) + |ps[i]|;
    JoinItem(ps, i);
    assert x[lo..hi] == ps[i];
    BracketedSlice(x, lo, hi);
    assert RenderList(ps) == "[" + x + "]";
  }

  lemma BracketedSlice(x: string, lo: nat, hi: nat)
    requires lo <= hi <= |x|
    ensures ("[" + x + "]")[1 + lo..1 + hi] == x[lo..hi]
  {
    assert forall k :: lo <= k < hi ==> ("[" + x + "]")[1 + k] == x[k];
  }

  /** The whole list text is determined by its items: its length, in full. */
  lemma RenderListLength(ps: seq<string>)
    ensures |ps| > 0 ==> |RenderList(ps)| == Offset(ps, |ps|)
    ensures |ps| == 0 ==> |RenderList(ps)| == 2
  {
    if |ps| > 0 {
      JoinLength(ps);
    }
  }
}
