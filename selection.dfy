/**
 * Keeping the entries a partial function accepts, in order: the shape of
 * both ticket loops of the AI service (`for ... : if ...: append(...)`).
 */
module Selection {
  import opened Wrappers

  /** The images under `f` of the elements of `s` that `f` accepts, in order. */
  function Select<A, B>(f: A -> Option<B>, s: seq<A>): (r: seq<B>)
    ensures |r| <= |s|
  {
    if s == [] then []
    else
      var last := s[|s| - 1];
      Select(f, s[..|s| - 1]) + (if f(last).Some? then [f(last).value] else [])
  }

  /**
   * The positions of the accepted elements. The `k`-th selected value comes
   * from position `Survivors(f, s)[k]`; positions increase, and every
   * accepted position occurs.
   */
  function Survivors<A, B>(f: A -> Option<B>, s: seq<A>): (r: seq<nat>)
    ensures |r| == |Select(f, s)|
    ensures forall k :: 0 <= k < |r| ==> r[k] < |s| && f(s[r[k]]) == Some(Select(f, s)[k])
    ensures forall k, l :: 0 <= k < l < |r| ==> r[k] < r[l]
    ensures forall i :: 0 <= i < |s| && f(s[i]).Some? ==> i in r
  {
    if s == [] then []
    else
      var r0 := Survivors(f, s[..|s| - 1]);
      var r := r0 + (if f(s[|s| - 1]).Some? then [|s| - 1] else []);
      SurvivorsExtend(f, s, r0, r);
      r
  }

  /** The positions for `s` are those for all but its last element, then that one if accepted. */
  lemma SurvivorsExtend<A, B>(f: A -> Option<B>, s: seq<A>, r0: seq<nat>, r: seq<nat>)
    requires s != [] && r == r0 + (if f(s[|s| - 1]).Some? then [|s| - 1] else [])
    requires var init := s[..|s| - 1];
      && |r0| == |Select(f, init)|
      && (forall k :: 0 <= k < |r0| ==> r0[k] < |init| && f(init[r0[k]]) == Some(Select(f, init)[k]))
      && (forall k, l :: 0 <= k < l < |r0| ==> r0[k] < r0[l])
      && (forall i :: 0 <= i < |init| && f(init[i]).Some? ==> i in r0)
    ensures |r| == |Select(f, s)|
    ensures forall k :: 0 <= k < |r| ==> r[k] < |s| && f(s[r[k]]) == Some(Select(f, s)[k])
    ensures forall k, l :: 0 <= k < l < |r| ==> r[k] < r[l]
    ensures forall i :: 0 <= i < |s| && f(s[i]).Some? ==> i in r
  {
    var init, last := s[..|s| - 1], s[|s| - 1];
    var sel0 := Select(f, init);
    assert Select(f, s) == sel0 + (if f(last).Some? then [f(last).value] else []);
    forall k | 0 <= k < |r|
      ensures r[k] < |s| && f(s[r[k]]) == Some(Select(f, s)[k])
    {
      if k < |r0| {
        assert r[k] == r0[k] && s[r0[k]] == init[r0[k]] && Select(f, s)[k] == sel0[k];
      }
    }
    forall i | 0 <= i < |s| && f(s[i]).Some?
      ensures i in r
    {
      if i < |init| {
        assert s[i] == init[i];
      }
    }
  }

  /** Selecting from a concatenation selects from each part. */
  lemma {:induction false} SelectAppend<A, B>(f: A -> Option<B>, a: seq<A>, b: seq<A>)
    ensures Select(f, a + b) == Select(f, a) + Select(f, b)
  {
    if b == [] {
      assert a + b == a;
    } else {
      var b0 := b[..|b| - 1];
      assert (a + b)[..|a + b| - 1] == a + b0;
      SelectAppend(f, a, b0);
    }
  }

  /** An element `f` rejects can be removed without changing the selection. */
  lemma SelectSkipsRejected<A, B>(f: A -> Option<B>, s: seq<A>, k: nat)
    requires k < |s| && f(s[k]).None?
    ensures Select(f, s) == Select(f, s[..k] + s[k + 1..])
  {
    var a, x, b := s[..k], [s[k]], s[k + 1..];
    assert s == a + (x + b);
    assert Select(f, x) == [] by { assert x[..0] == []; }
    SelectAppend(f, x, b);
    assert Select(f, x + b) == Select(f, b);
    SelectAppend(f, a, x + b);
    SelectAppend(f, a, b);
  }

  /** The partial function that keeps exactly the elements satisfying `p`. */
  function KeepIf<A>(p: A -> bool): A -> Option<A> {
    x => if p(x) then Some(x) else None
  }

  /**
   * Filtering keeps exactly the elements satisfying `p`, in order: the
   * `k`-th kept element is the element at position `Survivors(...)[k]`.
   */
  lemma FilterLayout<A>(p: A -> bool, s: seq<A>)
    ensures var r, from := Select(KeepIf(p), s), Survivors(KeepIf(p), s);
      && (forall k :: 0 <= k < |r| ==> r[k] == s[from[k]] && p(r[k]))
      && (forall i :: 0 <= i < |s| && p(s[i]) ==> i in from)
  {
    var r, from := Select(KeepIf(p), s), Survivors(KeepIf(p), s);
    forall k | 0 <= k < |r| ensures r[k] == s[from[k]] && p(r[k]) {
      assert KeepIf(p)(s[from[k]]) == Some(r[k]);
    }
  }
}
