/**
 The walk that follows first-child, next-sibling and parent links, over a document whose elements are numbered in
 document order.
 */
module DocumentOrderWalk {
  import opened Basics
  import opened ElementWalk

  /** `a` is `k` or an ancestor of it. */
  predicate Above(parents: seq<nat>, a: nat, k: nat)
    requires Tree(parents) && k < |parents|
    decreases k
  {
    a == k || (k > 0 && Above(parents, a, parents[k]))
  }

  /** Document order: each element's parent is above, or is, the element just before it. */
  predicate DocumentOrder(parents: seq<nat>) {
    Tree(parents) && forall k :: 0 < k < |parents| ==> Above(parents, parents[k], k - 1)
  }

  lemma {:induction false} AboveIsBefore(parents: seq<nat>, a: nat, k: nat)
    requires Tree(parents) && k < |parents| && Above(parents, a, k)
    ensures a <= k
    decreases k
  {
    if a != k { AboveIsBefore(parents, a, parents[k]); }
  }

  lemma {:induction false} AboveIsTransitive(parents: seq<nat>, a: nat, b: nat, k: nat)
    requires Tree(parents) && k < |parents| && Above(parents, b, k) && b < |parents| && Above(parents, a, b)
    ensures Above(parents, a, k)
    decreases k
  {
    if b != k { AboveIsTransitive(parents, a, b, parents[k]); }
  }

  /** A subtree is a stretch of the document: what lies between an element and a descendant is below the element. */
  lemma {:induction false} SubtreesAreStretches(parents: seq<nat>, a: nat, m: nat, j: nat)
    requires DocumentOrder(parents) && j < |parents| && Above(parents, a, j) && a <= m <= j
    ensures Above(parents, a, m)
    decreases j
  {
    if m < j {
      AboveIsBefore(parents, a, parents[j]);
      AboveIsTransitive(parents, a, parents[j], j - 1);
      SubtreesAreStretches(parents, a, m, j - 1);
    }
  }

  // ---------- The links ----------

  /** The first element from `j` on whose parent is `p`. */
  function FirstWithParent(parents: seq<nat>, p: nat, j: nat): (r: Option<nat>)
    requires 0 < j <= |parents|
    ensures r.Some? ==> j <= r.value < |parents| && parents[r.value] == p
    ensures forall i :: j <= i < (if r.Some? then r.value else |parents|) ==> parents[i] != p
    decreases |parents| - j
  {
    if j == |parents| then None else if parents[j] == p then Some(j) else FirstWithParent(parents, p, j + 1)
  }

  function FirstChild(parents: seq<nat>, k: nat): Option<nat>
    requires k < |parents|
  {
    FirstWithParent(parents, k, 1)
  }

  function NextSibling(parents: seq<nat>, k: nat): Option<nat>
    requires 0 < k < |parents|
  {
    FirstWithParent(parents, parents[k], k + 1)
  }

  lemma FirstChildIsNext(parents: seq<nat>, k: nat)
    requires DocumentOrder(parents) && k < |parents|
    ensures FirstChild(parents, k)
         == if k + 1 < |parents| && parents[k + 1] == k then Some(k + 1) else None
  {
    var r := FirstChild(parents, k);
    if r.Some? {
      assert Above(parents, k, parents[r.value]);
      SubtreesAreStretches(parents, k, k + 1, r.value);
      AboveIsBefore(parents, k, parents[k + 1]);
    }
  }

  /** Everything after `k` is outside the subtree of `e`, which `k` ends. */
  ghost predicate Ends(parents: seq<nat>, e: nat, k: nat)
    requires Tree(parents)
  {
    e < |parents| && k < |parents| && Above(parents, e, k) && (k + 1 < |parents| ==> !Above(parents, e, k + 1))
  }

  /** Where the climb stands at an element whose subtree ends at `k`: its next sibling is `k + 1` or it has none. */
  lemma SiblingIsNext(parents: seq<nat>, e: nat, k: nat)
    requires DocumentOrder(parents) && e > 0 && Ends(parents, e, k)
    ensures NextSibling(parents, e)
         == if k + 1 < |parents| && parents[k + 1] == parents[e] then Some(k + 1) else None
    ensures NextSibling(parents, e).None? ==> Ends(parents, parents[e], k)
  {
    var p := parents[e];
    var r := NextSibling(parents, e);
    AboveIsBefore(parents, e, k);
    AboveIsTransitive(parents, p, e, k);
    if r.Some? {
      SiblingIsNotBelow(parents, e, r.value);
      if r.value <= k { SubtreesAreStretches(parents, e, r.value, k); }
      assert Above(parents, p, r.value);
      SubtreesAreStretches(parents, p, k + 1, r.value);
      NextIsChild(parents, e, k);
    } else if k + 1 < |parents| && Above(parents, p, k + 1) {
      NextIsChild(parents, e, k);
    }
  }

  lemma SiblingIsNotBelow(parents: seq<nat>, e: nat, j: nat)
    requires Tree(parents) && 0 < e < j < |parents| && parents[j] == parents[e]
    ensures !Above(parents, e, j)
  {
    if Above(parents, e, j) { AboveIsBefore(parents, e, parents[e]); }
  }

  /** If the element after the end of `e`'s subtree is below `e`'s parent, it is a child of it. */
  lemma NextIsChild(parents: seq<nat>, e: nat, k: nat)
    requires DocumentOrder(parents) && e > 0 && Ends(parents, e, k) && k + 1 < |parents|
    requires Above(parents, parents[e], k + 1)
    ensures parents[k + 1] == parents[e]
  {
    var p, q := parents[e], parents[k + 1];
    AboveIsBefore(parents, e, k);
    assert Above(parents, p, q);
    AboveIsBefore(parents, p, q);
    if q != p {
      assert Above(parents, q, k);
      if q < e {
        SubtreesAreStretches(parents, q, e, k);
        AboveOf(parents, q, e);
      } else {
        SubtreesAreStretches(parents, e, q, k);
      }
    }
  }

  lemma AboveOf(parents: seq<nat>, q: nat, e: nat)
    requires Tree(parents) && 0 < e < |parents| && q < e && Above(parents, q, e)
    ensures q <= parents[e]
  {
    AboveIsBefore(parents, q, parents[e]);
  }

  // ---------- The loop ----------

  function Upto(n: nat): (s: seq<nat>)
    ensures |s| == n && forall i :: 0 <= i < n ==> s[i] == i
  {
    seq(n, i => i)
  }

  /** The inner loop: from `k` climb until a next sibling turns up; None at the root. */
  method Climb(parents: seq<nat>, k: nat) returns (next: Option<nat>)
    requires DocumentOrder(parents) && k < |parents| && (k + 1 < |parents| ==> parents[k + 1] != k)
    ensures next == if k + 1 < |parents| then Some(k + 1) else None
  {
    next := None;
    var element: nat := k;
    if k + 1 < |parents| && Above(parents, k, k + 1) { AboveIsBefore(parents, k, parents[k + 1]); }
    while next.None? && element != 0
      invariant element < |parents|
      invariant next.None? ==> Ends(parents, element, k)
      invariant next.Some? ==> k + 1 < |parents| && next.value == k + 1
      decreases element
    {
      SiblingIsNext(parents, element, k);
      next := NextSibling(parents, element);
      element := parents[element];
    }
    if next.None? && k + 1 < |parents| { RootIsAbove(parents, k + 1); }
  }

  lemma {:induction false} RootIsAbove(parents: seq<nat>, k: nat)
    requires Tree(parents) && k < |parents|
    ensures Above(parents, 0, k)
    decreases k
  {
    if k > 0 { RootIsAbove(parents, parents[k]); }
  }

  /** The walk visits every element exactly once, in document order, and ends; it stops at the first refused one. */
  method Walk(parents: seq<nat>, accepts: nat -> bool) returns (visited: seq<nat>, ok: bool)
    requires DocumentOrder(parents)
    ensures ok <==> forall k: nat :: k < |parents| ==> accepts(k)
    ensures |visited| <= |parents| && visited == Upto(|visited|) && (ok ==> |visited| == |parents|)
  {
    var element: nat := 0;
    visited := [];
    while true
      invariant element < |parents| && visited == Upto(element)
      invariant forall k: nat :: k < element ==> accepts(k)
      decreases |parents| - element
    {
      visited := visited + [element];
      if !accepts(element) {
        return visited, false;
      }
      FirstChildIsNext(parents, element);
      var next := FirstChild(parents, element);
      if next.None? {
        next := Climb(parents, element);
      }
      if next.None? {
        return visited, true;
      }
      element := next.value;
    }
  }
}
