/**
 The explicit-stack walk over a document. A document is its elements in document order, each with its parent's
 position; the walk pops the stack's end and pushes the popped element's children.
 */
module ElementWalk {
  import opened Basics

  datatype Doc = Doc(tags: seq<string>, parents: seq<nat>, attrs: seq<map<string, string>>)

  /** Element 0 is the document element; every other one comes after its parent. */
  predicate Tree(parents: seq<nat>) {
    |parents| > 0 && forall k :: 0 < k < |parents| ==> parents[k] < k
  }

  predicate WellFormed(d: Doc) {
    Tree(d.parents) && |d.tags| == |d.parents| == |d.attrs|
  }

  /** The children of `k` in document order, from position `j` on. */
  function Children(parents: seq<nat>, k: nat, j: nat): seq<nat>
    requires 0 < j <= |parents|
    decreases |parents| - j
  {
    if j == |parents| then []
    else (if parents[j] == k then [j] else []) + Children(parents, k, j + 1)
  }

  predicate Increasing(s: seq<nat>) {
    forall i, j :: 0 <= i < j < |s| ==> s[i] < s[j]
  }

  lemma IncreasingCons(first: nat, rest: seq<nat>)
    requires Increasing(rest) && forall c :: c in rest ==> first < c
    ensures Increasing([first] + rest)
  {
    assert forall i :: 0 <= i < |rest| ==> rest[i] in rest;
  }

  lemma {:induction false} ChildrenAre(parents: seq<nat>, k: nat, j: nat)
    requires 0 < j <= |parents|
    ensures Increasing(Children(parents, k, j))
    ensures forall c :: c in Children(parents, k, j) <==> j <= c < |parents| && parents[c] == k
    decreases |parents| - j
  {
    if j < |parents| {
      ChildrenAre(parents, k, j + 1);
      var rest := Children(parents, k, j + 1);
      if parents[j] == k {
        IncreasingCons(j, rest);
        assert Children(parents, k, j) == [j] + rest;
      }
    }
  }

  predicate InOrder(parents: seq<nat>, a: nat, b: nat) {
    0 < a < |parents| && 0 < b < |parents| && parents[a] == parents[b] ==> a < b
  }

  /** Siblings lie on the stack in document order, so the last of them is on top. */
  predicate SiblingsInOrder(parents: seq<nat>, stack: seq<nat>) {
    forall i, j :: 0 <= i < j < |stack| ==> InOrder(parents, stack[i], stack[j])
  }

  /** What is seen is closed upwards and, among siblings, from the last one down. */
  ghost predicate SeenShape(parents: seq<nat>, seen: seq<nat>) {
    && NoRepeats(seen) && (forall k :: k in seen ==> k < |parents|)
    && (forall k :: k in seen && k > 0 ==> parents[k] in seen)
    && (forall i, j :: 0 < i < j < |parents| && parents[i] == parents[j] && i in seen ==> j in seen)
  }

  /** The stack holds exactly the elements whose parent has been visited and that have not. */
  ghost predicate WalkInv(parents: seq<nat>, stack: seq<nat>, seen: seq<nat>) {
    && Tree(parents) && NoRepeats(stack) && SeenShape(parents, seen) && SiblingsInOrder(parents, stack)
    && (forall k :: k in stack ==> k < |parents| && k !in seen)
    && (forall k :: 0 <= k < |parents| ==> (k in stack || k in seen <==> k == 0 || parents[k] in seen))
  }

  function Pushed(parents: seq<nat>, stack: seq<nat>): seq<nat>
    requires stack != [] && |parents| > 0
  {
    stack[..|stack| - 1] + Children(parents, stack[|stack| - 1], 1)
  }

  lemma StackWithoutTop(stack: seq<nat>, k: nat)
    requires stack != [] && NoRepeats(stack)
    ensures k in stack[..|stack| - 1] <==> k in stack && k != stack[|stack| - 1]
  {
  }

  lemma TopIsNext(parents: seq<nat>, stack: seq<nat>, seen: seq<nat>)
    requires WalkInv(parents, stack, seen) && stack != []
    ensures SeenShape(parents, seen + [stack[|stack| - 1]])
  {
    var top := stack[|stack| - 1];
    assert top in stack;
    forall j | top < j < |parents| && parents[j] == parents[top] && top > 0 ensures j in seen {
    }
  }

  lemma PushedOrder(parents: seq<nat>, rest: seq<nat>, kids: seq<nat>, top: nat)
    requires NoRepeats(rest) && SiblingsInOrder(parents, rest) && Increasing(kids)
    requires forall k :: k in kids ==> 0 < k < |parents| && parents[k] == top
    requires forall k :: k in rest ==> k !in kids && (0 < k < |parents| ==> parents[k] != top)
    ensures NoRepeats(rest + kids) && SiblingsInOrder(parents, rest + kids)
  {
    var next := rest + kids;
    forall i, j | 0 <= i < j < |next| ensures next[i] != next[j] && InOrder(parents, next[i], next[j]) {
      if j < |rest| {
        assert InOrder(parents, rest[i], rest[j]);
      } else {
        assert next[j] in kids;
        if i < |rest| { assert next[i] in rest; } else { assert next[i] in kids; }
      }
    }
  }

  lemma PushedShape(parents: seq<nat>, stack: seq<nat>, seen: seq<nat>)
    requires WalkInv(parents, stack, seen) && stack != []
    ensures var next := Pushed(parents, stack);
      && NoRepeats(next) && SiblingsInOrder(parents, next)
      && (forall k :: k in next <==>
            (k in stack && k != stack[|stack| - 1]) || (0 < k < |parents| && parents[k] == stack[|stack| - 1]))
  {
    var top := stack[|stack| - 1];
    var rest := stack[..|stack| - 1];
    var kids := Children(parents, top, 1);
    ChildrenAre(parents, top, 1);
    forall k: nat ensures k in rest <==> k in stack && k != top { StackWithoutTop(stack, k); }
    forall i, j | 0 <= i < j < |rest| ensures InOrder(parents, rest[i], rest[j]) {
      assert InOrder(parents, stack[i], stack[j]);
    }
    assert top in stack;
    forall k | k in rest ensures k !in kids && (0 < k < |parents| ==> parents[k] != top) {
      assert k in stack;
    }
    PushedOrder(parents, rest, kids, top);
  }

  lemma StepKeeps(parents: seq<nat>, stack: seq<nat>, seen: seq<nat>)
    requires WalkInv(parents, stack, seen) && stack != []
    ensures WalkInv(parents, Pushed(parents, stack), seen + [stack[|stack| - 1]])
  {
    TopIsNext(parents, stack, seen);
    PushedShape(parents, stack, seen);
  }

  lemma SeenIsBounded(seen: seq<nat>, parents: seq<nat>)
    requires SeenShape(parents, seen)
    ensures |seen| <= |parents|
  {
    forall i | 0 <= i < |seen| ensures seen[i] < |parents| { assert seen[i] in seen; }
    Pigeonhole(seen, |parents|);
  }

  /** The elements in the order the walk visits them, after those already seen. */
  ghost function Order(parents: seq<nat>, stack: seq<nat>, seen: seq<nat>): (order: seq<nat>)
    requires WalkInv(parents, stack, seen)
    decreases |parents| - |seen|
  {
    if stack == [] then seen
    else
      StepKeeps(parents, stack, seen);
      SeenIsBounded(seen + [stack[|stack| - 1]], parents);
      Order(parents, Pushed(parents, stack), seen + [stack[|stack| - 1]])
  }

  lemma WalkStarts(parents: seq<nat>)
    requires Tree(parents)
    ensures WalkInv(parents, [0], [])
  {
  }

  lemma {:induction false} OrderShape(parents: seq<nat>, stack: seq<nat>, seen: seq<nat>)
    requires WalkInv(parents, stack, seen)
    ensures SeenShape(parents, Order(parents, stack, seen)) && seen <= Order(parents, stack, seen)
    ensures forall k :: 0 <= k < |parents| ==> k in Order(parents, stack, seen)
    decreases |parents| - |seen|
  {
    if stack == [] {
      forall k | 0 <= k < |parents| ensures k in seen { AllSeen(parents, seen, k); }
    } else {
      StepKeeps(parents, stack, seen);
      SeenIsBounded(seen + [stack[|stack| - 1]], parents);
      OrderShape(parents, Pushed(parents, stack), seen + [stack[|stack| - 1]]);
    }
  }

  /** At every point of the walk what has been visited is closed upwards and, among siblings, from the last down. */
  lemma {:induction false} PrefixShape(parents: seq<nat>, stack: seq<nat>, seen: seq<nat>, i: nat)
    requires WalkInv(parents, stack, seen) && |seen| <= i <= |Order(parents, stack, seen)|
    ensures SeenShape(parents, Order(parents, stack, seen)[..i])
    decreases |parents| - |seen|
  {
    OrderShape(parents, stack, seen);
    if i == |seen| {
      assert Order(parents, stack, seen)[..i] == seen;
    } else {
      StepKeeps(parents, stack, seen);
      SeenIsBounded(seen + [stack[|stack| - 1]], parents);
      PrefixShape(parents, Pushed(parents, stack), seen + [stack[|stack| - 1]], i);
    }
  }

  lemma {:induction false} AllSeen(parents: seq<nat>, seen: seq<nat>, k: nat)
    requires WalkInv(parents, [], seen) && k < |parents|
    ensures k in seen
  {
    if k > 0 {
      AllSeen(parents, seen, parents[k]);
    }
  }

  /** The walk visits every element of the document exactly once. */
  lemma EachElementOnce(parents: seq<nat>)
    requires Tree(parents)
    ensures WalkInv(parents, [0], [])
    ensures var order := Order(parents, [0], []);
      NoRepeats(order) && |order| == |parents| && forall k: nat :: k in order <==> k < |parents|
  {
    WalkStarts(parents);
    OrderShape(parents, [0], []);
    var order := Order(parents, [0], []);
    SeenIsBounded(order, parents);
    MembersSize(order);
    SubsetSize(Below(|parents|), Members(order));
  }

  // ---------- Visiting ----------

  /** The document after visiting `order` from position `i` on. */
  function VisitAll(visit: (Doc, nat) -> Doc, d: Doc, order: seq<nat>, i: nat): Doc
    requires i <= |order|
    decreases |order| - i
  {
    if i == |order| then d else VisitAll(visit, visit(d, order[i]), order, i + 1)
  }

  /** The document after the whole walk. */
  ghost function Pass(visit: (Doc, nat) -> Doc, d: Doc): Doc
    requires Tree(d.parents)
  {
    WalkStarts(d.parents);
    VisitAll(visit, d, Order(d.parents, [0], []), 0)
  }

  /** The visitor changes attributes only. */
  ghost predicate AttributesOnly(visit: (Doc, nat) -> Doc) {
    forall d: Doc, k: nat :: SameShape(d, visit(d, k))
  }

  predicate SameShape(d: Doc, n: Doc) {
    n.tags == d.tags && n.parents == d.parents && |n.attrs| == |d.attrs|
  }

  /** forEachElement: the loop over the stack. */
  method ForEachElement(start: Doc, visit: (Doc, nat) -> Doc) returns (d: Doc)
    requires WellFormed(start) && AttributesOnly(visit)
    ensures d == Pass(visit, start)
    ensures d.tags == start.tags && d.parents == start.parents && |d.attrs| == |start.attrs|
  {
    d := start;
    WalkStarts(start.parents);
    ghost var order := Order(start.parents, [0], []);
    var stack: seq<nat> := [0];
    ghost var seen: seq<nat> := [];
    OrderShape(start.parents, stack, seen);
    while stack != []
      invariant WellFormed(d) && d.tags == start.tags && d.parents == start.parents
      invariant WalkInv(start.parents, stack, seen) && Order(start.parents, stack, seen) == order
      invariant seen <= order && VisitAll(visit, d, order, |seen|) == VisitAll(visit, start, order, 0)
      decreases |start.parents| - |seen|
    {
      var top := stack[|stack| - 1];
      StepKeeps(start.parents, stack, seen);
      SeenIsBounded(seen + [top], start.parents);
      OrderShape(start.parents, Pushed(start.parents, stack), seen + [top]);
      assert order[|seen|] == (seen + [top])[|seen|];
      assert SameShape(d, visit(d, top));
      stack := stack[..|stack| - 1] + Children(d.parents, top, 1);
      d := visit(d, top);
      seen := seen + [top];
    }
  }

  // ---------- Visits that touch only their own element ----------

  /** The tag of the element's parent; none for the document element. */
  function ParentTag(d: Doc, k: nat): string
    requires WellFormed(d) && k < |d.tags|
  {
    if k == 0 then "" else d.tags[d.parents[k]]
  }

  /** What becomes of an element's attributes, given its tag and its parent's. */
  type Edit = (string, string, map<string, string>) -> map<string, string>

  /** The visitor that edits the attributes of the element it is on. */
  function Local(edit: Edit): (Doc, nat) -> Doc {
    (d: Doc, k: nat) =>
      if WellFormed(d) && k < |d.tags| then
        d.(attrs := d.attrs[k := edit(d.tags[k], ParentTag(d, k), d.attrs[k])])
      else d
  }

  function Edited(edit: Edit, d: Doc, k: nat): map<string, string>
    requires WellFormed(d) && k < |d.tags|
  {
    edit(d.tags[k], ParentTag(d, k), d.attrs[k])
  }

  lemma {:induction false} LocalVisits(edit: Edit, start: Doc, d: Doc, order: seq<nat>, i: nat, k: nat)
    requires WellFormed(start) && NoRepeats(order) && i <= |order| && k < |start.tags|
    requires WellFormed(d) && d.tags == start.tags && d.parents == start.parents
    requires forall j :: 0 <= j < |order| ==> order[j] < |start.tags|
    requires d.attrs[k] == if k in order[..i] then Edited(edit, start, k) else start.attrs[k]
    ensures var n := VisitAll(Local(edit), d, order, i);
      && WellFormed(n) && n.tags == start.tags && n.parents == start.parents
      && n.attrs[k] == if k in order then Edited(edit, start, k) else start.attrs[k]
    decreases |order| - i
  {
    if i == |order| {
      assert order[..i] == order;
    } else {
      assert order[..i + 1] == order[..i] + [order[i]];
      var n := Local(edit)(d, order[i]);
      if order[i] == k {
        assert k !in order[..i] && k in order[..i + 1];
        assert d.attrs[k] == start.attrs[k] && ParentTag(d, k) == ParentTag(start, k);
        assert n == d.(attrs := d.attrs[k := edit(d.tags[k], ParentTag(d, k), d.attrs[k])]);
      } else {
        assert k in order[..i + 1] <==> k in order[..i];
        assert n.attrs[k] == d.attrs[k];
      }
      LocalVisits(edit, start, n, order, i + 1, k);
    }
  }

  lemma LocalAttributesOnly(edit: Edit)
    ensures AttributesOnly(Local(edit))
  {
    forall d: Doc, k: nat ensures SameShape(d, Local(edit)(d, k)) {
      var n := Local(edit)(d, k);
      if WellFormed(d) && k < |d.tags| {
        assert n == d.(attrs := d.attrs[k := edit(d.tags[k], ParentTag(d, k), d.attrs[k])]);
      } else {
        assert n == d;
      }
    }
  }

  /** A local pass over the walk is the same edit made on every element independently. */
  lemma LocalPass(edit: Edit, d: Doc, k: nat)
    requires WellFormed(d) && k < |d.tags|
    ensures var n := Pass(Local(edit), d);
      WellFormed(n) && n.tags == d.tags && n.parents == d.parents && n.attrs[k] == Edited(edit, d, k)
  {
    EachElementOnce(d.parents);
    var order := Order(d.parents, [0], []);
    forall j | 0 <= j < |order| ensures order[j] < |d.tags| { assert order[j] in order; }
    LocalVisits(edit, d, d, Order(d.parents, [0], []), 0, k);
  }
}
