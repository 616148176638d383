/** Binding the saved fan-out children of a layout to the live datasets of the reloaded file. */
module FanoutMatch {
  import opened Basics

  /** A saved child: its source name, and its position in the fan-out (-1 when none was saved). */
  datatype Child = Child(name: string, index: int)

  /** The live side: candidate ids in fan-out order, and each one's source name. */
  datatype Live = Live(candidates: seq<nat>, nameOf: nat -> string)

  function NamedChildren(saved: seq<Child>, name: string, k: nat): set<nat>
    requires k <= |saved|
  {
    set i: nat | i < k && saved[i].name == name
  }

  function NamedCandidates(live: Live, name: string, k: nat): set<nat>
    requires k <= |live.candidates|
  {
    set j: nat | j < k && live.nameOf(live.candidates[j]) == name
  }

  function SavedCount(saved: seq<Child>, name: string): nat {
    |NamedChildren(saved, name, |saved|)|
  }

  function LiveCount(live: Live, name: string): nat {
    |NamedCandidates(live, name, |live.candidates|)|
  }

  /** A non-empty saved name must be the candidate's own; an empty one fits any. */
  predicate Agrees(live: Live, child: Child, id: nat) {
    child.name == "" || live.nameOf(id) == child.name
  }

  function ByIndex(live: Live, used: set<nat>, child: Child): nat {
    if child.index < 0 || child.index >= |live.candidates| then 0
    else
      var id := live.candidates[child.index];
      if id !in used && Agrees(live, child, id) then id else 0
  }

  /** The unused candidates the child's name fits, from position `k` on. */
  function Fitting(live: Live, used: set<nat>, child: Child, k: nat): seq<nat>
    requires k <= |live.candidates|
    decreases |live.candidates| - k
  {
    if k == |live.candidates| then []
    else
      var id := live.candidates[k];
      (if id !in used && Agrees(live, child, id) then [id] else []) + Fitting(live, used, child, k + 1)
  }

  predicate Duplicated(saved: seq<Child>, child: Child) {
    child.name != "" && SavedCount(saved, child.name) > 1
  }

  function Match(saved: seq<Child>, live: Live, used: set<nat>, child: Child): nat {
    if Duplicated(saved, child) then
      if LiveCount(live, child.name) == SavedCount(saved, child.name) then ByIndex(live, used, child) else 0
    else
      var fitting := Fitting(live, used, child, 0);
      if |fitting| == 1 then fitting[0] else ByIndex(live, used, child)
  }

  function Use(used: set<nat>, id: nat): set<nat> {
    if id == 0 then used else used + {id}
  }

  function MatchFrom(saved: seq<Child>, live: Live, used: set<nat>, k: nat): (r: seq<nat>)
    requires k <= |saved|
    ensures |r| == |saved| - k
    decreases |saved| - k
  {
    if k == |saved| then []
    else
      var id := Match(saved, live, used, saved[k]);
      [id] + MatchFrom(saved, live, Use(used, id), k + 1)
  }

  function Matches(saved: seq<Child>, live: Live): (r: seq<nat>)
    ensures |r| == |saved|
  {
    MatchFrom(saved, live, {}, 0)
  }

  // ---------- The loops ----------

  method CountSaved(saved: seq<Child>, name: string) returns (count: nat)
    ensures count == SavedCount(saved, name)
  {
    count := 0;
    for k := 0 to |saved|
      invariant count == |NamedChildren(saved, name, k)|
    {
      if saved[k].name == name {
        assert NamedChildren(saved, name, k + 1) == NamedChildren(saved, name, k) + {k};
        count := count + 1;
      } else {
        assert NamedChildren(saved, name, k + 1) == NamedChildren(saved, name, k);
      }
    }
  }

  method CountLive(live: Live, name: string) returns (count: nat)
    ensures count == LiveCount(live, name)
  {
    count := 0;
    for k := 0 to |live.candidates|
      invariant count == |NamedCandidates(live, name, k)|
    {
      if live.nameOf(live.candidates[k]) == name {
        assert NamedCandidates(live, name, k + 1) == NamedCandidates(live, name, k) + {k};
        count := count + 1;
      } else {
        assert NamedCandidates(live, name, k + 1) == NamedCandidates(live, name, k);
      }
    }
  }

  lemma FittingStep(live: Live, used: set<nat>, child: Child, k: nat, fitting: seq<nat>)
    requires k < |live.candidates|
    ensures var id := live.candidates[k];
      fitting + Fitting(live, used, child, k)
        == (if id !in used && Agrees(live, child, id) then fitting + [id] else fitting)
           + Fitting(live, used, child, k + 1)
  {
  }

  method CollectFitting(live: Live, used: set<nat>, child: Child) returns (fitting: seq<nat>)
    ensures fitting == Fitting(live, used, child, 0)
  {
    fitting := [];
    for k := 0 to |live.candidates|
      invariant fitting + Fitting(live, used, child, k) == Fitting(live, used, child, 0)
    {
      var id := live.candidates[k];
      FittingStep(live, used, child, k, fitting);
      if id !in used && Agrees(live, child, id) {
        fitting := fitting + [id];
      }
    }
  }

  method MatchChild(saved: seq<Child>, live: Live, used: set<nat>, child: Child) returns (matched: nat)
    ensures matched == Match(saved, live, used, child)
  {
    var savedCount := CountSaved(saved, child.name);
    if child.name != "" && savedCount > 1 {
      var liveCount := CountLive(live, child.name);
      if liveCount != savedCount {
        return 0;
      }
    } else {
      var fitting := CollectFitting(live, used, child);
      if |fitting| == 1 {
        return fitting[0];
      }
    }
    return ByIndex(live, used, child);
  }

  lemma MatchFromStep(saved: seq<Child>, live: Live, used: set<nat>, k: nat, matches: seq<nat>)
    requires k < |saved|
    ensures var id := Match(saved, live, used, saved[k]);
      matches + MatchFrom(saved, live, used, k) == matches + [id] + MatchFrom(saved, live, Use(used, id), k + 1)
  {
  }

  method MatchFanoutDatasets(saved: seq<Child>, live: Live) returns (matches: seq<nat>)
    ensures matches == Matches(saved, live)
  {
    matches := [];
    var used: set<nat> := {};
    for k := 0 to |saved|
      invariant matches + MatchFrom(saved, live, used, k) == Matches(saved, live)
    {
      var matched := MatchChild(saved, live, used, saved[k]);
      MatchFromStep(saved, live, used, k, matches);
      matches := matches + [matched];
      if matched != 0 {
        used := used + {matched};
      }
    }
    assert MatchFrom(saved, live, used, |saved|) == [];
  }

  // ---------- Each candidate is consumed once, by a child whose name it has ----------

  lemma {:induction false} FittingFits(live: Live, used: set<nat>, child: Child, k: nat, id: nat)
    requires k <= |live.candidates|
    ensures id in Fitting(live, used, child, k) <==>
      id !in used && Agrees(live, child, id) && id in live.candidates[k..]
    decreases |live.candidates| - k
  {
    if k < |live.candidates| {
      FittingFits(live, used, child, k + 1, id);
      assert live.candidates[k..] == [live.candidates[k]] + live.candidates[k + 1..];
    }
  }

  lemma MatchIsFree(saved: seq<Child>, live: Live, used: set<nat>, child: Child)
    ensures var id := Match(saved, live, used, child);
      id == 0 || (id in live.candidates && id !in used && Agrees(live, child, id))
  {
    var fitting := Fitting(live, used, child, 0);
    if |fitting| == 1 {
      FittingFits(live, used, child, 0, fitting[0]);
    }
  }

  lemma {:induction false} MatchFromAvoids(saved: seq<Child>, live: Live, used: set<nat>, k: nat, j: nat)
    requires k <= |saved| && j < |saved| - k
    ensures var id := MatchFrom(saved, live, used, k)[j];
      id == 0 || (id in live.candidates && id !in used && Agrees(live, saved[k + j], id))
    decreases |saved| - k
  {
    MatchIsFree(saved, live, used, saved[k]);
    if j > 0 {
      MatchFromAvoids(saved, live, Use(used, Match(saved, live, used, saved[k])), k + 1, j - 1);
    }
  }

  lemma {:induction false} MatchFromDistinct(saved: seq<Child>, live: Live, used: set<nat>, k: nat, i: nat, j: nat)
    requires k <= |saved| && i < j < |saved| - k
    ensures var r := MatchFrom(saved, live, used, k); r[i] == 0 || r[i] != r[j]
    decreases |saved| - k
  {
    var id := Match(saved, live, used, saved[k]);
    if i == 0 {
      MatchFromAvoids(saved, live, Use(used, id), k + 1, j - 1);
    } else {
      MatchFromDistinct(saved, live, Use(used, id), k + 1, i - 1, j - 1);
    }
  }

  /** Bound children get pairwise distinct candidates, each with the child's name where one was saved. */
  lemma EachCandidateOnce(saved: seq<Child>, live: Live, i: nat, j: nat)
    requires i < j < |saved|
    ensures var r := Matches(saved, live);
      && (r[i] != 0 ==> r[i] in live.candidates && Agrees(live, saved[i], r[i]))
      && (r[j] != 0 ==> r[j] in live.candidates && Agrees(live, saved[j], r[j]))
      && (r[i] != 0 ==> r[i] != r[j])
  {
    MatchFromAvoids(saved, live, {}, 0, i);
    MatchFromAvoids(saved, live, {}, 0, j);
    MatchFromDistinct(saved, live, {}, 0, i, j);
  }

  // ---------- A name shared by several children ----------

  lemma {:induction false} MatchAt(saved: seq<Child>, live: Live, used: set<nat>, k: nat, j: nat) returns (before: set<nat>)
    requires k <= |saved| && j < |saved| - k
    ensures MatchFrom(saved, live, used, k)[j] == Match(saved, live, before, saved[k + j])
    decreases |saved| - k
  {
    if j == 0 {
      before := used;
    } else {
      before := MatchAt(saved, live, Use(used, Match(saved, live, used, saved[k])), k + 1, j - 1);
    }
  }

  /** Once the number of same-named datasets has changed, none of the children sharing that name binds. */
  lemma ChangedShapeBindsNothing(saved: seq<Child>, live: Live, i: nat)
    requires i < |saved| && Duplicated(saved, saved[i])
    requires LiveCount(live, saved[i].name) != SavedCount(saved, saved[i].name)
    ensures Matches(saved, live)[i] == 0
  {
    var before := MatchAt(saved, live, {}, 0, i);
  }

  /** A child sharing its name binds to nothing but the candidate at its own index. */
  lemma SharedNameBindsByIndexOnly(saved: seq<Child>, live: Live, i: nat)
    requires i < |saved| && Duplicated(saved, saved[i]) && Matches(saved, live)[i] != 0
    ensures 0 <= saved[i].index < |live.candidates| && Matches(saved, live)[i] == live.candidates[saved[i].index]
  {
    var before := MatchAt(saved, live, {}, 0, i);
  }

  // ---------- A name of its own ----------

  /** The candidates the first `j` children have bound to. */
  function Bound(matches: seq<nat>, j: nat): set<nat>
    requires j <= |matches|
  {
    set m: nat | m < j && matches[m] != 0 :: matches[m]
  }

  lemma {:induction false} MatchedAfterBound(saved: seq<Child>, live: Live, used: set<nat>, k: nat, j: nat)
    requires k <= |saved| && j < |saved| - k
    ensures var r := MatchFrom(saved, live, used, k);
      r[j] == Match(saved, live, used + Bound(r, j), saved[k + j])
    decreases |saved| - k
  {
    var r := MatchFrom(saved, live, used, k);
    if j == 0 {
      assert used + Bound(r, 0) == used;
    } else {
      var id := Match(saved, live, used, saved[k]);
      var rest := MatchFrom(saved, live, Use(used, id), k + 1);
      MatchedAfterBound(saved, live, Use(used, id), k + 1, j - 1);
      assert r == [id] + rest;
      BoundCons(id, rest, j);
      assert used + Bound(r, j) == Use(used, id) + Bound(rest, j - 1);
    }
  }

  lemma BoundCons(id: nat, rest: seq<nat>, j: nat)
    requires 0 < j <= |rest| + 1
    ensures Bound([id] + rest, j) == Use({}, id) + Bound(rest, j - 1)
  {
    var r := [id] + rest;
    forall x ensures x in Bound(r, j) <==> x in Use({}, id) + Bound(rest, j - 1) {
      if x in Bound(r, j) {
        var m: nat :| m < j && r[m] != 0 && r[m] == x;
        if m > 0 { assert rest[m - 1] == x; }
      } else {
        assert forall m: nat :: m < j - 1 ==> rest[m] == r[m + 1];
        assert id == r[0];
      }
    }
  }

  /** The candidate at position `p` is free for child `i`: none of the children before it has bound to it. */
  ghost predicate Free(saved: seq<Child>, live: Live, i: nat, p: nat)
    requires i < |saved| && p < |live.candidates|
  {
    live.candidates[p] !in Bound(Matches(saved, live), i)
  }

  lemma {:induction false} SoleFitting(live: Live, used: set<nat>, child: Child, k: nat, p: nat)
    requires k <= |live.candidates| && p < |live.candidates|
    requires live.candidates[p] !in used && Agrees(live, child, live.candidates[p])
    requires forall m: nat :: m < |live.candidates| && m != p ==>
      live.candidates[m] in used || !Agrees(live, child, live.candidates[m])
    ensures Fitting(live, used, child, k) == if k <= p then [live.candidates[p]] else []
    decreases |live.candidates| - k
  {
    if k < |live.candidates| {
      SoleFitting(live, used, child, k + 1, p);
    }
  }

  /** No other saved child has the name of child `i`. */
  ghost predicate OwnName(saved: seq<Child>, i: nat)
    requires i < |saved|
  {
    saved[i].name != "" && forall m :: 0 <= m < |saved| && m != i ==> saved[m].name != saved[i].name
  }

  lemma OwnNameIsNotShared(saved: seq<Child>, i: nat)
    requires i < |saved| && OwnName(saved, i)
    ensures !Duplicated(saved, saved[i])
  {
    assert NamedChildren(saved, saved[i].name, |saved|) == {i};
  }

  /** A child with a name of its own that exactly one free candidate carries binds to that one, whatever index was saved. */
  lemma OwnNameBindsWhateverItsIndex(saved: seq<Child>, live: Live, i: nat, p: nat)
    requires i < |saved| && OwnName(saved, i) && p < |live.candidates|
    requires Free(saved, live, i, p) && live.nameOf(live.candidates[p]) == saved[i].name
    requires forall m: nat :: m < |live.candidates| && m != p && live.nameOf(live.candidates[m]) == saved[i].name ==>
      !Free(saved, live, i, m)
    ensures Matches(saved, live)[i] == live.candidates[p]
  {
    var used := Bound(Matches(saved, live), i);
    MatchedAfterBound(saved, live, {}, 0, i);
    assert {} + used == used;
    OwnNameIsNotShared(saved, i);
    SoleFitting(live, used, saved[i], 0, p);
  }

  /** When several free candidates carry its name, its index alone decides among them. */
  lemma OwnNameCarriedTwice(saved: seq<Child>, live: Live, i: nat, p: nat, q: nat)
    requires i < |saved| && OwnName(saved, i) && p < q < |live.candidates|
    requires Free(saved, live, i, p) && live.nameOf(live.candidates[p]) == saved[i].name
    requires Free(saved, live, i, q) && live.nameOf(live.candidates[q]) == saved[i].name
    ensures Matches(saved, live)[i] != 0 ==>
      0 <= saved[i].index < |live.candidates| && Matches(saved, live)[i] == live.candidates[saved[i].index]
  {
    var used := Bound(Matches(saved, live), i);
    MatchedAfterBound(saved, live, {}, 0, i);
    assert {} + used == used;
    OwnNameIsNotShared(saved, i);
    TwoFitting(live, used, saved[i], 0, p, q);
  }

  lemma {:induction false} TwoFitting(live: Live, used: set<nat>, child: Child, k: nat, p: nat, q: nat)
    requires k <= p < q < |live.candidates|
    requires live.candidates[p] !in used && Agrees(live, child, live.candidates[p])
    requires live.candidates[q] !in used && Agrees(live, child, live.candidates[q])
    ensures |Fitting(live, used, child, k)| >= 2
    decreases |live.candidates| - k
  {
    if k < p {
      TwoFitting(live, used, child, k + 1, p, q);
    } else {
      FittingFits(live, used, child, k + 1, live.candidates[q]);
      assert live.candidates[k + 1..][q - (k + 1)] == live.candidates[q];
    }
  }

  /** A child without a name takes the last free candidate, whatever its index. */
  lemma UnnamedTakesWhatIsLeft(saved: seq<Child>, live: Live, i: nat, p: nat)
    requires i < |saved| && saved[i].name == "" && p < |live.candidates| && Free(saved, live, i, p)
    requires forall m: nat :: m < |live.candidates| && m != p ==> !Free(saved, live, i, m)
    ensures Matches(saved, live)[i] == live.candidates[p]
  {
    var used := Bound(Matches(saved, live), i);
    MatchedAfterBound(saved, live, {}, 0, i);
    assert {} + used == used;
    forall m: nat | m < |live.candidates| && m != p ensures live.candidates[m] in used { assert !Free(saved, live, i, m); }
    SoleFitting(live, used, saved[i], 0, p);
  }

  /** With several free candidates it takes the one at its index, whatever that one is called, if it is free. */
  lemma UnnamedBindsByIndex(saved: seq<Child>, live: Live, i: nat, q: nat)
    requires i < |saved| && saved[i].name == "" && 0 <= saved[i].index < |live.candidates|
    requires Free(saved, live, i, saved[i].index) && q < |live.candidates| && q != saved[i].index && Free(saved, live, i, q)
    ensures Matches(saved, live)[i] == live.candidates[saved[i].index]
  {
    var used, p := Bound(Matches(saved, live), i), saved[i].index;
    MatchedAfterBound(saved, live, {}, 0, i);
    assert {} + used == used;
    TwoFitting(live, used, saved[i], 0, if p < q then p else q, if p < q then q else p);
  }

  // ---------- An unchanged fan-out, in any order ----------

  /** Distinct, real dataset ids. */
  ghost predicate Proper(live: Live) {
    && (forall j :: 0 <= j < |live.candidates| ==> live.candidates[j] != 0)
    && (forall i, j :: 0 <= i < j < |live.candidates| ==> live.candidates[i] != live.candidates[j])
  }

  /** The saved children are the live (name, index) pairs in some order. */
  ghost predicate Permutes(saved: seq<Child>, live: Live) {
    && |saved| == |live.candidates|
    && (forall i :: 0 <= i < |saved| ==>
          0 <= saved[i].index < |live.candidates| && saved[i].name == live.nameOf(live.candidates[saved[i].index]))
    && (forall i, j :: 0 <= i < j < |saved| ==> saved[i].index != saved[j].index)
  }

  ghost function Image(idx: seq<nat>, s: set<nat>): set<nat>
    requires forall i :: i in s ==> i < |idx|
  {
    set i | i in s :: idx[i]
  }

  lemma {:induction false} ImageSize(idx: seq<nat>, s: set<nat>)
    requires NoRepeats(idx) && forall i :: i in s ==> i < |idx|
    ensures |Image(idx, s)| == |s|
    decreases |s|
  {
    if s != {} {
      var i :| i in s;
      ImageSize(idx, s - {i});
      assert Image(idx, s) == Image(idx, s - {i}) + {idx[i]};
    }
  }

  ghost function Order(saved: seq<Child>, live: Live): (idx: seq<nat>)
    requires Permutes(saved, live)
    ensures |idx| == |saved| && NoRepeats(idx)
    ensures forall i :: 0 <= i < |idx| ==> idx[i] == saved[i].index && idx[i] < |idx|
  {
    seq(|saved|, i requires 0 <= i < |saved| => saved[i].index)
  }

  /** Every live position is the index of some saved child. */
  lemma EveryPositionSaved(saved: seq<Child>, live: Live, j: nat) returns (i: nat)
    requires Permutes(saved, live) && j < |live.candidates|
    ensures i < |saved| && saved[i].index == j
  {
    var idx := Order(saved, live);
    Pigeonhole(idx, |idx|);
    assert j in idx;
    i :| 0 <= i < |idx| && idx[i] == j;
  }

  lemma SameCounts(saved: seq<Child>, live: Live, name: string)
    requires Permutes(saved, live)
    ensures SavedCount(saved, name) == LiveCount(live, name)
  {
    var a := NamedChildren(saved, name, |saved|);
    var b := NamedCandidates(live, name, |live.candidates|);
    var idx := Order(saved, live);
    ImageSize(idx, a);
    forall j | j in b ensures j in Image(idx, a) {
      var i := EveryPositionSaved(saved, live, j);
      assert i in a;
    }
    assert Image(idx, a) == b;
  }

  /** The candidates the first `k` children bind to when each binds to its own. */
  ghost function OwnOnes(saved: seq<Child>, live: Live, k: nat): set<nat>
    requires Permutes(saved, live) && k <= |saved|
  {
    set i: nat | i < k :: live.candidates[saved[i].index]
  }

  lemma OwnIsFree(saved: seq<Child>, live: Live, k: nat)
    requires Permutes(saved, live) && Proper(live) && k < |saved|
    ensures live.candidates[saved[k].index] !in OwnOnes(saved, live, k)
  {
  }

  /** With a name of its own, or none, the child's candidate is the only one left that fits, or its index decides. */
  lemma SoleFitIsOwn(saved: seq<Child>, live: Live, k: nat)
    requires Permutes(saved, live) && Proper(live) && k < |saved| && !Duplicated(saved, saved[k])
    ensures var used := OwnOnes(saved, live, k);
      var fitting := Fitting(live, used, saved[k], 0);
      |fitting| == 1 ==> fitting[0] == live.candidates[saved[k].index]
  {
    var own := live.candidates[saved[k].index];
    OwnIsFree(saved, live, k);
    FittingFits(live, OwnOnes(saved, live, k), saved[k], 0, own);
    assert live.candidates[0..] == live.candidates;
  }

  lemma BindsOwn(saved: seq<Child>, live: Live, k: nat)
    requires Permutes(saved, live) && Proper(live) && k < |saved|
    ensures Match(saved, live, OwnOnes(saved, live, k), saved[k]) == live.candidates[saved[k].index]
  {
    OwnIsFree(saved, live, k);
    SameCounts(saved, live, saved[k].name);
    if !Duplicated(saved, saved[k]) {
      SoleFitIsOwn(saved, live, k);
    }
  }

  lemma OwnOnesGrow(saved: seq<Child>, live: Live, k: nat)
    requires Permutes(saved, live) && Proper(live) && k < |saved|
    ensures Use(OwnOnes(saved, live, k), live.candidates[saved[k].index]) == OwnOnes(saved, live, k + 1)
  {
  }

  /** The child at `k` binds to `id`; the children behind it are matched with that candidate taken. */
  lemma MatchFromAt(saved: seq<Child>, live: Live, used: set<nat>, next: set<nat>, k: nat, j: nat, id: nat)
    requires k < |saved| && j < |saved| - k
    requires Match(saved, live, used, saved[k]) == id && Use(used, id) == next
    ensures MatchFrom(saved, live, used, k)[j] == if j == 0 then id else MatchFrom(saved, live, next, k + 1)[j - 1]
  {
  }

  /** `own[k]` is what the child at `k` binds to when `taken[k]` is used up, and `taken[k + 1]` is used up after it. */
  ghost predicate Follows(saved: seq<Child>, live: Live, own: seq<nat>, taken: seq<set<nat>>, k: nat) {
    && k < |saved| == |own| < |taken|
    && Match(saved, live, taken[k], saved[k]) == own[k]
    && Use(taken[k], own[k]) == taken[k + 1]
  }

  lemma {:induction false} FollowedFrom(
    saved: seq<Child>, live: Live, own: seq<nat>, taken: seq<set<nat>>, k: nat, j: nat)
    requires forall i: nat :: i < |saved| ==> Follows(saved, live, own, taken, i)
    requires k <= j < |saved| == |own| < |taken|
    ensures MatchFrom(saved, live, taken[k], k)[j - k] == own[j]
    decreases |saved| - k
  {
    assert Follows(saved, live, own, taken, k);
    MatchFromAt(saved, live, taken[k], taken[k + 1], k, j - k, own[k]);
    if j > k {
      FollowedFrom(saved, live, own, taken, k + 1, j);
    }
  }

  /** An unchanged fan-out binds every child to its own dataset, in whatever order it was saved, names shared or empty. */
  lemma UnchangedFanoutBindsAll(saved: seq<Child>, live: Live, i: nat)
    requires Permutes(saved, live) && Proper(live) && i < |saved|
    ensures Matches(saved, live)[i] == live.candidates[saved[i].index]
  {
    var own := seq(|saved|, k requires 0 <= k < |saved| => live.candidates[saved[k].index]);
    var taken := seq(|saved| + 1, k requires 0 <= k <= |saved| => OwnOnes(saved, live, k));
    forall k: nat | k < |saved| ensures Follows(saved, live, own, taken, k) {
      BindsOwn(saved, live, k);
      OwnOnesGrow(saved, live, k);
    }
    assert taken[0] == {};
    FollowedFrom(saved, live, own, taken, 0, i);
    assert Matches(saved, live)[i] == MatchFrom(saved, live, taken[0], 0)[i - 0];
  }
}
