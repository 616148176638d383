/** What each operation of the registry leaves staged, entry by entry and in order. */
module PendingDisplayOutcomes {
  import opened Basics
  import opened PendingDisplay

  // ---------- A refresh and the counts ----------

  /** The references entry `e` holds once it has been refreshed. */
  function RefsAfter(tracked: bool, e: Entry, items: seq<Item>): seq<Ref> {
    Refresh(tracked, e, map[], items).refs
  }

  lemma {:induction false} EnsureAllRefs(a: Held, b: Held, ids: seq<nat>, topic: string)
    requires a.refs == b.refs
    ensures EnsureAll(a, ids, topic).refs == EnsureAll(b, ids, topic).refs
    decreases |ids|
  {
    if ids != [] {
      EnsureAllRefs(Ensure(a, Ref(ids[0], topic)), Ensure(b, Ref(ids[0], topic)), ids[1..], topic);
    }
  }

  /** What the tracker counts does not matter to what an entry takes. */
  lemma RefreshRefs(tracked: bool, e: Entry, counts: map<Ref, nat>, items: seq<Item>)
    ensures Refresh(tracked, e, counts, items).refs == RefsAfter(tracked, e, items)
  {
    var a, b := Held(e.refs, counts), Held(e.refs, map[]);
    var ids := DatasetsNaming(items, e.path.topic);
    EnsureAllRefs(a, b, ids, e.path.topic);
    if IsXY(e) {
      EnsureAllRefs(EnsureAll(a, ids, e.path.topic), EnsureAll(b, ids, e.path.topic),
                    DatasetsNaming(items, e.xTopic), e.xTopic);
    }
  }

  // ---------- Flush ----------

  /**
   A flush drops an entry that has lost its target, and one that is due and then completes: due in a drain, or when its
   topic is named, or when it is an XY curve whose X topic is named. Completion is judged with its references refreshed.
   */
  predicate Leaves(e: Entry, tracked: bool, items: seq<Item>, topics: set<string>, nulls: set<nat>,
                   completes: Entry -> bool) {
    || e.target in nulls
    || ((topics == {} || e.path.topic in topics || (e.kind == Curve && e.xTopic != "" && e.xTopic in topics))
        && completes(e.(refs := RefsAfter(tracked, e, items))))
  }

  /** Every entry a flush does not drop, in order, with its references refreshed. */
  function Survivors(entries: seq<Entry>, tracked: bool, items: seq<Item>, topics: set<string>, nulls: set<nat>,
                     completes: Entry -> bool): seq<Entry> {
    if entries == [] then []
    else
      (if Leaves(entries[0], tracked, items, topics, nulls, completes) then []
       else [entries[0].(refs := RefsAfter(tracked, entries[0], items))])
      + Survivors(entries[1..], tracked, items, topics, nulls, completes)
  }

  lemma FlushAtLeaves(reg: Registry, k: nat, items: seq<Item>, topics: set<string>, nulls: set<nat>,
                      completes: Entry -> bool)
    requires k < |reg.entries|
    ensures var (n, next) := FlushAt(reg, k, items, topics, nulls, completes);
      && n.tracked == reg.tracked && next <= |n.entries| && n.entries[next..] == reg.entries[k + 1..]
      && n.entries[..next] == reg.entries[..k]
           + if Leaves(reg.entries[k], reg.tracked, items, topics, nulls, completes) then []
             else [reg.entries[k].(refs := RefsAfter(reg.tracked, reg.entries[k], items))]
  {
    RefreshRefs(reg.tracked, reg.entries[k], reg.counts, items);
  }

  lemma {:induction false} FlushFromLeaves(reg: Registry, k: nat, items: seq<Item>, topics: set<string>, nulls: set<nat>,
                                           completes: Entry -> bool)
    requires k <= |reg.entries|
    ensures FlushFrom(reg, k, items, topics, nulls, completes).entries
         == reg.entries[..k] + Survivors(reg.entries[k..], reg.tracked, items, topics, nulls, completes)
    decreases |reg.entries| - k
  {
    if k < |reg.entries| {
      var (n, next) := FlushAt(reg, k, items, topics, nulls, completes);
      FlushAtLeaves(reg, k, items, topics, nulls, completes);
      assert reg.entries[k..][1..] == reg.entries[k + 1..];
      FlushFromLeaves(n, next, items, topics, nulls, completes);
    }
  }

  /** The in-place loop leaves exactly the survivors, in the order they were staged. */
  lemma FlushLeavesSurvivors(reg: Registry, items: seq<Item>, topics: set<string>, nulls: set<nat>,
                             completes: Entry -> bool)
    ensures Flush(reg, items, topics, nulls, completes).entries
         == Survivors(reg.entries, reg.tracked, items, topics, nulls, completes)
  {
    FlushFromLeaves(reg, 0, items, topics, nulls, completes);
    assert reg.entries[0..] == reg.entries && reg.entries[..0] == [];
  }

  /** An intent that is not due, or that its target declines, stays staged; one that is due and completes does not. */
  lemma {:induction false} DeclinedIntentStays(entries: seq<Entry>, tracked: bool, items: seq<Item>, topics: set<string>,
                                               nulls: set<nat>, completes: Entry -> bool, i: nat)
    requires i < |entries| && entries[i].target !in nulls
    requires (topics != {} && entries[i].path.topic !in topics && entries[i].xTopic !in topics)
             || !completes(entries[i].(refs := RefsAfter(tracked, entries[i], items)))
    ensures entries[i].(refs := RefsAfter(tracked, entries[i], items))
         in Survivors(entries, tracked, items, topics, nulls, completes)
  {
    if i > 0 {
      DeclinedIntentStays(entries[1..], tracked, items, topics, nulls, completes, i - 1);
    }
  }

  // ---------- Staging ----------

  /** `n` is the intent `e`, holding exactly the references the catalog warrants now. */
  ghost predicate StagedAs(n: Entry, e: Entry, tracked: bool, items: seq<Item>) {
    n == e.(refs := n.refs) && Distinct(n.refs) && forall r :: r in n.refs <==> tracked && Warranted(e, items, r)
  }

  lemma StageAppends(reg: Registry, e: Entry, items: seq<Item>)
    ensures var n := Stage(reg, e.(refs := []), items);
      && n.tracked == reg.tracked && |n.entries| == |reg.entries| + 1 && n.entries[..|reg.entries|] == reg.entries
      && StagedAs(n.entries[|reg.entries|], e, reg.tracked, items)
  {
    var f := e.(refs := []);
    forall r
      ensures r in Refresh(reg.tracked, f, reg.counts, items).refs <==> reg.tracked && Warranted(e, items, r)
    {
      RefreshKeeps(reg.tracked, f, reg.counts, items, r);
    }
    RefreshKeeps(reg.tracked, f, reg.counts, items, Ref(0, ""));
  }

  /** A drop is staged behind the others unless it names no topic or is staged already. */
  lemma AddAppends(reg: Registry, e: Entry, items: seq<Item>)
    ensures var n := AddPending(reg, e, items);
      if e.path.topic == "" || HasEntryFor(reg.entries, e.kind, e.target, e.path, e.preferred) then n.entries == reg.entries
      else
        && |n.entries| == |reg.entries| + 1 && n.entries[..|reg.entries|] == reg.entries
        && StagedAs(n.entries[|reg.entries|], e, reg.tracked, items)
  {
    StageAppends(reg, e, items);
  }

  lemma {:induction false} StageAllAppends(reg: Registry, candidates: seq<Entry>, items: seq<Item>)
    ensures var n := StageAll(reg, candidates, items);
      && |n.entries| == |reg.entries| + |candidates| && n.entries[..|reg.entries|] == reg.entries
      && forall i :: 0 <= i < |candidates| ==> StagedAs(n.entries[|reg.entries| + i], candidates[i], reg.tracked, items)
    decreases |candidates|
  {
    if candidates != [] {
      var m := Stage(reg, candidates[0].(refs := []), items);
      var n := StageAll(m, candidates[1..], items);
      StageAppends(reg, candidates[0], items);
      StageAllAppends(m, candidates[1..], items);
      assert n.entries[..|reg.entries|] == m.entries[..|reg.entries|];
      assert n.entries[|reg.entries|] == m.entries[|reg.entries|];
      forall i | 0 <= i < |candidates| ensures StagedAs(n.entries[|reg.entries| + i], candidates[i], reg.tracked, items) {
        if i > 0 {
          assert candidates[i] == candidates[1..][i - 1];
          assert StagedAs(n.entries[|m.entries| + (i - 1)], candidates[1..][i - 1], m.tracked, items);
        }
      }
    }
  }

  /** After a layout restore exactly the layout's intents are staged, in its order. */
  lemma CollectStages(reg: Registry, candidates: seq<Entry>, items: seq<Item>)
    ensures var n := Collect(reg, candidates, items);
      && |n.entries| == |candidates|
      && forall i :: 0 <= i < |candidates| ==> StagedAs(n.entries[i], candidates[i], reg.tracked, items)
  {
    StageAllAppends(Clear(reg), candidates, items);
    forall i | 0 <= i < |candidates|
      ensures StagedAs(Collect(reg, candidates, items).entries[i], candidates[i], reg.tracked, items)
    {
      assert StagedAs(Collect(reg, candidates, items).entries[|Clear(reg).entries| + i], candidates[i], reg.tracked, items);
    }
  }

  /** After a dock's own check exactly its completed intents are gone. */
  lemma DockKeeps(reg: Registry, owner: nat, done: Entry -> bool, e: Entry)
    ensures e in DockChanged(reg, owner, done).entries
       <==> e in reg.entries && !(e.kind == DockIntent && e.target == owner && done(e))
  {
    var gone := (e: Entry) => e.kind == DockIntent && e.target == owner && done(e);
    EraseIsFilter(reg, 0, gone);
    assert reg.entries[0..] == reg.entries && reg.entries[..0] == [];
    KeptIsNotGone(reg.entries, gone, e);
  }
}
