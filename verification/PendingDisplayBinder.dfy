/**
 The binder and the tracker as the objects they are: entries erased in place by index loops, references added and
 released one call at a time. A valid binder's tracker counts at least what the staged entries hold, and each of its
 operations leaves what everybody else holds as it was.
 */
module DisplayBinder {
  import P = PendingDisplay
  import O = PendingDisplayOutcomes

  class TopicDemandTracker {
    var counts: map<P.Ref, nat>

    constructor ()
      ensures counts == map[]
    {
      counts := map[];
    }

    method AddReference(r: P.Ref)
      modifies this
      ensures counts == P.AddReference(old(counts), r)
    {
      var before := if r in counts then counts[r] else 0;
      counts := counts[r := before + 1];
    }

    method RemoveReference(r: P.Ref)
      modifies this
      ensures counts == P.RemoveReference(old(counts), r)
    {
      if r !in counts || counts[r] == 0 {
        return;
      }
      counts := counts[r := counts[r] - 1];
      if counts[r] == 0 {
        counts := counts - {r};
      }
    }

    method ForgetDataset(dataset: nat)
      modifies this
      ensures counts == P.ClearDataset(old(counts), dataset)
    {
      counts := map r | r in counts && r.dataset != dataset :: counts[r];
    }
  }

  class PendingDisplayBinder {
    const tracker: TopicDemandTracker?
    var entries: seq<P.Entry>
    var watched: set<nat>

    constructor (t: TopicDemandTracker?)
      ensures Valid() && tracker == t && entries == [] && watched == {}
    {
      tracker, entries, watched := t, [], {};
    }

    ghost function Counts(): map<P.Ref, nat>
      reads this, tracker
    {
      if tracker == null then map[] else tracker.counts
    }

    ghost function View(): P.Registry
      reads this, tracker
    {
      P.Registry(tracker != null, entries, Counts(), watched)
    }

    /** Entries hold each reference once, and the tracker counts every reference they hold. */
    ghost predicate Valid()
      reads this, tracker
    {
      P.Shaped(View()) && forall r :: P.Others(View(), r) >= 0
    }

    /** From `was` to now, what the other holders have of every reference is unchanged. */
    ghost predicate OthersKept(was: P.Registry)
      reads this, tracker
    {
      forall r :: P.Others(View(), r) == P.Others(was, r)
    }

    lemma Balanced(was: P.Registry, op: P.Op)
      requires P.Shaped(was) && forall r :: P.Others(was, r) >= 0
      requires !op.OutsideAdd? && !op.OutsideRemove? && !op.DatasetCleared?
      requires View() == P.Step(P.System(was, map[]), op).reg
      ensures Valid() && OthersKept(was)
    {
      forall r ensures P.Shaped(View()) && P.Others(View(), r) == P.Others(was, r) {
        P.RegistryBalances(was, op, r);
      }
      P.RegistryBalances(was, op, P.Ref(0, ""));
    }

    method EnsureRefs(refs: seq<P.Ref>, items: seq<P.Item>, topic: string) returns (held: seq<P.Ref>)
      requires tracker != null
      modifies tracker
      ensures P.Held(held, tracker.counts)
           == P.EnsureAll(P.Held(refs, old(tracker.counts)), P.DatasetsNaming(items, topic), topic)
    {
      held := refs;
      var ids := NamingDatasets(items, topic);
      assert ids[0..] == ids;
      for k := 0 to |ids|
        invariant P.EnsureAll(P.Held(held, tracker.counts), ids[k..], topic)
               == P.EnsureAll(P.Held(refs, old(tracker.counts)), ids, topic)
      {
        var r := P.Ref(ids[k], topic);
        if r !in held {
          tracker.AddReference(r);
          held := held + [r];
        }
        assert ids[k..][1..] == ids[k + 1..];
      }
    }

    method NamingDatasets(items: seq<P.Item>, topic: string) returns (ids: seq<nat>)
      ensures ids == P.DatasetsNaming(items, topic)
    {
      ids := [];
      if topic == "" {
        return;
      }
      assert items[0..] == items;
      for k := 0 to |items|
        invariant P.NamingFrom(items[k..], topic, ids) == P.DatasetsNaming(items, topic)
      {
        if items[k].topic == topic && items[k].dataset !in ids {
          ids := ids + [items[k].dataset];
        }
        assert items[k..][1..] == items[k + 1..];
      }
    }

    method RefreshDemandRefs(e: P.Entry, items: seq<P.Item>) returns (held: seq<P.Ref>)
      modifies tracker
      ensures P.Held(held, Counts()) == P.Refresh(tracker != null, e, old(Counts()), items)
    {
      if tracker == null {
        return e.refs;
      }
      held := EnsureRefs(e.refs, items, e.path.topic);
      if P.IsXY(e) {
        held := EnsureRefs(held, items, e.xTopic);
      }
    }

    method ReleaseDemandRefs(e: P.Entry)
      modifies tracker
      ensures Counts() == P.Release(tracker != null, old(Counts()), e)
    {
      if tracker == null {
        return;
      }
      assert e.refs[0..] == e.refs;
      for k := 0 to |e.refs|
        invariant P.ReleaseAll(tracker.counts, e.refs[k..]) == P.ReleaseAll(old(tracker.counts), e.refs)
      {
        tracker.RemoveReference(e.refs[k]);
        assert e.refs[k..][1..] == e.refs[k + 1..];
      }
    }

    method StageEntry(e: P.Entry, items: seq<P.Item>)
      modifies this, tracker
      ensures View() == P.Stage(old(View()), e, items)
    {
      var held := RefreshDemandRefs(e, items);
      watched := watched + {e.target};
      entries := entries + [e.(refs := held)];
    }

    method HasEntryFor(e: P.Entry) returns (found: bool)
      ensures found == P.HasEntryFor(entries, e.kind, e.target, e.path, e.preferred)
      ensures found <==> exists i :: 0 <= i < |entries| && entries[i].kind == e.kind && entries[i].target == e.target
                                     && entries[i].path == e.path && entries[i].preferred == e.preferred
    {
      for k := 0 to |entries|
        invariant forall i :: 0 <= i < k ==> !P.Same(entries[i], e.kind, e.target, e.path, e.preferred)
      {
        if P.Same(entries[k], e.kind, e.target, e.path, e.preferred) {
          return true;
        }
      }
      return false;
    }

    /** addPendingCurve and stageDockIntent, once the entry to stage is known. */
    method AddPending(e: P.Entry, items: seq<P.Item>)
      requires Valid()
      modifies this, tracker
      ensures Valid() && OthersKept(old(View()))
      ensures View() == P.AddPending(old(View()), e, items)
      ensures e.path.topic != "" ==> P.HasEntryFor(entries, e.kind, e.target, e.path, e.preferred)
      ensures if e.path.topic == "" || old(P.HasEntryFor(entries, e.kind, e.target, e.path, e.preferred)) then
                entries == old(entries)
              else
                && entries[..|entries| - 1] == old(entries)
                && O.StagedAs(entries[|entries| - 1], e, tracker != null, items)
    {
      O.AddAppends(View(), e, items);
      var found := HasEntryFor(e);
      if e.path.topic != "" && !found {
        StageEntry(e.(refs := []), items);
        assert P.Same(entries[|entries| - 1], e.kind, e.target, e.path, e.preferred);
      }
      Balanced(old(View()), P.AddOp(e, items));
    }

    /** Drops every intent; what is left in the tracker is what the others hold. */
    method Clear()
      requires Valid()
      modifies this, tracker
      ensures Valid() && entries == [] && watched == old(watched)
      ensures forall r :: P.CountOf(Counts(), r) == P.Others(old(View()), r)
      ensures View() == P.Clear(old(View()))
    {
      ReleaseAllEntries();
      Balanced(old(View()), P.ClearOp);
      forall r ensures P.CountOf(Counts(), r) == P.Others(old(View()), r) {
        assert P.Others(View(), r) == P.Others(old(View()), r);
      }
    }

    method ReleaseAllEntries()
      modifies this, tracker
      ensures View() == P.Clear(old(View()))
    {
      assert entries[0..] == entries;
      for k := 0 to |entries|
        invariant entries == old(entries) && watched == old(watched)
        invariant P.ReleaseEntries(tracker != null, Counts(), entries[k..])
               == P.ReleaseEntries(tracker != null, old(Counts()), entries)
      {
        ReleaseDemandRefs(entries[k]);
        assert entries[k..][1..] == entries[k + 1..];
      }
      entries := [];
    }

    method Collect(candidates: seq<P.Entry>, items: seq<P.Item>)
      requires Valid()
      modifies this, tracker
      ensures Valid() && OthersKept(old(View()))
      ensures View() == P.Collect(old(View()), candidates, items)
      ensures |entries| == |candidates|
      ensures forall i :: 0 <= i < |entries| ==> O.StagedAs(entries[i], candidates[i], tracker != null, items)
    {
      O.CollectStages(View(), candidates, items);
      ReleaseAllEntries();
      assert candidates[0..] == candidates;
      for k := 0 to |candidates|
        invariant P.StageAll(View(), candidates[k..], items) == P.Collect(old(View()), candidates, items)
      {
        StageEntry(candidates[k].(refs := []), items);
        assert candidates[k..][1..] == candidates[k + 1..];
      }
      Balanced(old(View()), P.CollectOp(candidates, items));
    }

    method EraseAt(k: nat)
      requires k < |entries|
      modifies this`entries, tracker
      ensures View() == P.EraseOne(old(View()), k)
    {
      ReleaseDemandRefs(entries[k]);
      entries := entries[..k] + entries[k + 1..];
    }

    /** The erase loop shared by the destroyed() hook and a dock's own re-check. */
    method EraseWhere(gone: P.Entry -> bool)
      modifies this`entries, tracker
      ensures View() == P.EraseFrom(old(View()), 0, gone)
    {
      var k := 0;
      while k < |entries|
        invariant k <= |entries|
        invariant P.EraseFrom(View(), k, gone) == P.EraseFrom(old(View()), 0, gone)
        decreases |entries| - k
      {
        if gone(entries[k]) {
          EraseAt(k);
        } else {
          k := k + 1;
        }
      }
    }

    /** Exactly the intents of living targets stay. */
    method TargetDestroyed(dead: nat, nulls: set<nat>)
      requires Valid()
      modifies this, tracker
      ensures Valid() && OthersKept(old(View()))
      ensures forall e :: e in entries <==> e in old(entries) && e.target != dead && e.target !in nulls
      ensures View() == P.TargetDied(old(View()), dead, nulls)
    {
      watched := watched - {dead};
      EraseWhere((e: P.Entry) => e.target == dead || e.target in nulls);
      Balanced(old(View()), P.DiedOp(dead, nulls));
      forall e: P.Entry ensures e in entries <==> e in old(entries) && e.target != dead && e.target !in nulls {
        P.DeathErasesItsEntries(old(View()), dead, nulls, e);
      }
    }

    method ReleaseCompletedDockIntents(owner: nat, done: P.Entry -> bool)
      requires Valid()
      modifies this, tracker
      ensures Valid() && OthersKept(old(View()))
      ensures View() == P.DockChanged(old(View()), owner, done)
      ensures forall e :: e in entries <==>
        e in old(entries) && !(e.kind == P.DockIntent && e.target == owner && done(e))
    {
      forall e: P.Entry
        ensures e in P.DockChanged(View(), owner, done).entries
           <==> e in entries && !(e.kind == P.DockIntent && e.target == owner && done(e))
      {
        O.DockKeeps(View(), owner, done, e);
      }
      EraseWhere((e: P.Entry) => e.kind == P.DockIntent && e.target == owner && done(e));
      Balanced(old(View()), P.DockOp(owner, done));
    }

    /** One turn of flush's loop; `next` is where the iterator stands afterwards. */
    method FlushEntry(k: nat, items: seq<P.Item>, topics: set<string>, nulls: set<nat>, completes: P.Entry -> bool)
      returns (next: nat)
      requires k < |entries|
      modifies this`entries, tracker
      ensures (View(), next) == P.FlushAt(old(View()), k, items, topics, nulls, completes)
      ensures next <= |entries| && entries[next..] == old(entries)[k + 1..]
      ensures entries[..next] == old(entries)[..k] +
        if O.Leaves(old(entries)[k], tracker != null, items, topics, nulls, completes) then []
        else [old(entries)[k].(refs := O.RefsAfter(tracker != null, old(entries)[k], items))]
    {
      O.FlushAtLeaves(View(), k, items, topics, nulls, completes);
      if entries[k].target in nulls {
        EraseAt(k);
        return k;
      }
      var held := RefreshDemandRefs(entries[k], items);
      entries := entries[k := entries[k].(refs := held)];
      if P.Tried(entries[k], topics) && completes(entries[k]) {
        EraseAt(k);
        assert entries == old(entries)[..k] + old(entries)[k + 1..];
        return k;
      }
      return k + 1;
    }

    /**
     Completes what is due. What stays is exactly what has a living target and is not both due and complete, in order; it
     holds every reference the catalog warrants. Returns the number of intents completed: the entries erased that were
     not merely dead.
     */
    method Flush(items: seq<P.Item>, topics: set<string>, nulls: set<nat>, completes: P.Entry -> bool)
      returns (completed: nat)
      requires Valid()
      modifies this, tracker
      ensures Valid() && OthersKept(old(View()))
      ensures tracker != null ==> forall i :: 0 <= i < |entries| ==> P.Covered(entries[i], items, nulls)
      ensures View() == P.Flush(old(View()), items, topics, nulls, completes)
      ensures entries == O.Survivors(old(entries), tracker != null, items, topics, nulls, completes)
      ensures completed + |entries| + P.Dead(old(entries), nulls) == old(|entries|)
    {
      O.FlushLeavesSurvivors(View(), items, topics, nulls, completes);
      completed := FlushEntries(items, topics, nulls, completes);
      Balanced(old(View()), P.FlushOp(items, topics, nulls, completes));
      if tracker != null {
        forall i | 0 <= i < |entries| ensures P.Covered(entries[i], items, nulls) {
          P.FlushCovers(old(View()), 0, items, topics, nulls, completes, i);
        }
      }
    }

    method FlushEntries(items: seq<P.Item>, topics: set<string>, nulls: set<nat>, completes: P.Entry -> bool)
      returns (completed: nat)
      modifies this, tracker
      ensures View() == P.Flush(old(View()), items, topics, nulls, completes)
      ensures completed + |entries| + P.Dead(old(entries), nulls) == old(|entries|)
    {
      var k: nat := 0;
      completed := 0;
      assert entries[0..] == entries;
      while k < |entries|
        invariant k <= |entries| && watched == old(watched)
        invariant completed + |entries| + P.Dead(old(entries), nulls) == old(|entries|) + P.Dead(entries[k..], nulls)
        invariant P.FlushFrom(View(), k, items, topics, nulls, completes)
               == P.Flush(old(View()), items, topics, nulls, completes)
        decreases |entries| - k
      {
        ghost var rest := entries[k + 1..];
        assert entries[k..][1..] == rest;
        var alive := entries[k].target !in nulls;
        var next := FlushEntry(k, items, topics, nulls, completes);
        assert entries[next..] == rest;
        if alive && next == k {
          completed := completed + 1;
        }
        k := next;
      }
    }
  }
}
