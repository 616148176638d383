/**
 Demand references of pending display intents. A staged entry holds one tracker reference for every dataset that names
 its topic (or its X topic); the registry adds, refreshes and releases them while it erases entries in place. Whether an
 entry completes when a flush tries it is the plot's or the dock's answer and appears as a parameter.
 */
module PendingDisplay {
  import opened Basics

  datatype Ref = Ref(dataset: nat, topic: string)

  datatype Kind = Curve | DockIntent

  datatype Path = Path(topic: string, field: string, dataset: nat, source: string, file: string)

  datatype Entry = Entry(
    kind: Kind, target: nat, path: Path, xTopic: string, preferred: Option<nat>, persistent: bool, refs: seq<Ref>)

  predicate IsXY(e: Entry) {
    e.kind == Curve && e.xTopic != ""
  }

  datatype Item = Item(dataset: nat, topic: string)

  /** The registry, and the tracker's positive counts. Without a tracker nothing is counted. */
  datatype Registry = Registry(tracked: bool, entries: seq<Entry>, counts: map<Ref, nat>, watched: set<nat>)

  // ---------- The tracker ----------

  function CountOf(counts: map<Ref, nat>, r: Ref): nat {
    if r in counts then counts[r] else 0
  }

  function AddReference(counts: map<Ref, nat>, r: Ref): map<Ref, nat> {
    counts[r := CountOf(counts, r) + 1]
  }

  /** A count that reaches zero is erased; with none outstanding nothing happens. */
  function RemoveReference(counts: map<Ref, nat>, r: Ref): map<Ref, nat> {
    if CountOf(counts, r) == 0 then counts
    else if CountOf(counts, r) == 1 then counts - {r}
    else counts[r := CountOf(counts, r) - 1]
  }

  function ClearDataset(counts: map<Ref, nat>, dataset: nat): map<Ref, nat> {
    map r | r in counts && r.dataset != dataset :: counts[r]
  }

  // ---------- One entry's references ----------

  /** The datasets that name the topic, in catalog order, each once. */
  function NamingFrom(items: seq<Item>, topic: string, found: seq<nat>): seq<nat>
    decreases |items|
  {
    if items == [] then found
    else if items[0].topic == topic && items[0].dataset !in found
    then NamingFrom(items[1..], topic, found + [items[0].dataset])
    else NamingFrom(items[1..], topic, found)
  }

  function DatasetsNaming(items: seq<Item>, topic: string): seq<nat> {
    if topic == "" then [] else NamingFrom(items, topic, [])
  }

  datatype Held = Held(refs: seq<Ref>, counts: map<Ref, nat>)

  function Ensure(h: Held, r: Ref): Held {
    if r in h.refs then h else Held(h.refs + [r], AddReference(h.counts, r))
  }

  function EnsureAll(h: Held, ids: seq<nat>, topic: string): Held
    decreases |ids|
  {
    if ids == [] then h else EnsureAll(Ensure(h, Ref(ids[0], topic)), ids[1..], topic)
  }

  function Refreshed(h: Held, e: Entry, items: seq<Item>): Held {
    var primary := EnsureAll(h, DatasetsNaming(items, e.path.topic), e.path.topic);
    if IsXY(e) then EnsureAll(primary, DatasetsNaming(items, e.xTopic), e.xTopic) else primary
  }

  function Refresh(tracked: bool, e: Entry, counts: map<Ref, nat>, items: seq<Item>): Held {
    if tracked then Refreshed(Held(e.refs, counts), e, items) else Held(e.refs, counts)
  }

  function ReleaseAll(counts: map<Ref, nat>, refs: seq<Ref>): map<Ref, nat>
    decreases |refs|
  {
    if refs == [] then counts else ReleaseAll(RemoveReference(counts, refs[0]), refs[1..])
  }

  function Release(tracked: bool, counts: map<Ref, nat>, e: Entry): map<Ref, nat> {
    if tracked then ReleaseAll(counts, e.refs) else counts
  }

  // ---------- Operations ----------

  predicate HasEntryFor(entries: seq<Entry>, kind: Kind, target: nat, path: Path, preferred: Option<nat>) {
    exists i :: 0 <= i < |entries| && Same(entries[i], kind, target, path, preferred)
  }

  predicate Same(e: Entry, kind: Kind, target: nat, path: Path, preferred: Option<nat>) {
    e.kind == kind && e.target == target && e.path == path && e.preferred == preferred
  }

  function Stage(r: Registry, e: Entry, items: seq<Item>): Registry {
    var h := Refresh(r.tracked, e, r.counts, items);
    r.(entries := r.entries + [e.(refs := h.refs)], counts := h.counts, watched := r.watched + {e.target})
  }

  /** An interactive drop: the same one is staged once. */
  function AddPending(r: Registry, e: Entry, items: seq<Item>): Registry {
    if e.path.topic == "" || HasEntryFor(r.entries, e.kind, e.target, e.path, e.preferred) then r
    else Stage(r, e.(refs := []), items)
  }

  function ReleaseEntries(tracked: bool, counts: map<Ref, nat>, entries: seq<Entry>): map<Ref, nat>
    decreases |entries|
  {
    if entries == [] then counts else ReleaseEntries(tracked, Release(tracked, counts, entries[0]), entries[1..])
  }

  function Clear(r: Registry): Registry {
    r.(entries := [], counts := ReleaseEntries(r.tracked, r.counts, r.entries))
  }

  function StageAll(r: Registry, candidates: seq<Entry>, items: seq<Item>): Registry
    decreases |candidates|
  {
    if candidates == [] then r else StageAll(Stage(r, candidates[0].(refs := []), items), candidates[1..], items)
  }

  /** A layout restore: everything staged goes, the layout's unresolved curves come. */
  function Collect(r: Registry, candidates: seq<Entry>, items: seq<Item>): Registry {
    StageAll(Clear(r), candidates, items)
  }

  /** Erases the entries of `gone`, releasing what they hold; `kept` has been passed already. */
  function EraseFrom(r: Registry, k: nat, gone: Entry -> bool): Registry
    requires k <= |r.entries|
    decreases |r.entries| - k
  {
    if k == |r.entries| then r
    else if gone(r.entries[k]) then
      EraseFrom(r.(counts := Release(r.tracked, r.counts, r.entries[k]),
                   entries := r.entries[..k] + r.entries[k + 1..]), k, gone)
    else EraseFrom(r, k + 1, gone)
  }

  /** The destroyed() hook: the dying target's entries, and any whose target was already gone. */
  function TargetDied(r: Registry, dead: nat, nulls: set<nat>): Registry {
    EraseFrom(r.(watched := r.watched - {dead}), 0, (e: Entry) => e.target == dead || e.target in nulls)
  }

  /** A dock that re-checks its own intents. */
  function DockChanged(r: Registry, owner: nat, done: Entry -> bool): Registry {
    EraseFrom(r, 0, (e: Entry) => e.kind == DockIntent && e.target == owner && done(e))
  }

  predicate Tried(e: Entry, topics: set<string>) {
    topics == {} || e.path.topic in topics || (IsXY(e) && e.xTopic in topics)
  }

  /** One entry of a flush: what it becomes, or None once it is dead or complete. */
  function FlushOne(e: Entry, tracked: bool, counts: map<Ref, nat>, items: seq<Item>, topics: set<string>,
                    nulls: set<nat>, completes: Entry -> bool): (Option<Entry>, map<Ref, nat>) {
    if e.target in nulls then (None, Release(tracked, counts, e))
    else
      var h := Refresh(tracked, e, counts, items);
      var n := e.(refs := h.refs);
      if Tried(e, topics) && completes(n) then (None, Release(tracked, h.counts, n)) else (Some(n), h.counts)
  }

  function FlushFrom(r: Registry, k: nat, items: seq<Item>, topics: set<string>, nulls: set<nat>,
                     completes: Entry -> bool): Registry
    requires k <= |r.entries|
    decreases |r.entries| - k
  {
    if k == |r.entries| then r
    else
      var (e, counts) := FlushOne(r.entries[k], r.tracked, r.counts, items, topics, nulls, completes);
      if e.None? then
        FlushFrom(r.(counts := counts, entries := r.entries[..k] + r.entries[k + 1..]), k, items, topics, nulls, completes)
      else
        FlushFrom(r.(counts := counts, entries := r.entries[k := e.value]), k + 1, items, topics, nulls, completes)
  }

  function Flush(r: Registry, items: seq<Item>, topics: set<string>, nulls: set<nat>, completes: Entry -> bool): Registry {
    FlushFrom(r, 0, items, topics, nulls, completes)
  }

  // ---------- Conservation ----------

  predicate Distinct(s: seq<Ref>) {
    forall i, j :: 0 <= i < j < |s| ==> s[i] != s[j]
  }

  /** How many staged entries hold a reference for `r`. */
  function Holds(entries: seq<Entry>, r: Ref): nat {
    if entries == [] then 0 else One(r in entries[0].refs) + Holds(entries[1..], r)
  }

  /** What everybody else holds: the tracker's count less the registry's share. */
  function Others(reg: Registry, r: Ref): int {
    CountOf(reg.counts, r) - Holds(reg.entries, r)
  }

  /** Entries hold each reference once, and none without a tracker. */
  predicate Shaped(reg: Registry) {
    && (forall i :: 0 <= i < |reg.entries| ==> Distinct(reg.entries[i].refs))
    && (!reg.tracked ==> forall i :: 0 <= i < |reg.entries| ==> reg.entries[i].refs == [])
  }

  lemma {:induction false} HoldsSplit(a: seq<Entry>, b: seq<Entry>, r: Ref)
    ensures Holds(a + b, r) == Holds(a, r) + Holds(b, r)
  {
    if a == [] {
      assert a + b == b;
    } else {
      HoldsSplit(a[1..], b, r);
      assert (a + b)[1..] == a[1..] + b;
    }
  }

  lemma HoldsAt(s: seq<Entry>, k: nat, r: Ref)
    requires k < |s|
    ensures Holds(s, r) == Holds(s[..k], r) + One(r in s[k].refs) + Holds(s[k + 1..], r)
  {
    assert s == s[..k] + ([s[k]] + s[k + 1..]);
    HoldsSplit(s[..k], [s[k]] + s[k + 1..], r);
    HoldsSplit([s[k]], s[k + 1..], r);
    assert [s[k]][1..] == [];
  }

  lemma HoldsErased(s: seq<Entry>, k: nat, r: Ref)
    requires k < |s|
    ensures Holds(s[..k] + s[k + 1..], r) == Holds(s, r) - One(r in s[k].refs)
  {
    HoldsAt(s, k, r);
    HoldsSplit(s[..k], s[k + 1..], r);
  }

  lemma HoldsReplaced(s: seq<Entry>, k: nat, e: Entry, r: Ref)
    requires k < |s|
    ensures Holds(s[k := e], r) == Holds(s, r) - One(r in s[k].refs) + One(r in e.refs)
  {
    HoldsAt(s, k, r);
    HoldsAt(s[k := e], k, r);
    assert s[k := e][..k] == s[..k] && s[k := e][k + 1..] == s[k + 1..];
  }

  // ---------- References of one entry ----------

  lemma {:induction false} EnsureAllKeeps(h: Held, ids: seq<nat>, topic: string, r: Ref)
    requires Distinct(h.refs)
    ensures var n := EnsureAll(h, ids, topic);
      && Distinct(n.refs) && h.refs <= n.refs
      && CountOf(n.counts, r) - One(r in n.refs) == CountOf(h.counts, r) - One(r in h.refs)
      && (r in n.refs <==> r in h.refs || (r.topic == topic && r.dataset in ids))
    decreases |ids|
  {
    if ids != [] {
      EnsureAllKeeps(Ensure(h, Ref(ids[0], topic)), ids[1..], topic, r);
    }
  }

  lemma {:induction false} NamingExactly(items: seq<Item>, topic: string, found: seq<nat>, id: nat)
    ensures id in NamingFrom(items, topic, found) <==> id in found || Item(id, topic) in items
    decreases |items|
  {
    if items != [] {
      var next := if items[0].topic == topic && items[0].dataset !in found then found + [items[0].dataset] else found;
      NamingExactly(items[1..], topic, next, id);
    }
  }

  /** A refresh balances itself and leaves the entry a reference for exactly what it had and what is named now. */
  lemma RefreshKeeps(tracked: bool, e: Entry, counts: map<Ref, nat>, items: seq<Item>, r: Ref)
    requires Distinct(e.refs)
    ensures var h := Refresh(tracked, e, counts, items);
      && Distinct(h.refs) && e.refs <= h.refs && (!tracked ==> h.refs == e.refs)
      && CountOf(h.counts, r) - One(r in h.refs) == CountOf(counts, r) - One(r in e.refs)
      && (tracked ==> (r in h.refs <==> r in e.refs || Warranted(e, items, r)))
  {
    if tracked {
      var h := Held(e.refs, counts);
      EnsureAllKeeps(h, DatasetsNaming(items, e.path.topic), e.path.topic, r);
      NamingExactly(items, e.path.topic, [], r.dataset);
      if IsXY(e) {
        var p := EnsureAll(h, DatasetsNaming(items, e.path.topic), e.path.topic);
        EnsureAllKeeps(p, DatasetsNaming(items, e.xTopic), e.xTopic, r);
        NamingExactly(items, e.xTopic, [], r.dataset);
      }
    }
  }

  /** The catalog names the entry's topic, or its X topic, in this dataset. */
  predicate Warranted(e: Entry, items: seq<Item>, r: Ref) {
    r.topic != "" && Item(r.dataset, r.topic) in items && (r.topic == e.path.topic || (IsXY(e) && r.topic == e.xTopic))
  }

  lemma {:induction false} ReleaseAllKeeps(counts: map<Ref, nat>, refs: seq<Ref>, r: Ref)
    requires Distinct(refs) && (r in refs ==> CountOf(counts, r) >= 1)
    ensures CountOf(ReleaseAll(counts, refs), r) == CountOf(counts, r) - One(r in refs)
    decreases |refs|
  {
    if refs != [] {
      ReleaseAllKeeps(RemoveReference(counts, refs[0]), refs[1..], r);
    }
  }

  lemma ReleaseKeeps(reg: Registry, k: nat, r: Ref)
    requires Shaped(reg) && Others(reg, r) >= 0 && k < |reg.entries|
    ensures CountOf(Release(reg.tracked, reg.counts, reg.entries[k]), r)
         == CountOf(reg.counts, r) - One(r in reg.entries[k].refs)
  {
    if reg.tracked {
      HoldsAt(reg.entries, k, r);
      ReleaseAllKeeps(reg.counts, reg.entries[k].refs, r);
    }
  }

  // ---------- Every operation keeps the balance of every reference ----------

  lemma StageKeeps(reg: Registry, e: Entry, items: seq<Item>, r: Ref)
    requires Shaped(reg) && e.refs == []
    ensures Shaped(Stage(reg, e, items)) && Others(Stage(reg, e, items), r) == Others(reg, r)
  {
    var n := Stage(reg, e, items);
    RefreshKeeps(reg.tracked, e, reg.counts, items, r);
    HoldsSplit(reg.entries, [n.entries[|reg.entries|]], r);
    assert [n.entries[|reg.entries|]][1..] == [];
  }

  lemma {:induction false} StageAllKeeps(reg: Registry, candidates: seq<Entry>, items: seq<Item>, r: Ref)
    requires Shaped(reg)
    ensures Shaped(StageAll(reg, candidates, items)) && Others(StageAll(reg, candidates, items), r) == Others(reg, r)
    decreases |candidates|
  {
    if candidates != [] {
      StageKeeps(reg, candidates[0].(refs := []), items, r);
      StageAllKeeps(Stage(reg, candidates[0].(refs := []), items), candidates[1..], items, r);
    }
  }

  function EraseOne(reg: Registry, k: nat): Registry
    requires k < |reg.entries|
  {
    reg.(counts := Release(reg.tracked, reg.counts, reg.entries[k]), entries := reg.entries[..k] + reg.entries[k + 1..])
  }

  lemma EraseOneKeeps(reg: Registry, k: nat, r: Ref)
    requires Shaped(reg) && Others(reg, r) >= 0 && k < |reg.entries|
    ensures Shaped(EraseOne(reg, k)) && Others(EraseOne(reg, k), r) == Others(reg, r)
  {
    ReleaseKeeps(reg, k, r);
    HoldsErased(reg.entries, k, r);
  }

  lemma {:induction false} EraseKeeps(reg: Registry, k: nat, gone: Entry -> bool, r: Ref)
    requires Shaped(reg) && Others(reg, r) >= 0 && k <= |reg.entries|
    ensures Shaped(EraseFrom(reg, k, gone)) && Others(EraseFrom(reg, k, gone), r) == Others(reg, r)
    decreases |reg.entries| - k
  {
    if k < |reg.entries| {
      if gone(reg.entries[k]) {
        EraseOneKeeps(reg, k, r);
        EraseKeeps(EraseOne(reg, k), k, gone, r);
      } else {
        EraseKeeps(reg, k + 1, gone, r);
      }
    }
  }

  /** Clearing is erasing everything from the front. */
  lemma {:induction false} ClearIsErase(reg: Registry)
    ensures Clear(reg) == EraseFrom(reg, 0, (e: Entry) => true)
    decreases |reg.entries|
  {
    if reg.entries != [] {
      assert reg.entries[..0] + reg.entries[1..] == reg.entries[1..];
      ClearIsErase(EraseOne(reg, 0));
    }
  }

  lemma RefreshOneKeeps(reg: Registry, k: nat, items: seq<Item>, r: Ref)
    requires Shaped(reg) && k < |reg.entries|
    ensures var h := Refresh(reg.tracked, reg.entries[k], reg.counts, items);
      var n := reg.(counts := h.counts, entries := reg.entries[k := reg.entries[k].(refs := h.refs)]);
      Shaped(n) && Others(n, r) == Others(reg, r)
  {
    var h := Refresh(reg.tracked, reg.entries[k], reg.counts, items);
    RefreshKeeps(reg.tracked, reg.entries[k], reg.counts, items, r);
    HoldsReplaced(reg.entries, k, reg.entries[k].(refs := h.refs), r);
  }

  /** What FlushFrom does with the entry at `k`, and where it goes on. */
  function FlushAt(reg: Registry, k: nat, items: seq<Item>, topics: set<string>, nulls: set<nat>,
                   completes: Entry -> bool): (Registry, nat)
    requires k < |reg.entries|
  {
    var (e, counts) := FlushOne(reg.entries[k], reg.tracked, reg.counts, items, topics, nulls, completes);
    if e.None? then (reg.(counts := counts, entries := reg.entries[..k] + reg.entries[k + 1..]), k)
    else (reg.(counts := counts, entries := reg.entries[k := e.value]), k + 1)
  }

  lemma FlushAtKeeps(reg: Registry, k: nat, items: seq<Item>, topics: set<string>, nulls: set<nat>,
                     completes: Entry -> bool, r: Ref)
    requires Shaped(reg) && Others(reg, r) >= 0 && k < |reg.entries|
    ensures var n := FlushAt(reg, k, items, topics, nulls, completes).0; Shaped(n) && Others(n, r) == Others(reg, r)
  {
    var e := reg.entries[k];
    if e.target in nulls {
      EraseOneKeeps(reg, k, r);
    } else {
      RefreshOneKeeps(reg, k, items, r);
      var h := Refresh(reg.tracked, e, reg.counts, items);
      var m := reg.(counts := h.counts, entries := reg.entries[k := e.(refs := h.refs)]);
      if Tried(e, topics) && completes(e.(refs := h.refs)) {
        EraseOneKeeps(m, k, r);
        assert m.entries[..k] + m.entries[k + 1..] == reg.entries[..k] + reg.entries[k + 1..];
      }
    }
  }

  lemma {:induction false} FlushKeeps(reg: Registry, k: nat, items: seq<Item>, topics: set<string>, nulls: set<nat>,
                                      completes: Entry -> bool, r: Ref)
    requires Shaped(reg) && Others(reg, r) >= 0 && k <= |reg.entries|
    ensures var n := FlushFrom(reg, k, items, topics, nulls, completes); Shaped(n) && Others(n, r) == Others(reg, r)
    decreases |reg.entries| - k
  {
    if k < |reg.entries| {
      FlushAtKeeps(reg, k, items, topics, nulls, completes, r);
      var (n, next) := FlushAt(reg, k, items, topics, nulls, completes);
      FlushKeeps(n, next, items, topics, nulls, completes, r);
    }
  }

  // ---------- After a flush ----------

  /** A live entry with a reference for every dataset the catalog names for it. */
  ghost predicate Covered(e: Entry, items: seq<Item>, nulls: set<nat>) {
    e.target !in nulls && forall r :: Warranted(e, items, r) ==> r in e.refs
  }

  /** Every entry that survives a flush has a live target and holds all the references the catalog warrants. */
  lemma {:induction false} FlushCovers(reg: Registry, k: nat, items: seq<Item>, topics: set<string>, nulls: set<nat>,
                                       completes: Entry -> bool, i: nat)
    requires Shaped(reg) && reg.tracked && k <= |reg.entries|
    requires forall j :: 0 <= j < k ==> Covered(reg.entries[j], items, nulls)
    requires i < |FlushFrom(reg, k, items, topics, nulls, completes).entries|
    ensures Covered(FlushFrom(reg, k, items, topics, nulls, completes).entries[i], items, nulls)
    decreases |reg.entries| - k
  {
    if k < |reg.entries| {
      var (n, next) := FlushAt(reg, k, items, topics, nulls, completes);
      var e := reg.entries[k];
      var f := e.(refs := Refresh(true, e, reg.counts, items).refs);
      forall r ensures Warranted(f, items, r) ==> r in f.refs { RefreshKeeps(true, e, reg.counts, items, r); }
      ShapedAfter(reg, k, items, topics, nulls, completes);
      FlushCovers(n, next, items, topics, nulls, completes, i);
    }
  }

  lemma ShapedAfter(reg: Registry, k: nat, items: seq<Item>, topics: set<string>, nulls: set<nat>,
                    completes: Entry -> bool)
    requires Shaped(reg) && k < |reg.entries|
    ensures Shaped(FlushAt(reg, k, items, topics, nulls, completes).0)
  {
    var e := reg.entries[k];
    RefreshKeeps(reg.tracked, e, reg.counts, items, Ref(0, ""));
  }

  /** A drain pass completes whatever can be completed: a survivor was tried and declined. */
  lemma {:induction false} DrainTriesAll(reg: Registry, k: nat, items: seq<Item>, nulls: set<nat>,
                                         completes: Entry -> bool, i: nat)
    requires k <= |reg.entries| && (forall j :: 0 <= j < k ==> !completes(reg.entries[j]))
    requires i < |FlushFrom(reg, k, items, {}, nulls, completes).entries|
    ensures !completes(FlushFrom(reg, k, items, {}, nulls, completes).entries[i])
    decreases |reg.entries| - k
  {
    if k < |reg.entries| {
      var (n, next) := FlushAt(reg, k, items, {}, nulls, completes);
      DrainTriesAll(n, next, items, nulls, completes, i);
    }
  }

  /** How many entries have lost their target. */
  function Dead(entries: seq<Entry>, nulls: set<nat>): nat {
    if entries == [] then 0 else One(entries[0].target in nulls) + Dead(entries[1..], nulls)
  }

  // ---------- Erasing ----------

  function Kept(entries: seq<Entry>, gone: Entry -> bool): seq<Entry> {
    if entries == [] then []
    else if gone(entries[0]) then Kept(entries[1..], gone)
    else [entries[0]] + Kept(entries[1..], gone)
  }

  /** The in-place loop keeps exactly the entries that are not gone, in order. */
  lemma {:induction false} EraseIsFilter(reg: Registry, k: nat, gone: Entry -> bool)
    requires k <= |reg.entries|
    ensures EraseFrom(reg, k, gone).entries == reg.entries[..k] + Kept(reg.entries[k..], gone)
    decreases |reg.entries| - k
  {
    if k < |reg.entries| {
      assert reg.entries[k..][1..] == reg.entries[k + 1..];
      if gone(reg.entries[k]) {
        var n := EraseOne(reg, k);
        assert n.entries[k..] == reg.entries[k + 1..] && n.entries[..k] == reg.entries[..k];
        EraseIsFilter(n, k, gone);
      } else {
        assert reg.entries[..k + 1] == reg.entries[..k] + [reg.entries[k]];
        EraseIsFilter(reg, k + 1, gone);
      }
    }
  }

  lemma {:induction false} KeptIsNotGone(entries: seq<Entry>, gone: Entry -> bool, e: Entry)
    ensures e in Kept(entries, gone) <==> e in entries && !gone(e)
  {
    if entries != [] {
      KeptIsNotGone(entries[1..], gone, e);
    }
  }

  /** After a widget's death exactly the entries of living targets remain. */
  lemma DeathErasesItsEntries(reg: Registry, dead: nat, nulls: set<nat>, e: Entry)
    ensures e in TargetDied(reg, dead, nulls).entries <==> e in reg.entries && e.target != dead && e.target !in nulls
  {
    var gone := (e: Entry) => e.target == dead || e.target in nulls;
    var r := reg.(watched := reg.watched - {dead});
    EraseIsFilter(r, 0, gone);
    assert r.entries[0..] == r.entries && r.entries[..0] == [];
    KeptIsNotGone(r.entries, gone, e);
  }

  /** Dropping the same thing twice stages it once. */
  lemma SecondDropIsIgnored(reg: Registry, e: Entry, items: seq<Item>, later: seq<Item>)
    ensures AddPending(AddPending(reg, e, items), e, later) == AddPending(reg, e, items)
  {
    var n := AddPending(reg, e, items);
    if n != reg {
      assert Same(n.entries[|reg.entries|], e.kind, e.target, e.path, e.preferred);
    }
  }

  // ---------- Runs ----------

  /** The registry, and the references every other holder has by its own accounts. */
  datatype System = System(reg: Registry, outside: map<Ref, nat>)

  datatype Op =
    | CollectOp(candidates: seq<Entry>, items: seq<Item>)
    | AddOp(entry: Entry, items: seq<Item>)
    | FlushOp(items: seq<Item>, topics: set<string>, nulls: set<nat>, completes: Entry -> bool)
    | DiedOp(dead: nat, nulls: set<nat>)
    | DockOp(owner: nat, done: Entry -> bool)
    | ClearOp
    | OutsideAdd(r: Ref)
    | OutsideRemove(r: Ref)
    | DatasetCleared(dataset: nat)

  /** Other holders release only what they hold. */
  predicate Enabled(s: System, op: Op) {
    op.OutsideRemove? ==> CountOf(s.outside, op.r) > 0
  }

  function Step(s: System, op: Op): System {
    match op
    case CollectOp(candidates, items) => s.(reg := Collect(s.reg, candidates, items))
    case AddOp(entry, items) => s.(reg := AddPending(s.reg, entry, items))
    case FlushOp(items, topics, nulls, completes) => s.(reg := Flush(s.reg, items, topics, nulls, completes))
    case DiedOp(dead, nulls) => s.(reg := TargetDied(s.reg, dead, nulls))
    case DockOp(owner, done) => s.(reg := DockChanged(s.reg, owner, done))
    case ClearOp => s.(reg := Clear(s.reg))
    case OutsideAdd(r) =>
      System(s.reg.(counts := AddReference(s.reg.counts, r)), AddReference(s.outside, r))
    case OutsideRemove(r) =>
      System(s.reg.(counts := RemoveReference(s.reg.counts, r)), RemoveReference(s.outside, r))
    case DatasetCleared(d) =>
      System(s.reg.(counts := ClearDataset(s.reg.counts, d)), ClearDataset(s.outside, d))
  }

  /** The tracker's count of `r` is what the outside holds plus what the staged entries hold. */
  predicate Conserved(s: System, r: Ref) {
    CountOf(s.reg.counts, r) == CountOf(s.outside, r) + Holds(s.reg.entries, r)
  }

  /** The tracker forgets a dataset only when no staged entry holds a reference to `r` in it. */
  predicate Respects(s: System, op: Op, r: Ref) {
    op.DatasetCleared? && op.dataset == r.dataset ==> Holds(s.reg.entries, r) == 0
  }

  lemma RegistryStepKeeps(s: System, op: Op, r: Ref)
    requires Shaped(s.reg) && Conserved(s, r) && !op.OutsideAdd? && !op.OutsideRemove? && !op.DatasetCleared?
    ensures Shaped(Step(s, op).reg) && Conserved(Step(s, op), r)
  {
    match op
    case CollectOp(candidates, items) =>
      ClearIsErase(s.reg);
      EraseKeeps(s.reg, 0, (e: Entry) => true, r);
      StageAllKeeps(Clear(s.reg), candidates, items, r);
    case AddOp(entry, items) => StageKeeps(s.reg, entry.(refs := []), items, r);
    case FlushOp(items, topics, nulls, completes) => FlushKeeps(s.reg, 0, items, topics, nulls, completes, r);
    case DiedOp(dead, nulls) =>
      EraseKeeps(s.reg.(watched := s.reg.watched - {dead}), 0,
                 (e: Entry) => e.target == dead || e.target in nulls, r);
    case DockOp(owner, done) =>
      EraseKeeps(s.reg, 0, (e: Entry) => e.kind == DockIntent && e.target == owner && done(e), r);
    case ClearOp =>
      ClearIsErase(s.reg);
      EraseKeeps(s.reg, 0, (e: Entry) => true, r);
  }

  /** An operation of the registry leaves every other holder's share of every reference as it was. */
  lemma RegistryBalances(reg: Registry, op: Op, r: Ref)
    requires Shaped(reg) && Others(reg, r) >= 0 && !op.OutsideAdd? && !op.OutsideRemove? && !op.DatasetCleared?
    ensures var n := Step(System(reg, map[]), op).reg; Shaped(n) && Others(n, r) == Others(reg, r)
  {
    var s := System(reg, map[r := Others(reg, r)]);
    RegistryStepKeeps(s, op, r);
    assert Step(s, op).reg == Step(System(reg, map[]), op).reg;
  }

  /** For a step the count stays conserved exactly when the tracker does not forget a reference an entry holds. */
  lemma StepConserves(s: System, op: Op, r: Ref)
    requires Shaped(s.reg) && Conserved(s, r) && Enabled(s, op)
    ensures Shaped(Step(s, op).reg)
    ensures Conserved(Step(s, op), r) <==> Respects(s, op, r)
  {
    if !op.OutsideAdd? && !op.OutsideRemove? && !op.DatasetCleared? {
      RegistryStepKeeps(s, op, r);
    }
  }

  predicate LegalRun(s: System, ops: seq<Op>, r: Ref)
    decreases |ops|
  {
    ops == [] || (Enabled(s, ops[0]) && Respects(s, ops[0], r) && LegalRun(Step(s, ops[0]), ops[1..], r))
  }

  function Run(s: System, ops: seq<Op>): System
    decreases |ops|
  {
    if ops == [] then s else Run(Step(s, ops[0]), ops[1..])
  }

  const EMPTY := System(Registry(true, [], map[], {}), map[])

  lemma {:induction false} RunConserves(s: System, ops: seq<Op>, r: Ref)
    requires Shaped(s.reg) && Conserved(s, r) && LegalRun(s, ops, r)
    ensures Shaped(Run(s, ops).reg) && Conserved(Run(s, ops), r)
    decreases |ops|
  {
    if ops != [] {
      StepConserves(s, ops[0], r);
      RunConserves(Step(s, ops[0]), ops[1..], r);
    }
  }

  /**
   Over every run the tracker's count of a reference is what other holders have plus the number of staged entries
   holding it; with nothing staged and no other holder it is zero.
   */
  lemma DemandIsConserved(ops: seq<Op>, r: Ref)
    requires LegalRun(EMPTY, ops, r)
    ensures var s := Run(EMPTY, ops);
      && CountOf(s.reg.counts, r) == CountOf(s.outside, r) + Holds(s.reg.entries, r)
      && (s.reg.entries == [] && s.outside == map[] ==> CountOf(s.reg.counts, r) == 0)
  {
    RunConserves(EMPTY, ops, r);
  }

  lemma RunCons(s: System, op: Op, rest: seq<Op>)
    ensures Run(s, [op] + rest) == Run(Step(s, op), rest)
  {
    assert ([op] + rest)[1..] == rest;
  }

  lemma StageFirst(e: Entry, r: Ref)
    requires e.path.topic == r.topic != "" && !IsXY(e) && e.refs == []
    ensures var s := Step(EMPTY, AddOp(e, [Item(r.dataset, r.topic)]));
      s.reg.entries == [e.(refs := [r])] && s.reg.counts == map[r := 1] && s.outside == map[]
  {
    var items := [Item(r.dataset, r.topic)];
    assert items[1..] == [];
    assert NamingFrom(items, r.topic, []) == NamingFrom([], r.topic, [] + [r.dataset]);
    assert DatasetsNaming(items, r.topic) == [r.dataset] && [r.dataset][1..] == [];
    assert Ref(r.dataset, r.topic) == r;
    assert Ensure(Held([], map[]), r) == Held([r], map[r := 1]);
    assert EnsureAll(Held([], map[]), [r.dataset], r.topic) == EnsureAll(Ensure(Held([], map[]), r), [], r.topic);
    assert Refresh(true, e, map[], items) == Held([r], map[r := 1]);
    assert Step(EMPTY, AddOp(e, items)).reg == Stage(EMPTY.reg, e, items);
  }

  /**
   When a stopped source is forgotten while an entry still waits on it, the entry's later release takes another
   holder's reference: the count is zero although a display still holds one.
   */
  lemma ForgottenDatasetLosesAReference(e: Entry, r: Ref)
    requires e.path.topic == r.topic != "" && !IsXY(e) && e.refs == []
    ensures var s := Run(EMPTY, [AddOp(e, [Item(r.dataset, r.topic)])]
                              + ([DatasetCleared(r.dataset)] + ([OutsideAdd(r)] + ([ClearOp] + []))));
      CountOf(s.reg.counts, r) == 0 && CountOf(s.outside, r) == 1 && s.reg.entries == []
  {
    var s1 := Step(EMPTY, AddOp(e, [Item(r.dataset, r.topic)]));
    StageFirst(e, r);
    var s2 := Step(s1, DatasetCleared(r.dataset));
    var s3 := Step(s2, OutsideAdd(r));
    var s4 := Step(s3, ClearOp);
    assert s2.reg.counts == map[] && s3.reg.counts == map[r := 1];
    assert s3.reg.entries[1..] == [] && [r][1..] == [] && s3.reg.entries[0].refs == [r];
    assert RemoveReference(map[r := 1], r) == map[];
    assert ReleaseAll(map[r := 1], [r]) == ReleaseAll(map[], []);
    assert ReleaseEntries(true, s3.reg.counts, s3.reg.entries) == ReleaseEntries(true, map[], []);
    assert CountOf(s4.reg.counts, r) == 0;
    RunCons(EMPTY, AddOp(e, [Item(r.dataset, r.topic)]),
            [DatasetCleared(r.dataset)] + ([OutsideAdd(r)] + ([ClearOp] + [])));
    RunCons(s1, DatasetCleared(r.dataset), [OutsideAdd(r)] + ([ClearOp] + []));
    RunCons(s2, OutsideAdd(r), [ClearOp] + []);
    RunCons(s3, ClearOp, []);
  }
}
