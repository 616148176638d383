/**
 A load as a transaction on the session's datasets. Whatever ends it, either its data is committed or every
 dataset, source path and name is what it was before.
 */
module LoadTransactions {
  import opened Basics
  import opened LoadTickets

  datatype Dataset = Dataset(rows: seq<int>, path: string, name: string)

  /** What the load in flight has done to the session so far. */
  datatype Flight =
    | Grounded
    | Filling(id: nat)
    | Refilling(id: nat, prior: Dataset, commitName: string)

  /** How far one fan-out entry gets before its import runs, and how that import ends. */
  datatype EntryStep = FailsBeforeCreate | FailsAfterCreate | Imports
  datatype EntryRun = EntryRun(
    step: EntryStep, name: string, rows: seq<int>, startOk: bool,
    rowStop: CancelMode, wholeStop: CancelMode, shutdown: bool)

  // ---------- What a fan-out leaves behind ----------

  predicate Creates(e: EntryRun) {
    e.step != FailsBeforeCreate
  }

  /** The entry after which the loop does not go on: a whole-load stop or a shutdown during its import. */
  predicate Ends(e: EntryRun) {
    e.step == Imports && (e.wholeStop != NoCancel || e.shutdown)
  }

  /** An entry keeps its rows when its import succeeded or its stop said to keep them. */
  predicate Takes(e: EntryRun) {
    var action := if e.wholeStop != NoCancel then e.wholeStop else e.rowStop;
    e.step == Imports && !e.shutdown && (action == Keep || (action == NoCancel && e.startOk))
  }

  predicate Fails(e: EntryRun) {
    e.step != Imports || (!e.shutdown && e.wholeStop == NoCancel && e.rowStop == NoCancel && !e.startOk)
  }

  /** How many entries the loop reaches. */
  function Reached(entries: seq<EntryRun>): (n: nat)
    ensures n <= |entries|
    ensures forall i :: 0 <= i < n - 1 ==> !Ends(entries[i])
    ensures n < |entries| ==> 0 < n && Ends(entries[n - 1])
  {
    if entries == [] then 0 else if Ends(entries[0]) then 1 else 1 + Reached(entries[1..])
  }

  /** The id entry `i` creates its dataset under: ids are minted in order from `first`. */
  function IdOf(first: nat, entries: seq<EntryRun>, i: nat): (id: nat)
    requires i <= |entries|
    ensures first <= id <= first + i
  {
    if i == 0 then first
    else IdOf(first, entries, i - 1) + if Creates(entries[i - 1]) then 1 else 0
  }

  function CreatedIds(first: nat, entries: seq<EntryRun>, n: nat): seq<nat>
    requires n <= |entries|
  {
    if n == 0 then []
    else CreatedIds(first, entries, n - 1) + if Creates(entries[n - 1]) then [IdOf(first, entries, n - 1)] else []
  }

  function KeptIds(first: nat, entries: seq<EntryRun>, n: nat): seq<nat>
    requires n <= |entries|
  {
    if n == 0 then []
    else KeptIds(first, entries, n - 1) + if Takes(entries[n - 1]) then [IdOf(first, entries, n - 1)] else []
  }

  function Failures(entries: seq<EntryRun>, n: nat): nat
    requires n <= |entries|
  {
    if n == 0 then 0 else Failures(entries, n - 1) + if Fails(entries[n - 1]) then 1 else 0
  }

  /** The datasets the first `n` entries created, kept or not, before any source path is recorded. */
  ghost function Created(first: nat, entries: seq<EntryRun>, n: nat): map<nat, Dataset>
    requires n <= |entries|
  {
    if n == 0 then map[]
    else
      var e := entries[n - 1];
      var before := Created(first, entries, n - 1);
      if Creates(e) then before[IdOf(first, entries, n - 1) := Dataset(if e.step == Imports then e.rows else [], "", e.name)]
      else before
  }

  /** The datasets a committed fan-out adds: one per kept entry, with that entry's rows and the source path. */
  ghost function Kept(first: nat, entries: seq<EntryRun>, n: nat, path: string): map<nat, Dataset>
    requires n <= |entries|
  {
    if n == 0 then map[]
    else
      var e := entries[n - 1];
      var before := Kept(first, entries, n - 1, path);
      if Takes(e) then before[IdOf(first, entries, n - 1) := Dataset(e.rows, path, e.name)] else before
  }

  ghost predicate KeepsData(entries: seq<EntryRun>) {
    var n := Reached(entries);
    && (n > 0 ==> !(Ends(entries[n - 1]) && (entries[n - 1].shutdown || entries[n - 1].wholeStop == Discard)))
    && exists i :: 0 <= i < n && Takes(entries[i])
  }

  /** A stop or shutdown of the whole load, reached during an import, after which nothing is kept. */
  predicate Discards(entries: seq<EntryRun>) {
    var n := Reached(entries);
    n > 0 && Ends(entries[n - 1]) && (entries[n - 1].shutdown || entries[n - 1].wholeStop == Discard)
  }

  /**
   How a fan-out over `entries` ends: Loaded with data and no whole-load stop, Failed when it kept nothing, was not
   discarded and an entry failed, and Cancelled otherwise.
   */
  ghost predicate FanOutAnswer(entries: seq<EntryRun>, outcome: Outcome) {
    var n := Reached(entries);
    && (outcome == Loaded <==> KeepsData(entries) && !Ends(entries[n - 1]))
    && (outcome == Failed <==> !KeepsData(entries) && !Discards(entries) && exists i :: 0 <= i < n && Fails(entries[i]))
  }

  lemma {:induction false} FailuresCount(entries: seq<EntryRun>, n: nat)
    requires n <= |entries|
    ensures Failures(entries, n) > 0 <==> exists i :: 0 <= i < n && Fails(entries[i])
  {
    if n > 0 {
      FailuresCount(entries, n - 1);
    }
  }

  /** The answer in terms of what the loop has gathered when it stops. */
  lemma AnswerOf(entries: seq<EntryRun>, first: nat, shutDown: bool, wholeStop: CancelMode)
    requires var n := Reached(entries);
      && (shutDown <==> n > 0 && Ends(entries[n - 1]) && entries[n - 1].shutdown)
      && (!shutDown && n > 0 && Ends(entries[n - 1]) ==> wholeStop == entries[n - 1].wholeStop)
      && (n == 0 || !Ends(entries[n - 1]) ==> wholeStop == NoCancel)
    ensures var n := Reached(entries);
      var kept := if shutDown || wholeStop == Discard then [] else KeptIds(first, entries, n);
      && (kept != [] <==> KeepsData(entries))
      && FanOutAnswer(entries, if shutDown then Cancelled else FanOutOutcome(kept != [], Failures(entries, n), wholeStop))
  {
    KeptIdsEmpty(first, entries, Reached(entries));
    FailuresCount(entries, Reached(entries));
  }

  // ---------- Facts about ids ----------

  lemma {:induction false} CreatedShape(first: nat, entries: seq<EntryRun>, n: nat, path: string)
    requires n <= |entries|
    ensures forall id :: id in Created(first, entries, n) <==> id in CreatedIds(first, entries, n)
    ensures forall id :: id in Created(first, entries, n) ==> first <= id < IdOf(first, entries, n)
    ensures forall id :: id in Kept(first, entries, n, path) <==> id in KeptIds(first, entries, n)
    ensures forall id :: id in KeptIds(first, entries, n) ==> id in CreatedIds(first, entries, n)
    ensures forall id :: id in Kept(first, entries, n, path) ==>
      id in Created(first, entries, n)
      && Kept(first, entries, n, path)[id] == Created(first, entries, n)[id].(path := path)
  {
    if n > 0 {
      CreatedShape(first, entries, n - 1, path);
    }
  }

  lemma {:induction false} KeptIdsEmpty(first: nat, entries: seq<EntryRun>, n: nat)
    requires n <= |entries|
    ensures KeptIds(first, entries, n) != [] <==> exists i :: 0 <= i < n && Takes(entries[i])
  {
    if n > 0 {
      KeptIdsEmpty(first, entries, n - 1);
    }
  }

  // ---------- The session ----------

  class Session {
    var datasets: map<nat, Dataset>
    var hidden: set<nat>  // tombstoned in the catalog
    var nextId: nat
    var flight: Flight
    ghost var base: map<nat, Dataset>  // the datasets as they were before the load in flight
    ghost var written: seq<int>

    ghost predicate Valid()
      reads this
    {
      && (forall id :: id in datasets ==> id < nextId)
      && (forall id :: id in base ==> id < nextId)
      && match flight
         case Grounded => true
         case Filling(id) =>
           id !in base && id in datasets && datasets - {id} == base
           && datasets[id].rows == written && datasets[id].path == ""
         case Refilling(id, prior, _) =>
           id in base && id in datasets && base[id] == prior && datasets[id := prior] == base
           && datasets[id] == prior.(rows := written)
    }

    constructor ()
      ensures Valid() && datasets == map[] && hidden == {} && flight == Grounded && nextId == 1
    {
      datasets, hidden, nextId, flight, base, written := map[], {}, 1, Grounded, map[], [];
    }

    /** The catalog shows a dataset that has rows and no tombstone. */
    predicate Shows(id: nat)
      reads this
    {
      id in datasets && datasets[id].rows != [] && id !in hidden
    }

    /** Takes a dataset out of the catalog; false when the catalog does not show it. */
    method Tombstone(id: nat) returns (shown: bool)
      requires Valid()
      modifies this`hidden
      ensures Valid() && shown == old(Shows(id))
      ensures hidden == if shown then old(hidden) + {id} else old(hidden)
    {
      shown := Shows(id);
      if shown {
        hidden := hidden + {id};
      }
    }

    /** A fresh load creates its dataset in the live engine up front. */
    method BeginFresh(name: string) returns (id: nat)
      requires Valid() && flight == Grounded
      modifies this
      ensures Valid() && flight == Filling(id) && base == old(datasets) && written == [] && hidden == old(hidden)
      ensures id == old(nextId) && nextId == id + 1 && datasets == old(datasets)[id := Dataset([], "", name)]
    {
      base, written := datasets, [];
      id := nextId;
      nextId := nextId + 1;
      datasets := datasets[id := Dataset([], "", name)];
      flight := Filling(id);
      assert datasets - {id} == base;
    }

    /** A replacing load moves the prior rows aside; the rename waits for the commit. */
    method BeginRefill(id: nat, commitName: string)
      requires Valid() && flight == Grounded && id in datasets
      modifies this
      ensures Valid() && flight == Refilling(id, old(datasets)[id], commitName) && base == old(datasets) && written == []
      ensures datasets == old(datasets)[id := old(datasets)[id].(rows := [])] && hidden == old(hidden)
    {
      base, written := datasets, [];
      flight := Refilling(id, datasets[id], commitName);
      datasets := datasets[id := datasets[id].(rows := [])];
      assert datasets[id := base[id]] == base;
    }

    /** The worker flushes rows while the load is in flight; they are visible at once. */
    method Flush(rows: seq<int>)
      requires Valid() && flight != Grounded
      modifies this
      ensures Valid() && flight == old(flight) && base == old(base) && written == old(written) + rows
      ensures hidden == old(hidden) && nextId == old(nextId)
      ensures datasets == old(datasets)[flight.id := old(datasets)[flight.id].(
                rows := old(datasets)[flight.id].rows + rows)]
    {
      written := written + rows;
      var id := flight.id;
      datasets := datasets[id := datasets[id].(rows := datasets[id].rows + rows)];
      if flight.Filling? {
        assert datasets - {id} == base;
      } else {
        assert datasets[id := flight.prior] == base;
      }
    }

    /** Undoes the load in flight: discard, failed start, failed replay, prologue failure and shutdown alike. */
    method RollBack()
      requires Valid()
      modifies this
      ensures Valid() && flight == Grounded && hidden == old(hidden) && base == old(base) && nextId == old(nextId)
      ensures datasets == if old(flight) == Grounded then old(datasets) else old(base)
    {
      match flight {
        case Grounded =>
        case Filling(id) => datasets := datasets - {id};
        case Refilling(id, prior, _) => datasets := datasets[id := prior];
      }
      flight := Grounded;
    }

    /**
     The end of a worker load. It keeps its rows unless the user discarded it, the plugin failed without having been
     stopped, or the replay of a replacing load failed; then the dataset holds exactly the rows written, under the
     source path and its new name, and otherwise nothing has happened.
     */
    method Finish(cancel: CancelMode, startOk: bool, replayOk: bool, path: string)
      returns (outcome: Outcome, produced: seq<nat>)
      requires Valid() && flight != Grounded
      modifies this
      ensures Valid() && flight == Grounded && hidden == old(hidden) && nextId == old(nextId)
      ensures outcome == Cancelled <==> cancel != NoCancel
      ensures outcome == Failed <==> cancel == NoCancel && (!startOk || (old(flight).Refilling? && !replayOk))
      ensures produced == [] || produced == [old(flight).id]
      ensures produced != [] <==>
        cancel != Discard && (startOk || cancel == Keep) && (old(flight).Refilling? ==> replayOk)
      ensures produced == [] ==> datasets == old(base)
      ensures produced != [] ==>
        var id := old(flight).id;
        var name := if old(flight).Filling? || old(flight).commitName == "" then old(datasets)[id].name else old(flight).commitName;
        datasets == old(base)[id := Dataset(old(written), path, name)]
    {
      if cancel == Discard {
        RollBack();
        return Cancelled, [];
      }
      if !startOk && cancel == NoCancel {
        RollBack();
        return Failed, [];
      }
      if flight.Refilling? && !replayOk {
        RollBack();
        return if cancel == NoCancel then Failed else Cancelled, [];
      }
      var id := flight.id;
      var d := datasets[id].(path := path);
      if flight.Refilling? && flight.commitName != "" {
        d := d.(name := flight.commitName);
      }
      datasets := datasets[id := d];
      flight := Grounded;
      produced := [id];
      outcome := if cancel == Keep then Cancelled else Loaded;
      assert datasets == old(base)[id := d];
    }

    /** Drops a dataset an abandoned or replaced load leaves behind. */
    method RemoveDataset(id: nat)
      requires Valid() && flight == Grounded
      modifies this`datasets
      ensures Valid() && datasets == old(datasets) - {id}
    {
      datasets := datasets - {id};
    }

    /** Removes every created dataset that is not in the keep-list. */
    method DropUnkept(created: seq<nat>, loaded: seq<nat>)
      requires Valid() && flight == Grounded
      modifies this`datasets
      ensures Valid() && datasets == old(datasets) - (set id | id in created && id !in loaded)
    {
      var i := 0;
      while i < |created|
        invariant i <= |created| && Valid()
        invariant datasets == old(datasets) - (set id | id in created[..i] && id !in loaded)
      {
        ghost var gone := set id | id in created[..i] && id !in loaded;
        ghost var now := set id | id in created[..i + 1] && id !in loaded;
        assert created[..i + 1] == created[..i] + [created[i]];
        if created[i] !in loaded {
          assert now == gone + {created[i]};
          RemoveDataset(created[i]);
        } else {
          assert now == gone;
        }
        i := i + 1;
      }
      assert created[..|created|] == created;
    }

    /** Records the source path of every loaded dataset. */
    method RecordPaths(loaded: seq<nat>, path: string)
      requires Valid() && flight == Grounded && forall id :: id in loaded ==> id in datasets
      modifies this`datasets
      ensures Valid() && datasets == map id | id in old(datasets) ::
        if id in loaded then old(datasets)[id].(path := path) else old(datasets)[id]
    {
      var i := 0;
      while i < |loaded|
        invariant i <= |loaded| && Valid()
        invariant datasets == map id | id in old(datasets) ::
          if id in loaded[..i] then old(datasets)[id].(path := path) else old(datasets)[id]
      {
        assert loaded[..i + 1] == loaded[..i] + [loaded[i]];
        assert loaded[i] in loaded;
        datasets := datasets[loaded[i] := datasets[loaded[i]].(path := path)];
        i := i + 1;
      }
      assert loaded[..|loaded|] == loaded;
    }

    /** Creates one entry's dataset in the live engine. */
    method CreateEntry(e: EntryRun) returns (id: nat)
      requires Valid() && flight == Grounded
      modifies this`datasets, this`nextId
      ensures Valid() && id == old(nextId) && nextId == id + 1
      ensures datasets == old(datasets)[id := Dataset(if e.step == Imports then e.rows else [], "", e.name)]
    {
      id := nextId;
      nextId := nextId + 1;
      datasets := datasets[id := Dataset(if e.step == Imports then e.rows else [], "", e.name)];
    }

    /** The fan-out loop: one dataset per entry that gets that far, until an import ends under a whole-load stop or shutdown. */
    method RunImports(entries: seq<EntryRun>)
      returns (created: seq<nat>, loaded: seq<nat>, failures: nat, wholeStop: CancelMode, shutDown: bool)
      requires Valid() && flight == Grounded
      modifies this`datasets, this`nextId
      ensures Valid()
      ensures var first, n := old(nextId), Reached(entries);
        && datasets == old(datasets) + Created(first, entries, n)
        && nextId == IdOf(first, entries, n)
        && created == CreatedIds(first, entries, n) && loaded == KeptIds(first, entries, n) && failures == Failures(entries, n)
        && (shutDown <==> n > 0 && Ends(entries[n - 1]) && entries[n - 1].shutdown)
        && (!shutDown && n > 0 && Ends(entries[n - 1]) ==> wholeStop == entries[n - 1].wholeStop)
        && (n == 0 || !Ends(entries[n - 1]) ==> wholeStop == NoCancel)
    {
      ghost var first := nextId;
      var index := 0;
      created, loaded, failures, wholeStop, shutDown := [], [], 0, NoCancel, false;
      while index < |entries| && wholeStop == NoCancel && !shutDown
        invariant index <= |entries| && Valid()
        invariant forall j :: 0 <= j < index - 1 ==> !Ends(entries[j])
        invariant index > 0 ==> (Ends(entries[index - 1]) <==> wholeStop != NoCancel || shutDown)
        invariant index > 0 && !shutDown && Ends(entries[index - 1]) ==> wholeStop == entries[index - 1].wholeStop
        invariant shutDown <==> index > 0 && Ends(entries[index - 1]) && entries[index - 1].shutdown
        invariant index == 0 ==> wholeStop == NoCancel && !shutDown
        invariant datasets == old(datasets) + Created(first, entries, index)
        invariant nextId == IdOf(first, entries, index)
        invariant created == CreatedIds(first, entries, index) && loaded == KeptIds(first, entries, index)
        invariant failures == Failures(entries, index)
      {
        var e := entries[index];
        index := index + 1;
        if e.step == FailsBeforeCreate {
          failures := failures + 1;
        } else {
          var id := CreateEntry(e);
          created := created + [id];
          if e.step == FailsAfterCreate {
            failures := failures + 1;
          } else if e.shutdown {
            shutDown := true;  // the coroutine frame is destroyed while it waits for the import
          } else {
            wholeStop := e.wholeStop;
            var action := if e.wholeStop != NoCancel then e.wholeStop else e.rowStop;
            if action == Keep || (action == NoCancel && e.startOk) {
              loaded := loaded + [id];
            } else if action == NoCancel {
              failures := failures + 1;
            }
          }
        }
      }
      assert index == Reached(entries);
    }

    /** Runs the entries and clears away whatever they created but did not keep, and the scratch dataset. */
    method LoadEntries(replacing: bool, entries: seq<EntryRun>)
      returns (ghost first: nat, loaded: seq<nat>, failures: nat, wholeStop: CancelMode, shutDown: bool)
      requires Valid() && flight == Grounded
      modifies this`datasets, this`nextId
      ensures Valid() && first == old(nextId) + if replacing then 0 else 1
      ensures datasets == old(datasets) + Restrict(Created(first, entries, Reached(entries)), loaded)
      ensures var n := Reached(entries);
        && (shutDown <==> n > 0 && Ends(entries[n - 1]) && entries[n - 1].shutdown)
        && (!shutDown && n > 0 && Ends(entries[n - 1]) ==> wholeStop == entries[n - 1].wholeStop)
        && (n == 0 || !Ends(entries[n - 1]) ==> wholeStop == NoCancel)
        && loaded == (if shutDown || wholeStop == Discard then [] else KeptIds(first, entries, n))
        && failures == Failures(entries, n)
    {
      ghost var b := datasets;
      var shell: nat := 0;
      if !replacing {
        shell := nextId;
        nextId := nextId + 1;
        datasets := datasets[shell := Dataset([], "", "")];
      }
      ghost var bound := datasets;
      first := nextId;
      var created;
      created, loaded, failures, wholeStop, shutDown := RunImports(entries);
      if shutDown || wholeStop == Discard {
        loaded := [];
      }
      DropUnkept(created, loaded);
      if !replacing {
        RemoveDataset(shell);
      }
      DropUnkeptLeaves(b, replacing, shell, bound, first, entries, Reached(entries), loaded, datasets);
    }

    /**
     A load whose configuration expands into several datasets. `replaced` is the dataset the load matched, if any;
     a fresh load has bound its handle to a scratch dataset instead, which never takes rows.
     */
    method FanOut(replaced: Option<nat>, entries: seq<EntryRun>, path: string) returns (outcome: Outcome, produced: seq<nat>)
      requires Valid() && flight == Grounded
      requires replaced.Some? ==> replaced.value in datasets
      modifies this`datasets, this`nextId, this`hidden
      ensures Valid()
      ensures FanOutLeaves(old(datasets), old(hidden), old(nextId), replaced, old(replaced.Some? && Shows(replaced.value)),
                           entries, path, datasets, hidden, produced)
      ensures FanOutAnswer(entries, outcome)
    {
      var tombstoned: set<nat> := {};
      if replaced.Some? {
        var shown := Tombstone(replaced.value);
        tombstoned := if shown then {replaced.value} else {};
      }
      ghost var first;
      var failures, wholeStop, shutDown;
      first, produced, failures, wholeStop, shutDown := LoadEntries(replaced.Some?, entries);
      AnswerOf(entries, first, shutDown, wholeStop);
      if produced != [] {
        CommitFanOut(tombstoned, produced, path, old(datasets), first, entries, Reached(entries));
      } else {
        hidden := hidden - tombstoned;
        assert datasets == old(datasets);
      }
      outcome := if shutDown then Cancelled else FanOutOutcome(produced != [], failures, wholeStop);
    }

    /** Past the last rollback point: the tombstoned dataset goes for good and the kept ones get their source path. */
    method CommitFanOut(tombstoned: set<nat>, loaded: seq<nat>, path: string,
                        ghost b: map<nat, Dataset>, ghost first: nat, ghost entries: seq<EntryRun>, ghost n: nat)
      requires Valid() && flight == Grounded && n <= |entries| && loaded == KeptIds(first, entries, n)
      requires datasets == b + Restrict(Created(first, entries, n), loaded)
      requires (forall id :: id in b ==> id < first) && tombstoned <= b.Keys
      modifies this`datasets
      ensures Valid() && datasets == (b - tombstoned) + Kept(first, entries, n, path)
    {
      CreatedShape(first, entries, n, path);
      datasets := datasets - tombstoned;
      ghost var d := datasets;
      RecordPaths(loaded, path);
      RecordedIsKept(b, tombstoned, first, entries, n, path, d, datasets);
    }
  }

  lemma RecordedIsKept(b: map<nat, Dataset>, tombstoned: set<nat>, first: nat, entries: seq<EntryRun>, n: nat,
                       path: string, d: map<nat, Dataset>, after: map<nat, Dataset>)
    requires n <= |entries| && (forall id :: id in b ==> id < first) && tombstoned <= b.Keys
    requires d == (b + Restrict(Created(first, entries, n), KeptIds(first, entries, n))) - tombstoned
    requires after == map id | id in d :: if id in KeptIds(first, entries, n) then d[id].(path := path) else d[id]
    ensures after == (b - tombstoned) + Kept(first, entries, n, path)
  {
    CreatedShape(first, entries, n, path);
    var want := (b - tombstoned) + Kept(first, entries, n, path);
    forall id
      ensures id in after <==> id in want
      ensures id in after ==> after[id] == want[id]
    {
      if id in KeptIds(first, entries, n) {
        assert id in Restrict(Created(first, entries, n), KeptIds(first, entries, n));
      }
    }
  }

  /** The part of `m` whose ids are in `ids`. */
  ghost function Restrict(m: map<nat, Dataset>, ids: seq<nat>): map<nat, Dataset> {
    map id | id in m && id in ids :: m[id]
  }

  /** The cleanup leaves the old datasets and, of the created ones, exactly the kept ones. */
  lemma DropUnkeptLeaves(
    b: map<nat, Dataset>, replacing: bool, shell: nat, bound: map<nat, Dataset>, first: nat,
    entries: seq<EntryRun>, n: nat, loaded: seq<nat>, after: map<nat, Dataset>)
    requires n <= |entries| && forall id :: id in b ==> id < first
    requires !replacing ==> shell !in b && shell < first && bound == b[shell := Dataset([], "", "")]
    requires replacing ==> bound == b
    requires loaded == [] || loaded == KeptIds(first, entries, n)
    requires var cleaned := (bound + Created(first, entries, n)) - (set id | id in CreatedIds(first, entries, n) && id !in loaded);
      after == if replacing then cleaned else cleaned - {shell}
    ensures after == b + Restrict(Created(first, entries, n), loaded)
  {
    CreatedShape(first, entries, n, "");
    var c := Created(first, entries, n);
    var want := b + Restrict(c, loaded);
    forall id
      ensures id in after <==> id in want
      ensures id in after ==> after[id] == want[id]
    {
      if id in c {
        assert id in CreatedIds(first, entries, n) && id >= first;
      }
    }
  }

  /**
   What a fan-out leaves of the datasets `b`: with something kept, exactly `b` without the dataset it replaced and
   with the kept entries; otherwise exactly `b`. The matched dataset is replaced only if the catalog showed it.
   */
  ghost predicate FanOutLeaves(
    b: map<nat, Dataset>, hiddenBefore: set<nat>, nextIdBefore: nat, replaced: Option<nat>, shown: bool,
    entries: seq<EntryRun>, path: string, after: map<nat, Dataset>, hiddenAfter: set<nat>, produced: seq<nat>)
  {
    var first := nextIdBefore + if replaced.None? then 1 else 0;
    var n := Reached(entries);
    var gone := if replaced.Some? && shown then {replaced.value} else {};
    if KeepsData(entries) then
      && after == (b - gone) + Kept(first, entries, n, path)
      && hiddenAfter == hiddenBefore + gone
      && produced == KeptIds(first, entries, n)
    else
      after == b && hiddenAfter == hiddenBefore && produced == []
  }

  /** A fan-out removes the dataset it matched exactly when it keeps something and the catalog was showing that dataset. */
  lemma ReplacedExactlyWhenShown(
    b: map<nat, Dataset>, hiddenBefore: set<nat>, nextIdBefore: nat, replaced: nat, shown: bool,
    entries: seq<EntryRun>, path: string, after: map<nat, Dataset>, hiddenAfter: set<nat>, produced: seq<nat>)
    requires FanOutLeaves(b, hiddenBefore, nextIdBefore, Some(replaced), shown, entries, path, after, hiddenAfter, produced)
    requires replaced in b && forall id :: id in b ==> id < nextIdBefore
    ensures replaced !in after <==> KeepsData(entries) && shown
  {
    CreatedShape(nextIdBefore, entries, Reached(entries), path);
  }

  /** The entries get increasing ids, so two that create a dataset never share one. */
  lemma {:induction false} IdsDiffer(first: nat, entries: seq<EntryRun>, i: nat, j: nat)
    requires i < j <= |entries| && Creates(entries[i])
    ensures IdOf(first, entries, i) < IdOf(first, entries, j)
  {
    if i < j - 1 {
      IdsDiffer(first, entries, i, j - 1);
    }
  }

  /** The entry `i` is one that keeps its rows, and `id` is the dataset it keeps them in. */
  ghost predicate KeptFrom(first: nat, entries: seq<EntryRun>, n: nat, path: string, id: nat, i: nat)
    requires n <= |entries|
  {
    && i < n && Takes(entries[i]) && id == IdOf(first, entries, i)
    && id in Kept(first, entries, n, path)
    && Kept(first, entries, n, path)[id] == Dataset(entries[i].rows, path, entries[i].name)
  }

  lemma KeptGrows(first: nat, entries: seq<EntryRun>, n: nat, path: string, i: nat)
    requires i < n <= |entries| && Takes(entries[i])
    requires i < n - 1 ==> KeptFrom(first, entries, n - 1, path, IdOf(first, entries, i), i)
    ensures KeptFrom(first, entries, n, path, IdOf(first, entries, i), i)
  {
    if i < n - 1 { IdsDiffer(first, entries, i, n - 1); }
  }

  lemma {:induction false} TakenIsKept(first: nat, entries: seq<EntryRun>, n: nat, path: string, i: nat)
    requires i < n <= |entries| && Takes(entries[i])
    ensures KeptFrom(first, entries, n, path, IdOf(first, entries, i), i)
  {
    if i < n - 1 { TakenIsKept(first, entries, n - 1, path, i); }
    KeptGrows(first, entries, n, path, i);
  }

  lemma {:induction false} KeptWasTaken(first: nat, entries: seq<EntryRun>, n: nat, path: string, id: nat)
    returns (i: nat)
    requires n <= |entries| && id in Kept(first, entries, n, path)
    ensures KeptFrom(first, entries, n, path, id, i)
  {
    if id in Kept(first, entries, n - 1, path) {
      i := KeptWasTaken(first, entries, n - 1, path, id);
    } else {
      i := n - 1;
    }
    KeptGrows(first, entries, n, path, i);
  }

  /** The kept datasets are exactly those of the entries that take their rows, each under its own id with its rows. */
  lemma KeptExactly(first: nat, entries: seq<EntryRun>, n: nat, path: string)
    requires n <= |entries|
    ensures forall i: nat :: i < n && Takes(entries[i]) ==>
      KeptFrom(first, entries, n, path, IdOf(first, entries, i), i)
    ensures forall id :: id in Kept(first, entries, n, path) ==> exists i: nat :: KeptFrom(first, entries, n, path, id, i)
    ensures forall i: nat, j: nat :: i < j < n && Takes(entries[i]) && Takes(entries[j]) ==>
      IdOf(first, entries, i) != IdOf(first, entries, j)
  {
    forall i: nat | i < n && Takes(entries[i]) ensures KeptFrom(first, entries, n, path, IdOf(first, entries, i), i) {
      TakenIsKept(first, entries, n, path, i);
    }
    forall id | id in Kept(first, entries, n, path) ensures exists i: nat :: KeptFrom(first, entries, n, path, id, i) {
      var i := KeptWasTaken(first, entries, n, path, id);
    }
    forall i: nat, j: nat | i < j < n && Takes(entries[i]) && Takes(entries[j])
      ensures IdOf(first, entries, i) != IdOf(first, entries, j) {
      IdsDiffer(first, entries, i, j);
    }
  }

  // ---------- Matched datasets that are not replaced ----------

  /** One entry whose import succeeds. */
  const ONE_ENTRY := EntryRun(Imports, "f/1", [4], true, NoCancel, NoCancel, false)

  lemma OneEntryIsKept(path: string)
    ensures Reached([ONE_ENTRY]) == 1 && KeepsData([ONE_ENTRY]) && KeptIds(2, [ONE_ENTRY], 1) == [2]
    ensures Kept(2, [ONE_ENTRY], 1, path) == map[2 := Dataset([4], path, "f/1")]
  {
    assert Takes(ONE_ENTRY) && Creates(ONE_ENTRY) && !Ends(ONE_ENTRY);
    assert [ONE_ENTRY][0] == ONE_ENTRY && [ONE_ENTRY][1..] == [];
    assert KeptIds(2, [ONE_ENTRY], 1) == [] + [IdOf(2, [ONE_ENTRY], 0)];
    assert Reached([]) == 0;
  }

  /** A fan-out over dataset 1 that keeps an entry leaves dataset 1 in the session when the catalog did not show it. */
  lemma UnshownMatchStays(d: Dataset, hidden: set<nat>, path: string)
    ensures FanOutLeaves(map[1 := d], hidden, 2, Some(1), false, [ONE_ENTRY], path,
                         map[1 := d, 2 := Dataset([4], path, "f/1")], hidden, [2])
  {
    OneEntryIsKept(path);
    assert (map[1 := d] - {}) + map[2 := Dataset([4], path, "f/1")] == map[1 := d, 2 := Dataset([4], path, "f/1")];
    assert hidden + {} == hidden;
  }

  /** The matched dataset is empty: an earlier load of the source brought no rows. */
  method ReplaceEmpty() returns (s: Session)
    ensures fresh(s) && s.datasets == map[1 := Dataset([], "f", "f"), 2 := Dataset([4], "f", "f/1")]
  {
    s := new Session();
    var id := s.BeginFresh("f");
    var outcome, produced := s.Finish(NoCancel, true, true, "f");
    assert s.datasets == map[1 := Dataset([], "f", "f")];
    outcome, produced := s.FanOut(Some(1), [ONE_ENTRY], "f");
    OneEntryIsKept("f");
  }

  /** The matched dataset has rows, and the user has taken it out of the catalog. */
  method ReplaceTombstoned() returns (s: Session)
    ensures fresh(s) && s.datasets == map[1 := Dataset([3], "f", "f"), 2 := Dataset([4], "f", "f/1")]
  {
    s := new Session();
    var id := s.BeginFresh("f");
    s.Flush([3]);
    assert s.written == [3] by { assert [] + [3] == [3]; }
    var outcome, produced := s.Finish(NoCancel, true, true, "f");
    assert s.datasets == map[1 := Dataset([3], "f", "f")];
    var shown := s.Tombstone(1);
    outcome, produced := s.FanOut(Some(1), [ONE_ENTRY], "f");
    OneEntryIsKept("f");
  }
}
