/**
 Replay configurations: JSON objects that carry further objects as text inside `__pj_fanout`. The text grammar is a
 parameter, known only by what Faithful says of it; the syntax of file paths is a parameter too.
 */
module ReplayConfig {
  import opened Basics

  datatype Json =
    | JNull
    | JBool(b: bool)
    | JNumber(n: string)
    | JString(s: string)
    | JArray(items: seq<Json>)
    | JObject(members: map<string, Json>)

  /** A parsed configuration, its `__pj_fanout` member apart from the others. */
  datatype Object = Object(members: map<string, Json>, fanout: Option<Json>)

  const SAVED := "__pj_saved_filepath"
  const FILEPATH := "filepath"

  /** JSON text and path syntax: parse answers only for objects, print is the compact form. */
  datatype Grammar = Grammar(
    parse: string -> Option<Object>, compact: Object -> string, absolute: string -> bool, clean: string -> string)

  predicate Contains(text: string, part: string) {
    exists k :: 0 <= k <= |text| - |part| && Occurs(text, part, k)
  }

  predicate Occurs(text: string, part: string, k: nat) {
    k + |part| <= |text| && text[k..k + |part|] == part
  }

  /** The fan-out entries; none unless the member is an array. */
  function Entries(o: Object): seq<Json> {
    if o.fanout.Some? && o.fanout.value.JArray? then o.fanout.value.items else []
  }

  /** A fan-out entry that is a string parsing as an object. */
  predicate IsChild(g: Grammar, entry: Json) {
    entry.JString? && g.parse(entry.s).Some?
  }

  function Child(g: Grammar, entry: Json): Object
    requires IsChild(g, entry)
  {
    g.parse(entry.s).value
  }

  predicate Shows(entry: Json) {
    entry.JString? && Contains(entry.s, SAVED)
  }

  /** The saved-path key is in the object itself or in the text of one of its fan-out entries. */
  predicate Mentions(o: Object) {
    SAVED in o.members || exists k :: 0 <= k < |Entries(o)| && Shows(Entries(o)[k])
  }

  predicate Shorter(entry: Json, s: string) {
    entry.JString? ==> |entry.s| < |s|
  }

  /**
   What the rest relies on: printing is undone by parsing, a fan-out entry is shorter than the text it came from, and
   the printed form shows the saved-path key wherever the object or one of its entries has it.
   */
  ghost predicate Faithful(g: Grammar) {
    && (forall o {:trigger g.compact(o)} :: g.parse(g.compact(o)) == Some(o))
    && (forall o {:trigger g.compact(o)} :: Mentions(o) ==> Contains(g.compact(o), SAVED))
    && (forall s {:trigger g.parse(s)} :: g.parse(s).Some? ==>
          forall k :: 0 <= k < |Entries(g.parse(s).value)| ==> Shorter(Entries(g.parse(s).value)[k], s))
    && g.parse("") == None
  }

  // ---------- Edits of one object ----------

  /** What a pass does to the members of each object it visits. */
  datatype Edit = Rewrite(target: string, record: bool) | StripSaved

  predicate HasScheme(path: string) {
    Contains(path, "://")
  }

  predicate IsRebasable(g: Grammar, previous: Option<Json>, target: string) {
    && previous.Some? && previous.value.JString?
    && var path := previous.value.s;
       path != "" && !HasScheme(path) && g.absolute(path) && g.clean(path) != g.clean(target)
  }

  function Member(m: map<string, Json>, key: string): Option<Json> {
    if key in m then Some(m[key]) else None
  }

  function Apply(g: Grammar, edit: Edit, m: map<string, Json>): map<string, Json> {
    match edit
    case StripSaved => m - {SAVED}
    case Rewrite(target, record) =>
      var previous := Member(m, FILEPATH);
      var cleared := m - {SAVED};
      var saved := if record && IsRebasable(g, previous, target) then cleared[SAVED := previous.value] else cleared;
      saved[FILEPATH := JString(target)]
  }

  // ---------- Deep edits ----------

  function Longest(entries: seq<Json>): nat {
    if entries == [] then 0
    else
      var rest := Longest(entries[1..]);
      if entries[0].JString? && |entries[0].s| + 1 > rest then |entries[0].s| + 1 else rest
  }

  lemma {:induction false} LongestBounds(entries: seq<Json>, k: nat)
    requires k < |entries| && entries[k].JString?
    ensures |entries[k].s| < Longest(entries)
  {
    if k > 0 { LongestBounds(entries[1..], k - 1); }
  }

  lemma {:induction false} LongestBelow(entries: seq<Json>, s: string)
    requires forall k :: 0 <= k < |entries| ==> Shorter(entries[k], s)
    ensures Longest(entries) <= |s|
  {
    if entries != [] {
      assert Shorter(entries[0], s);
      forall k | 0 <= k < |entries[1..]| ensures Shorter(entries[1..][k], s) { assert Shorter(entries[k + 1], s); }
      LongestBelow(entries[1..], s);
    }
  }

  /** The measure that goes down through the string encoding. */
  lemma ChildIsSmaller(g: Grammar, entries: seq<Json>, k: nat)
    requires Faithful(g) && k < |entries| && IsChild(g, entries[k])
    ensures Longest(Entries(Child(g, entries[k]))) < Longest(entries)
  {
    LongestBounds(entries, k);
    LongestBelow(Entries(Child(g, entries[k])), entries[k].s);
  }

  /** The edit applied to the object and, through the strings of its fan-out array, to every child at any depth. */
  ghost function Deep(g: Grammar, edit: Edit, o: Object): Object
    requires Faithful(g)
    decreases Longest(Entries(o)), 1, 0
  {
    Object(Apply(g, edit, o.members),
           if o.fanout.Some? && o.fanout.value.JArray? then Some(JArray(DeepEntries(g, edit, Entries(o), 0)))
           else o.fanout)
  }

  ghost function DeepEntries(g: Grammar, edit: Edit, entries: seq<Json>, k: nat): (r: seq<Json>)
    requires Faithful(g) && k <= |entries|
    ensures |r| == |entries| - k
    decreases Longest(entries), 0, |entries| - k
  {
    if k == |entries| then []
    else if IsChild(g, entries[k]) then
      ChildIsSmaller(g, entries, k);
      [JString(g.compact(Deep(g, edit, Child(g, entries[k]))))] + DeepEntries(g, edit, entries, k + 1)
    else [entries[k]] + DeepEntries(g, edit, entries, k + 1)
  }

  lemma {:induction false} DeepEntriesAt(g: Grammar, edit: Edit, entries: seq<Json>, k: nat, j: nat)
    requires Faithful(g) && k <= j < |entries|
    ensures DeepEntries(g, edit, entries, k)[j - k]
         == if IsChild(g, entries[j]) then JString(g.compact(Deep(g, edit, Child(g, entries[j])))) else entries[j]
    decreases j - k
  {
    if k < j {
      DeepEntriesAt(g, edit, entries, k + 1, j);
    }
  }

  /** Entry by entry: a child becomes the text of its own deep edit, anything else passes through. */
  lemma DeepEntry(g: Grammar, edit: Edit, o: Object, j: nat)
    requires Faithful(g) && j < |Entries(o)|
    ensures |Entries(Deep(g, edit, o))| == |Entries(o)|
    ensures var e := Entries(o)[j];
      if IsChild(g, e) then
        && Entries(Deep(g, edit, o))[j] == JString(g.compact(Deep(g, edit, Child(g, e))))
        && IsChild(g, Entries(Deep(g, edit, o))[j])
        && Child(g, Entries(Deep(g, edit, o))[j]) == Deep(g, edit, Child(g, e))
      else Entries(Deep(g, edit, o))[j] == e
  {
    DeepEntriesAt(g, edit, Entries(o), 0, j);
  }

  // ---------- Fusion ----------

  /** Two passes over a configuration are one pass when the edits compose on each object. */
  lemma {:induction false} PassesFuse(g: Grammar, first: Edit, second: Edit, both: Edit, o: Object)
    requires Faithful(g)
    requires forall m :: Apply(g, second, Apply(g, first, m)) == Apply(g, both, m)
    ensures Deep(g, second, Deep(g, first, o)) == Deep(g, both, o)
    decreases Longest(Entries(o))
  {
    var d := Deep(g, first, o);
    forall j | 0 <= j < |Entries(o)|
      ensures |Entries(d)| == |Entries(o)| && Entries(Deep(g, second, d))[j] == Entries(Deep(g, both, o))[j]
    {
      DeepEntry(g, first, o, j);
      DeepEntry(g, second, d, j);
      DeepEntry(g, both, o, j);
      if IsChild(g, Entries(o)[j]) {
        ChildIsSmaller(g, Entries(o), j);
        PassesFuse(g, first, second, both, Child(g, Entries(o)[j]));
      }
    }
    SameEntries(Deep(g, second, d), Deep(g, both, o));
  }

  lemma SameEntries(a: Object, b: Object)
    requires a.members == b.members && |Entries(a)| == |Entries(b)|
    requires forall j :: 0 <= j < |Entries(a)| ==> Entries(a)[j] == Entries(b)[j]
    requires a.fanout == b.fanout || (a.fanout.Some? && b.fanout.Some? && a.fanout.value.JArray? && b.fanout.value.JArray?)
    ensures a == b
  {
    assert Entries(a) == Entries(b);
  }

  lemma StripAfterRecord(g: Grammar, target: string, m: map<string, Json>)
    ensures Apply(g, StripSaved, Apply(g, Rewrite(target, true), m)) == Apply(g, Rewrite(target, false), m)
  {
  }

  lemma RewriteAfterRewrite(g: Grammar, target: string, record: bool, again: bool, m: map<string, Json>)
    ensures Apply(g, Rewrite(target, again), Apply(g, Rewrite(target, record), m)) == Apply(g, Rewrite(target, false), m)
  {
  }

  // ---------- The passes over text ----------

  /** rewriteReplayFilepaths. */
  ghost function Rewritten(g: Grammar, config: string, target: string, record: bool): Option<string>
    requires Faithful(g)
  {
    if config == "" then Some(g.compact(Deep(g, Rewrite(target, record), Object(map[], None))))
    else if g.parse(config).None? then None
    else Some(g.compact(Deep(g, Rewrite(target, record), g.parse(config).value)))
  }

  /** stripHostReplayKeys, with the substring test it begins with. */
  ghost function Stripped(g: Grammar, config: string): string
    requires Faithful(g)
  {
    if !Contains(config, SAVED) || g.parse(config).None? then config
    else g.compact(Deep(g, StripSaved, g.parse(config).value))
  }

  /** The source object of a rewrite: what an empty text stands for, or what the text says. */
  function Origin(g: Grammar, config: string): Object
    requires config != "" ==> g.parse(config).Some?
  {
    if config == "" then Object(map[], None) else g.parse(config).value
  }

  /** A pass has been over the object: no text in it shows the saved-path key, so stripping changes nothing. */
  lemma {:induction false} NothingToStrip(g: Grammar, edit: Edit, o: Object)
    requires Faithful(g) && !Mentions(Deep(g, edit, o))
    ensures Deep(g, StripSaved, Deep(g, edit, o)) == Deep(g, edit, o)
    decreases Longest(Entries(o))
  {
    var d := Deep(g, edit, o);
    assert Apply(g, StripSaved, d.members) == d.members;
    forall j | 0 <= j < |Entries(o)|
      ensures |Entries(d)| == |Entries(o)| && Entries(Deep(g, StripSaved, d))[j] == Entries(d)[j]
    {
      DeepEntry(g, edit, o, j);
      DeepEntry(g, StripSaved, d, j);
      if IsChild(g, Entries(o)[j]) {
        var c := Child(g, Entries(o)[j]);
        ChildIsSmaller(g, Entries(o), j);
        assert !Shows(Entries(d)[j]);
        assert !Mentions(Deep(g, edit, c));
        NothingToStrip(g, edit, c);
      }
    }
    SameEntries(Deep(g, StripSaved, d), d);
  }

  /** Stripping a recorded rewrite gives the rewrite that records nothing, shortcut included. */
  lemma StripUndoesRecording(g: Grammar, config: string, target: string)
    requires Faithful(g)
    ensures Rewritten(g, config, target, true).Some? <==> Rewritten(g, config, target, false).Some?
    ensures Rewritten(g, config, target, true).Some? ==>
      Some(Stripped(g, Rewritten(g, config, target, true).value)) == Rewritten(g, config, target, false)
  {
    if Rewritten(g, config, target, true).Some? {
      var o := Origin(g, config);
      var d := Deep(g, Rewrite(target, true), o);
      forall m ensures Apply(g, StripSaved, Apply(g, Rewrite(target, true), m)) == Apply(g, Rewrite(target, false), m) {
        StripAfterRecord(g, target, m);
      }
      PassesFuse(g, Rewrite(target, true), StripSaved, Rewrite(target, false), o);
      if !Contains(g.compact(d), SAVED) {
        NothingToStrip(g, Rewrite(target, true), o);
      }
    }
  }

  /**
   A second rewrite to the same path forgets what the first recorded: recording twice, or at all before a rewrite,
   equals recording nothing; in particular the rewrite that records nothing is idempotent.
   */
  lemma SecondRewriteRecordsNothing(g: Grammar, config: string, target: string, record: bool, again: bool)
    requires Faithful(g) && Rewritten(g, config, target, record).Some?
    ensures Rewritten(g, Rewritten(g, config, target, record).value, target, again)
         == Rewritten(g, config, target, false)
  {
    var o := Origin(g, config);
    forall m ensures
        Apply(g, Rewrite(target, again), Apply(g, Rewrite(target, record), m)) == Apply(g, Rewrite(target, false), m) {
      RewriteAfterRewrite(g, target, record, again, m);
    }
    PassesFuse(g, Rewrite(target, record), Rewrite(target, again), Rewrite(target, false), o);
  }

  /** Nothing is rewritten exactly for a text that is there and is not an object. */
  lemma RewriteRefusesOnlyNonObjects(g: Grammar, config: string, target: string, record: bool)
    requires Faithful(g)
    ensures Rewritten(g, config, target, record).None? <==> config != "" && g.parse(config).None?
  {
  }

  // ---------- What a rewritten configuration says ----------

  /** At every depth the object's own file path is `target`. */
  ghost predicate PointsAt(g: Grammar, o: Object, target: string)
    requires Faithful(g)
    decreases Longest(Entries(o))
  {
    && Member(o.members, FILEPATH) == Some(JString(target))
    && forall j :: 0 <= j < |Entries(o)| && IsChild(g, Entries(o)[j]) ==>
         (ChildIsSmaller(g, Entries(o), j); PointsAt(g, Child(g, Entries(o)[j]), target))
  }

  lemma {:induction false} RewritePointsAt(g: Grammar, o: Object, target: string, record: bool)
    requires Faithful(g)
    ensures PointsAt(g, Deep(g, Rewrite(target, record), o), target)
    decreases Longest(Entries(o))
  {
    var d := Deep(g, Rewrite(target, record), o);
    forall j | 0 <= j < |Entries(d)| && IsChild(g, Entries(d)[j])
      ensures (ChildIsSmaller(g, Entries(d), j); PointsAt(g, Child(g, Entries(d)[j]), target))
    {
      ChildIsSmaller(g, Entries(d), j);
      DeepEntry(g, Rewrite(target, record), o, j);
      assert IsChild(g, Entries(o)[j]);
      ChildIsSmaller(g, Entries(o), j);
      RewritePointsAt(g, Child(g, Entries(o)[j]), target, record);
    }
  }

  /** At every depth the saved path is there exactly when the object's old path could be rebased, and is that path. */
  ghost predicate Records(g: Grammar, before: Object, after: Object, target: string)
    requires Faithful(g)
    decreases Longest(Entries(before))
  {
    && (var path := Member(before.members, FILEPATH);
        Member(after.members, SAVED)
          == if && path.Some? && path.value.JString? && path.value.s != "" && !Contains(path.value.s, "://")
                && g.absolute(path.value.s) && g.clean(path.value.s) != g.clean(target)
             then path else None)
    && |Entries(after)| == |Entries(before)|
    && forall j :: 0 <= j < |Entries(before)| && IsChild(g, Entries(before)[j]) ==>
         && IsChild(g, Entries(after)[j])
         && (ChildIsSmaller(g, Entries(before), j);
             Records(g, Child(g, Entries(before)[j]), Child(g, Entries(after)[j]), target))
  }

  lemma {:induction false} RewriteRecords(g: Grammar, o: Object, target: string)
    requires Faithful(g)
    ensures Records(g, o, Deep(g, Rewrite(target, true), o), target)
    decreases Longest(Entries(o))
  {
    var d := Deep(g, Rewrite(target, true), o);
    forall j | 0 <= j < |Entries(o)| && IsChild(g, Entries(o)[j])
      ensures IsChild(g, Entries(d)[j])
      ensures (ChildIsSmaller(g, Entries(o), j); Records(g, Child(g, Entries(o)[j]), Child(g, Entries(d)[j]), target))
    {
      ChildIsSmaller(g, Entries(o), j);
      DeepEntry(g, Rewrite(target, true), o, j);
      RewriteRecords(g, Child(g, Entries(o)[j]), target);
    }
  }

  /**
   At every depth only the members named in `keys` differ; a fan-out member that is no array, and entries that are no
   child, are the same, and every child is still one in its place.
   */
  ghost predicate SameElsewhere(g: Grammar, before: Object, after: Object, keys: set<string>)
    requires Faithful(g)
    decreases Longest(Entries(before))
  {
    && (forall key :: key !in keys ==> Member(after.members, key) == Member(before.members, key))
    && (before.fanout.Some? && before.fanout.value.JArray? <==> after.fanout.Some? && after.fanout.value.JArray?)
    && (!(before.fanout.Some? && before.fanout.value.JArray?) ==> after.fanout == before.fanout)
    && |Entries(after)| == |Entries(before)|
    && forall j :: 0 <= j < |Entries(before)| ==>
         if IsChild(g, Entries(before)[j]) then
           && IsChild(g, Entries(after)[j])
           && (ChildIsSmaller(g, Entries(before), j);
               SameElsewhere(g, Child(g, Entries(before)[j]), Child(g, Entries(after)[j]), keys))
         else Entries(after)[j] == Entries(before)[j]
  }

  /** A rewrite changes the file path and the saved path alone, a strip the saved path alone, at every depth. */
  lemma {:induction false} EditKeepsTheRest(g: Grammar, edit: Edit, o: Object)
    requires Faithful(g)
    ensures SameElsewhere(g, o, Deep(g, edit, o), if edit.Rewrite? then {FILEPATH, SAVED} else {SAVED})
    ensures edit.StripSaved? ==> Member(Deep(g, edit, o).members, SAVED).None?
    decreases Longest(Entries(o))
  {
    var d := Deep(g, edit, o);
    var keys := if edit.Rewrite? then {FILEPATH, SAVED} else {SAVED};
    forall j | 0 <= j < |Entries(o)|
      ensures |Entries(d)| == |Entries(o)|
      ensures if IsChild(g, Entries(o)[j]) then
                && IsChild(g, Entries(d)[j])
                && (ChildIsSmaller(g, Entries(o), j);
                    SameElsewhere(g, Child(g, Entries(o)[j]), Child(g, Entries(d)[j]), keys))
              else Entries(d)[j] == Entries(o)[j]
    {
      DeepEntry(g, edit, o, j);
      if IsChild(g, Entries(o)[j]) {
        ChildIsSmaller(g, Entries(o), j);
        EditKeepsTheRest(g, edit, Child(g, Entries(o)[j]));
      }
    }
    EntriesStayAsMany(g, edit, o);
  }

  lemma EntriesStayAsMany(g: Grammar, edit: Edit, o: Object)
    requires Faithful(g)
    ensures |Entries(Deep(g, edit, o))| == |Entries(o)|
  {
  }

  // ---------- extractFanout ----------

  function Texts(entries: seq<Json>): seq<string> {
    if entries == [] then []
    else if entries[0].JString? then [entries[0].s] + Texts(entries[1..])
    else Texts(entries[1..])
  }

  /** The per-instance configurations; the whole text when it declares no usable fan-out. */
  function Extracted(g: Grammar, config: string): seq<string> {
    if config == "" || g.parse(config).None? then [config]
    else
      var texts := Texts(Entries(g.parse(config).value));
      if texts == [] then [config] else texts
  }

  method ExtractFanout(g: Grammar, config: string) returns (out: seq<string>)
    ensures out == Extracted(g, config)
  {
    if config == "" || g.parse(config).None? {
      return [config];
    }
    var o := g.parse(config).value;
    if o.fanout.None? || !o.fanout.value.JArray? {
      return [config];
    }
    var entries := o.fanout.value.items;
    out := [];
    assert entries[0..] == entries;
    for k := 0 to |entries|
      invariant out + Texts(entries[k..]) == Texts(entries)
    {
      assert entries[k..][1..] == entries[k + 1..];
      if entries[k].JString? {
        out := out + [entries[k].s];
      }
    }
    if out == [] {
      return [config];
    }
  }

  /** How many of the first `k` entries are strings. */
  function StringsBefore(entries: seq<Json>, k: nat): nat
    requires k <= |entries|
  {
    if k == 0 then 0 else StringsBefore(entries, k - 1) + if entries[k - 1].JString? then 1 else 0
  }

  lemma {:induction false} StringsFromFront(entries: seq<Json>, k: nat)
    requires 0 < k <= |entries|
    ensures StringsBefore(entries, k) == (if entries[0].JString? then 1 else 0) + StringsBefore(entries[1..], k - 1)
  {
    if k > 1 { StringsFromFront(entries, k - 1); }
  }

  /** The texts are the string entries, each in its place: one for every string entry, in array order, repeats included. */
  lemma {:induction false} TextsInOrder(entries: seq<Json>, k: nat)
    requires k < |entries| && entries[k].JString?
    ensures |Texts(entries)| == StringsBefore(entries, |entries|)
    ensures StringsBefore(entries, k) < |Texts(entries)| && Texts(entries)[StringsBefore(entries, k)] == entries[k].s
    decreases |entries|
  {
    TextsCount(entries);
    if k > 0 {
      TextsInOrder(entries[1..], k - 1);
      StringsFromFront(entries, k);
    }
  }

  lemma {:induction false} TextsCount(entries: seq<Json>)
    ensures |Texts(entries)| == StringsBefore(entries, |entries|)
  {
    if entries != [] {
      TextsCount(entries[1..]);
      StringsFromFront(entries, |entries|);
    }
  }

  lemma {:induction false} TextsComeFrom(entries: seq<Json>, t: string)
    ensures t in Texts(entries) <==> exists k :: 0 <= k < |entries| && entries[k] == JString(t)
  {
    if entries != [] {
      TextsComeFrom(entries[1..], t);
      if exists k :: 0 <= k < |entries| && entries[k] == JString(t) {
        var k :| 0 <= k < |entries| && entries[k] == JString(t);
        if k > 0 { assert entries[1..][k - 1] == JString(t); }
      }
    }
  }

  /** Every instance of a rewritten configuration that is an object points at the new path, at every depth. */
  lemma EveryInstancePointsAt(g: Grammar, config: string, target: string, record: bool, t: string)
    requires Faithful(g) && Rewritten(g, config, target, record).Some?
    requires t in Extracted(g, Rewritten(g, config, target, record).value) && g.parse(t).Some?
    ensures PointsAt(g, g.parse(t).value, target)
  {
    var d := Deep(g, Rewrite(target, record), Origin(g, config));
    RewritePointsAt(g, Origin(g, config), target, record);
    var entries := Entries(d);
    if Texts(entries) != [] {
      TextsComeFrom(entries, t);
      var k :| 0 <= k < |entries| && entries[k] == JString(t);
      assert IsChild(g, entries[k]);
      ChildIsSmaller(g, entries, k);
    }
  }

  // ---------- The recursion with its array-building loop ----------

  method EditDeep(g: Grammar, edit: Edit, o: Object) returns (r: Object)
    requires Faithful(g)
    ensures r == Deep(g, edit, o)
    decreases Longest(Entries(o)), 1
  {
    var members := Apply(g, edit, o.members);
    if o.fanout.None? || !o.fanout.value.JArray? {
      return Object(members, o.fanout);
    }
    var mapped := EditEntries(g, edit, o.fanout.value.items);
    r := Object(members, Some(JArray(mapped)));
  }

  method EditEntries(g: Grammar, edit: Edit, entries: seq<Json>) returns (mapped: seq<Json>)
    requires Faithful(g)
    ensures mapped == DeepEntries(g, edit, entries, 0)
    decreases Longest(entries), 0
  {
    mapped := [];
    ghost var whole := DeepEntries(g, edit, entries, 0);
    for k := 0 to |entries|
      invariant |mapped| == k && forall j :: 0 <= j < k ==> mapped[j] == whole[j]
    {
      DeepEntriesAt(g, edit, entries, 0, k);
      if IsChild(g, entries[k]) {
        ChildIsSmaller(g, entries, k);
        var child := EditDeep(g, edit, Child(g, entries[k]));
        mapped := mapped + [JString(g.compact(child))];
      } else {
        mapped := mapped + [entries[k]];
      }
    }
  }

  method RewriteReplayFilepaths(g: Grammar, config: string, target: string, record: bool) returns (r: Option<string>)
    requires Faithful(g)
    ensures r == Rewritten(g, config, target, record)
  {
    var o := Object(map[], None);
    if config != "" {
      if g.parse(config).None? {
        return None;
      }
      o := g.parse(config).value;
    }
    var rewritten := EditDeep(g, Rewrite(target, record), o);
    r := Some(g.compact(rewritten));
  }

  method StripHostReplayKeys(g: Grammar, config: string) returns (r: string)
    requires Faithful(g)
    ensures r == Stripped(g, config)
  {
    if !Contains(config, SAVED) || g.parse(config).None? {
      return config;
    }
    var stripped := EditDeep(g, StripSaved, g.parse(config).value);
    r := g.compact(stripped);
  }
}
