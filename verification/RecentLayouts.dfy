/**
 The browser's recent layout recipes: what may be remembered, the bounded list, and its stored form. The XML grammar
 and the hash behind a recipe's id are parameters.
 */
module RecentLayouts {
  import opened Basics
  import opened ElementWalk
  import opened DocumentOrderWalk
  import Base64
  import J = ReplayConfig
  import StreamRecords

  type Bytes = seq<Base64.Byte>

  const MAXRECIPES := 5
  const MAXLAYOUT := 256 * 1024
  const MAXTOTAL := 1024 * 1024

  // ---------- What a recipe may contain ----------

  /** A parsed layout: its elements in document order, and the text of each one's subtree. */
  datatype Layout = Layout(doc: Doc, texts: seq<string>)

  /** The grammar, and the id a name hashes to. */
  datatype World = World(parse: Bytes -> Option<Layout>, hash: string -> string)

  ghost predicate Faithful(w: World) {
    && (forall xml {:trigger w.parse(xml)} :: w.parse(xml).Some? ==>
          var l := w.parse(xml).value;
          WellFormed(l.doc) && DocumentOrder(l.doc.parents) && |l.texts| == |l.doc.tags|)
    && (forall name {:trigger w.hash(name)} :: |w.hash(name)| == 24)
  }

  const UPLOAD := "pj-upload://"
  const STREAM := "pj-stream://"
  const BACKING := "/pj_uploads"

  function LowerChar(c: char): char {
    if 'A' <= c <= 'Z' then (c as int - 'A' as int + 'a' as int) as char else c
  }

  function Lower(s: string): (r: string)
    ensures |r| == |s|
  {
    seq(|s|, i requires 0 <= i < |s| => LowerChar(s[i]))
  }

  predicate NamesASource(value: string) {
    J.Contains(Lower(value), UPLOAD) || J.Contains(value, BACKING) || J.Contains(Lower(value), STREAM)
  }

  predicate BytesAt(xml: Bytes, part: string, k: nat) {
    k + |part| <= |xml| && forall i :: 0 <= i < |part| ==> xml[k + i] == part[i] as int
  }

  predicate BytesContain(xml: Bytes, part: string) {
    exists k: nat :: k <= |xml| && BytesAt(xml, part, k)
  }

  predicate Bounded(xml: Bytes) {
    && xml != [] && |xml| <= MAXLAYOUT
    && !BytesContain(xml, UPLOAD) && !BytesContain(xml, BACKING) && !BytesContain(xml, STREAM)
  }

  predicate Forbidden(tag: string) {
    || tag == "plugin" || tag == "transform" || tag == "materialize" || tag == "streamInfo"
    || tag == "previouslyLoaded_StreamingSources"
  }

  predicate Unbound(l: Layout)
    requires WellFormed(l.doc)
  {
    && l.doc.tags[0] == "root" && "binding" in l.doc.attrs[0] && l.doc.attrs[0]["binding"] == "generic"
    && (forall k :: 0 < k < |l.doc.tags| && l.doc.parents[k] == 0 ==> l.doc.tags[k] != "previouslyLoaded_Datafiles")
    && (forall k :: 0 <= k < |l.doc.tags| ==> !Forbidden(l.doc.tags[k]))
  }

  /** No attribute value and no text of the element names a source. */
  predicate SourceFree(l: Layout, k: nat) {
    && k < |l.doc.attrs| && k < |l.texts| && !NamesASource(l.texts[k])
    && forall name :: name in l.doc.attrs[k] ==> !NamesASource(l.doc.attrs[k][name])
  }

  /** A bounded, generic layout in which nothing names a source. */
  ghost predicate Safe(w: World, xml: Bytes) {
    && Bounded(xml) && w.parse(xml).Some?
    && var l := w.parse(xml).value;
    && WellFormed(l.doc) && Unbound(l)
    && forall k: nat :: k < |l.doc.tags| ==> SourceFree(l, k)
  }

  /** The text names an upload, its backing directory or a stream, the schemes in either letter case. */
  predicate Mentions(text: string) {
    || J.Contains(Lower(text), "pj-upload://") || J.Contains(text, "/pj_uploads") || J.Contains(Lower(text), "pj-stream://")
  }

  /**
   What a remembered recipe may be: at most 256 KiB, a generic root without file sources, no element that loads,
   imports or streams anything, and no value or text anywhere that names a source.
   */
  lemma SafeSaysExactly(w: World, xml: Bytes)
    requires Faithful(w)
    ensures Safe(w, xml) <==>
      && 0 < |xml| <= 262144 && w.parse(xml).Some?
      && !BytesContain(xml, "pj-upload://") && !BytesContain(xml, "/pj_uploads") && !BytesContain(xml, "pj-stream://")
      && var l := w.parse(xml).value;
         && l.doc.tags[0] == "root" && "binding" in l.doc.attrs[0] && l.doc.attrs[0]["binding"] == "generic"
         && (forall k :: 0 < k < |l.doc.tags| && l.doc.parents[k] == 0 ==> l.doc.tags[k] != "previouslyLoaded_Datafiles")
         && (forall k :: 0 <= k < |l.doc.tags| ==>
               l.doc.tags[k] !in {"plugin", "transform", "materialize", "streamInfo", "previouslyLoaded_StreamingSources"})
         && (forall k :: 0 <= k < |l.doc.tags| ==>
               !Mentions(l.texts[k]) && forall name :: name in l.doc.attrs[k] ==> !Mentions(l.doc.attrs[k][name]))
  {
    if w.parse(xml).Some? {
      var l := w.parse(xml).value;
      forall k: nat | k < |l.doc.tags|
        ensures SourceFree(l, k) <==>
          (!Mentions(l.texts[k]) && forall name :: name in l.doc.attrs[k] ==> !Mentions(l.doc.attrs[k][name]))
      {
      }
    }
  }

  method IsSafeGenericLayoutRecipe(w: World, xml: Bytes) returns (safe: bool)
    requires Faithful(w)
    ensures safe <==> Safe(w, xml)
  {
    if !Bounded(xml) || w.parse(xml).None? {
      return false;
    }
    var l := w.parse(xml).value;
    if !Unbound(l) {
      return false;
    }
    var accepts := (k: nat) => SourceFree(l, k);
    var visited, ok := Walk(l.doc.parents, accepts);
    assert forall k: nat :: accepts(k) == SourceFree(l, k);
    return ok;
  }

  // ---------- Names ----------

  function TrimLeft(s: string): string {
    if s != "" && StreamRecords.IsSpace(s[0]) then TrimLeft(s[1..]) else s
  }

  function TrimRight(s: string): string {
    if s != "" && StreamRecords.IsSpace(s[|s| - 1]) then TrimRight(s[..|s| - 1]) else s
  }

  predicate Control(c: char) {
    c < ' ' || c == '\U{007F}'
  }

  function WithoutControls(s: string): (r: string)
    ensures forall c :: c in r <==> c in s && !Control(c)
  {
    if s == "" then "" else (if Control(s[0]) then "" else [s[0]]) + WithoutControls(s[1..])
  }

  /** The name a recipe is kept under: never empty, at most 128 characters, no separator and no control character. */
  function DisplayName(raw: string): (name: string)
    ensures 0 < |name| <= 128
    ensures '/' !in name && '\\' !in name && forall c :: c in name ==> !Control(c)
  {
    var name := WithoutControls(AfterSeparators(TrimRight(TrimLeft(raw))));
    if name == "" then "Layout" else if |name| > 128 then name[..128] else name
  }

  /** A file name with nothing to clean: no separator, no control character, no space at either end. */
  predicate Tidy(name: string) {
    && name != "" && '/' !in name && '\\' !in name && (forall c :: c in name ==> !Control(c))
    && !StreamRecords.IsSpace(name[0]) && !StreamRecords.IsSpace(name[|name| - 1])
  }

  /** Trimming the front of a path takes only from its folder. */
  lemma {:induction false} TrimmedFront(folder: string, name: string) returns (rest: string)
    requires Tidy(name)
    ensures |rest| <= |folder| && rest == folder[|folder| - |rest|..] && TrimLeft(folder + name) == rest + name
  {
    if folder == "" {
      rest := "";
      assert folder + name == name;
    } else if StreamRecords.IsSpace(folder[0]) {
      assert (folder + name)[1..] == folder[1..] + name;
      rest := TrimmedFront(folder[1..], name);
    } else {
      rest := folder;
    }
  }

  lemma {:induction false} NoControlsToRemove(s: string)
    requires forall c :: c in s ==> !Control(c)
    ensures WithoutControls(s) == s
  {
    if s != "" {
      assert s[0] in s && s == [s[0]] + s[1..];
      forall c | c in s[1..] ensures c in s {}
      NoControlsToRemove(s[1..]);
    }
  }

  /** A tidy file name is kept as it is, whatever folder it was opened from; only what is beyond 128 characters goes. */
  lemma TidyNameIsKept(folder: string, name: string)
    requires Tidy(name) && (folder == "" || folder[|folder| - 1] == '/' || folder[|folder| - 1] == '\\')
    ensures DisplayName(folder + name) == if |name| > 128 then name[..128] else name
  {
    assert AfterSeparators(TrimRight(TrimLeft(folder + name))) == name by {
      var rest := TrimmedFront(folder, name);
      assert rest != "" ==> rest[|rest| - 1] == folder[|folder| - 1];
      NothingBehind(rest, name);
      LastPartRemains(rest, name);
    }
    NoControlsToRemove(name);
  }

  lemma NothingBehind(rest: string, name: string)
    requires Tidy(name)
    ensures TrimRight(rest + name) == rest + name
  {
    assert (rest + name)[|rest + name| - 1] == name[|name| - 1];
  }

  // ---------- The list ----------

  datatype Recipe = Recipe(id: string, name: string, xml: Bytes)

  function Total(recipes: seq<Recipe>): nat {
    if recipes == [] then 0 else |recipes[0].xml| + Total(recipes[1..])
  }

  ghost predicate ValidRecipe(w: World, r: Recipe) {
    r.id == w.hash(r.name) && 0 < |r.name| <= 128 && Safe(w, r.xml)
  }

  ghost predicate UniqueIds(recipes: seq<Recipe>) {
    forall i, j :: 0 <= i < j < |recipes| ==> recipes[i].id != recipes[j].id
  }

  /** What every remembered list is: at most five valid recipes under distinct ids, at most 1 MiB together. */
  ghost predicate ValidList(w: World, recipes: seq<Recipe>) {
    && |recipes| <= MAXRECIPES && Total(recipes) <= MAXTOTAL && UniqueIds(recipes)
    && forall i :: 0 <= i < |recipes| ==> ValidRecipe(w, recipes[i])
  }

  function Without(recipes: seq<Recipe>, id: string): seq<Recipe> {
    if recipes == [] then []
    else if recipes[0].id == id then Without(recipes[1..], id)
    else [recipes[0]] + Without(recipes[1..], id)
  }

  /** The recipes from `k` on whose running total, starting from `total`, never exceeds the bound. */
  function Fitting(recipes: seq<Recipe>, total: nat): seq<Recipe> {
    if recipes == [] || total + |recipes[0].xml| > MAXTOTAL then []
    else [recipes[0]] + Fitting(recipes[1..], total + |recipes[0].xml|)
  }

  function Shortened(recipes: seq<Recipe>): seq<Recipe> {
    if |recipes| > MAXRECIPES then recipes[..MAXRECIPES] else recipes
  }

  function Remembered(recipes: seq<Recipe>, r: Recipe): seq<Recipe> {
    Fitting(Shortened([r] + Without(recipes, r.id)), 0)
  }

  // ---------- The in-place loops ----------

  class BrowserPersistence {
    const world: World
    var recipes: seq<Recipe>

    constructor (w: World, stored: J.Json)
      requires Faithful(w)
      ensures world == w && recipes == DecodedList(w, stored) && ValidList(w, recipes)
    {
      world := w;
      new;
      recipes := DecodeRecipes(w, stored);
      DecodedIsValid(w, stored);
    }

    method RememberGenericLayout(browserName: string, xml: Bytes) returns (remembered: bool)
      requires Faithful(world) && ValidList(world, recipes)
      modifies this
      ensures ValidList(world, recipes)
      ensures remembered <==> Safe(world, xml)
      ensures remembered ==>
        var name := DisplayName(browserName);
        recipes == Remembered(old(recipes), Recipe(world.hash(name), name, xml))
      ensures !remembered ==> recipes == old(recipes)
    {
      remembered := IsSafeGenericLayoutRecipe(world, xml);
      if !remembered {
        return;
      }
      var name := DisplayName(browserName);
      var r := Recipe(world.hash(name), name, xml);
      RememberedIsValid(world, recipes, r);
      recipes := [r] + Without(recipes, r.id);
      while |recipes| > MAXRECIPES
        invariant Shortened(recipes) == Shortened([r] + Without(old(recipes), r.id))
        decreases |recipes|
      {
        recipes := recipes[..|recipes| - 1];
      }
      Trim();
    }

    /** The loop that erases what would take the running total over the bound. The total is not taken back. */
    method Trim()
      modifies this
      ensures recipes == Fitting(old(recipes), 0)
    {
      var total := 0;
      var index: nat := 0;
      assert recipes[0..] == recipes && recipes[..0] == [];
      while index < |recipes|
        invariant index <= |recipes| && total >= Total(recipes[..index])
        invariant recipes[..index] + Fitting(recipes[index..], total) == Fitting(old(recipes), 0)
        decreases |recipes| - index
      {
        ghost var before := recipes;
        total := total + |recipes[index].xml|;
        if total > MAXTOTAL {
          recipes := recipes[..index] + recipes[index + 1..];
          assert recipes[..index] == before[..index] && recipes[index..] == before[index + 1..];
          NothingFits(recipes[index..], total);
        } else {
          assert recipes[index..][1..] == recipes[index + 1..];
          assert recipes[..index + 1] == recipes[..index] + [recipes[index]];
          TotalAppend(recipes[..index], recipes[index]);
          index := index + 1;
        }
      }
      assert recipes[..index] == recipes && recipes[index..] == [];
    }
  }

  lemma NothingFits(recipes: seq<Recipe>, total: nat)
    requires total > MAXTOTAL
    ensures Fitting(recipes, total) == []
  {
  }

  lemma {:induction false} TotalSplit(a: seq<Recipe>, b: seq<Recipe>)
    ensures Total(a + b) == Total(a) + Total(b)
  {
    if a == [] {
      assert a + b == b;
    } else {
      TotalSplit(a[1..], b);
      assert (a + b)[1..] == a[1..] + b;
    }
  }

  lemma TotalAppend(recipes: seq<Recipe>, r: Recipe)
    ensures Total(recipes + [r]) == Total(recipes) + |r.xml|
  {
    TotalSplit(recipes, [r]);
    assert [r][1..] == [];
  }

  // ---------- What remembering does ----------

  lemma {:induction false} FittingIsThePrefixThatFits(recipes: seq<Recipe>, total: nat)
    requires total <= MAXTOTAL
    ensures var f := Fitting(recipes, total);
      && f <= recipes && total + Total(f) <= MAXTOTAL
      && (|f| < |recipes| ==> total + Total(f) + |recipes[|f|].xml| > MAXTOTAL)
  {
    if recipes != [] && total + |recipes[0].xml| <= MAXTOTAL {
      FittingIsThePrefixThatFits(recipes[1..], total + |recipes[0].xml|);
      var f := Fitting(recipes[1..], total + |recipes[0].xml|);
      assert ([recipes[0]] + f)[1..] == f;
      assert recipes == [recipes[0]] + recipes[1..];
    }
  }

  /** What is left of a list after taking an id out: the others, in their order. */
  lemma {:induction false} WithoutKeepsOthers(recipes: seq<Recipe>, id: string, r: Recipe)
    ensures r in Without(recipes, id) <==> r in recipes && r.id != id
    ensures |Without(recipes, id)| <= |recipes|
  {
    if recipes != [] { WithoutKeepsOthers(recipes[1..], id, r); }
  }

  lemma {:induction false} WithoutStaysUnique(recipes: seq<Recipe>, id: string)
    requires UniqueIds(recipes)
    ensures UniqueIds(Without(recipes, id))
  {
    if recipes != [] {
      assert forall i, j :: 0 <= i < j < |recipes[1..]| ==> recipes[1..][i] == recipes[i + 1] && recipes[1..][j] == recipes[j + 1];
      WithoutStaysUnique(recipes[1..], id);
      var rest := Without(recipes[1..], id);
      forall j | 0 <= j < |rest| ensures rest[j].id != recipes[0].id {
        WithoutKeepsOthers(recipes[1..], id, rest[j]);
        var k :| 0 <= k < |recipes[1..]| && recipes[1..][k] == rest[j];
        assert recipes[k + 1] == rest[j];
      }
    }
  }

  /**
   The new recipe comes first, and behind it the longest prefix of the old list, without the recipe's old entry, that
   keeps the list at five recipes and 1 MiB.
   */
  lemma RememberedShape(recipes: seq<Recipe>, r: Recipe)
    requires |r.xml| <= MAXLAYOUT
    ensures var kept := Remembered(recipes, r);
      var others := Without(recipes, r.id);
      && kept != [] && kept[0] == r && kept[1..] <= others
      && |kept| <= MAXRECIPES && Total(kept) <= MAXTOTAL
      && (|kept| <= |others| ==>
            |kept| == MAXRECIPES || Total(kept) + |others[|kept| - 1].xml| > MAXTOTAL)
  {
    var others := Without(recipes, r.id);
    var short := Shortened([r] + others);
    FittingIsThePrefixThatFits(short, 0);
    var kept := Fitting(short, 0);
    assert short[0] == r && kept[0] == r;
    assert kept[1..] == others[..|kept| - 1] by {
      assert kept == ([r] + others)[..|kept|];
    }
    if |kept| < |short| { assert short[|kept|] == others[|kept| - 1]; }
  }

  lemma RememberedIsValid(w: World, recipes: seq<Recipe>, r: Recipe)
    requires ValidList(w, recipes) && ValidRecipe(w, r)
    ensures ValidList(w, Remembered(recipes, r))
  {
    RememberedShape(recipes, r);
    var kept := Remembered(recipes, r);
    var others := Without(recipes, r.id);
    WithoutStaysUnique(recipes, r.id);
    forall i | 0 < i < |kept| ensures kept[i] == others[i - 1] && kept[i] in recipes && kept[i].id != r.id {
      assert kept[i] == kept[1..][i - 1];
      WithoutKeepsOthers(recipes, r.id, others[i - 1]);
    }
  }

  /** Remembering the same layout again changes nothing. */
  lemma RememberingTwice(w: World, recipes: seq<Recipe>, r: Recipe)
    requires ValidList(w, recipes) && ValidRecipe(w, r)
    ensures Remembered(Remembered(recipes, r), r) == Remembered(recipes, r)
  {
    var kept := Remembered(recipes, r);
    RememberedShape(recipes, r);
    RememberedIsValid(w, recipes, r);
    assert kept == [r] + kept[1..];
    forall i | 0 <= i < |kept[1..]| ensures kept[1..][i].id != r.id { assert kept[1..][i] == kept[i + 1]; }
    NothingToRemove(kept[1..], r.id);
    RememberedShape(kept, r);
    AllFit(kept, 0);
  }

  lemma {:induction false} NothingToRemove(recipes: seq<Recipe>, id: string)
    requires forall i :: 0 <= i < |recipes| ==> recipes[i].id != id
    ensures Without(recipes, id) == recipes
  {
    if recipes != [] { NothingToRemove(recipes[1..], id); }
  }

  lemma {:induction false} AllFit(recipes: seq<Recipe>, total: nat)
    requires total + Total(recipes) <= MAXTOTAL
    ensures Fitting(recipes, total) == recipes
  {
    if recipes != [] { AllFit(recipes[1..], total + |recipes[0].xml|); }
  }

  // ---------- The stored form ----------

  function EncodeRecipe(r: Recipe): J.Json {
    J.JObject(map["id" := J.JString(r.id), "name" := J.JString(r.name), "xml" := J.JString(Base64.Encode(r.xml))])
  }

  function EncodeItems(recipes: seq<Recipe>): (items: seq<J.Json>)
    ensures |items| == |recipes|
  {
    if recipes == [] then [] else [EncodeRecipe(recipes[0])] + EncodeItems(recipes[1..])
  }

  function EncodeRecipes(recipes: seq<Recipe>): J.Json {
    J.JObject(map["version" := J.JNumber("1"), "items" := J.JArray(EncodeItems(recipes))])
  }

  function StringAt(members: map<string, J.Json>, key: string): string {
    if key in members && members[key].JString? then members[key].s else ""
  }

  ghost function DecodedRecipe(w: World, value: J.Json): Option<Recipe> {
    if !value.JObject? then None
    else
      var id, name, text := StringAt(value.members, "id"), StringAt(value.members, "name"), StringAt(value.members, "xml");
      if |id| != 24 || name == "" || |name| > 128 || w.hash(name) != id || text == "" then None
      else
        var xml := Base64.Decode(text);
        if xml.None? || !Safe(w, xml.value) then None else Some(Recipe(id, name, xml.value))
  }

  ghost function DecodedEach(w: World, items: seq<J.Json>): (r: seq<Option<Recipe>>)
    ensures |r| == |items|
  {
    if items == [] then [] else [DecodedRecipe(w, items[0])] + DecodedEach(w, items[1..])
  }

  /** The recipe joins the list: there at all, new, and within both bounds. */
  predicate Joins(r: Option<Recipe>, recipes: seq<Recipe>, total: nat) {
    && r.Some? && (forall i :: 0 <= i < |recipes| ==> recipes[i].id != r.value.id)
    && |recipes| < MAXRECIPES && total + |r.value.xml| <= MAXTOTAL
  }

  function Collected(found: seq<Option<Recipe>>, recipes: seq<Recipe>, total: nat): seq<Recipe>
    decreases |found|
  {
    if found == [] then recipes
    else if Joins(found[0], recipes, total) then
      Collected(found[1..], recipes + [found[0].value], total + |found[0].value.xml|)
    else Collected(found[1..], recipes, total)
  }

  ghost function DecodedList(w: World, stored: J.Json): seq<Recipe> {
    if !stored.JObject? || "version" !in stored.members || stored.members["version"] != J.JNumber("1")
      || "items" !in stored.members || !stored.members["items"].JArray?
    then []
    else Collected(DecodedEach(w, stored.members["items"].items), [], 0)
  }

  method DecodeRecipeObject(w: World, value: J.Json) returns (r: Option<Recipe>)
    requires Faithful(w)
    ensures r == DecodedRecipe(w, value)
  {
    if !value.JObject? {
      return None;
    }
    var id := StringAt(value.members, "id");
    var name := StringAt(value.members, "name");
    var text := StringAt(value.members, "xml");
    if |id| != 24 || name == "" || |name| > 128 || w.hash(name) != id || text == "" {
      return None;
    }
    var xml := Base64.Decode(text);
    if xml.None? {
      return None;
    }
    var safe := IsSafeGenericLayoutRecipe(w, xml.value);
    return if safe then Some(Recipe(id, name, xml.value)) else None;
  }

  /** The ids seen so far are those of the recipes kept so far. */
  ghost predicate SeenAre(seen: set<string>, recipes: seq<Recipe>) {
    && (forall i :: 0 <= i < |recipes| ==> recipes[i].id in seen)
    && (forall id :: id in seen ==> exists i :: 0 <= i < |recipes| && recipes[i].id == id)
  }

  lemma SeenGrow(seen: set<string>, recipes: seq<Recipe>, r: Recipe)
    requires SeenAre(seen, recipes)
    ensures SeenAre(seen + {r.id}, recipes + [r])
  {
    var n := recipes + [r];
    assert n[|recipes|] == r;
    forall id | id in seen ensures exists i :: 0 <= i < |n| && n[i].id == id {
      var i :| 0 <= i < |recipes| && recipes[i].id == id;
      assert n[i].id == id;
    }
  }

  lemma CollectedStep(w: World, items: seq<J.Json>, k: nat, recipes: seq<Recipe>, total: nat)
    requires k < |items|
    ensures var r := DecodedRecipe(w, items[k]);
      Collected(DecodedEach(w, items[k..]), recipes, total)
        == if Joins(r, recipes, total)
           then Collected(DecodedEach(w, items[k + 1..]), recipes + [r.value], total + |r.value.xml|)
           else Collected(DecodedEach(w, items[k + 1..]), recipes, total)
  {
    assert items[k..][1..] == items[k + 1..];
  }

  /** With the ids seen so far at hand, the loop's guard is whether the recipe joins. */
  lemma GuardIsJoins(seen: set<string>, recipes: seq<Recipe>, r: Option<Recipe>, total: nat)
    requires SeenAre(seen, recipes)
    ensures Joins(r, recipes, total) <==>
      r.Some? && r.value.id !in seen && |recipes| < MAXRECIPES && total + |r.value.xml| <= MAXTOTAL
  {
  }

  /** One stored item: decoded, and added when it joins. */
  method AddItem(w: World, value: J.Json, seen: set<string>, recipes: seq<Recipe>, total: nat)
    returns (seenNow: set<string>, kept: seq<Recipe>, totalNow: nat)
    requires Faithful(w) && SeenAre(seen, recipes)
    ensures SeenAre(seenNow, kept)
    ensures var r := DecodedRecipe(w, value);
      if Joins(r, recipes, total) then kept == recipes + [r.value] && totalNow == total + |r.value.xml|
      else kept == recipes && totalNow == total
  {
    seenNow, kept, totalNow := seen, recipes, total;
    var r := DecodeRecipeObject(w, value);
    GuardIsJoins(seen, recipes, r, total);
    if r.None? || r.value.id in seen || |recipes| >= MAXRECIPES || total + |r.value.xml| > MAXTOTAL {
      return;
    }
    SeenGrow(seen, recipes, r.value);
    seenNow, kept, totalNow := seen + {r.value.id}, recipes + [r.value], total + |r.value.xml|;
  }

  method CollectItems(w: World, items: seq<J.Json>) returns (recipes: seq<Recipe>)
    requires Faithful(w)
    ensures recipes == Collected(DecodedEach(w, items), [], 0)
  {
    recipes := [];
    var seen: set<string> := {};
    var total: nat := 0;
    assert items[0..] == items;
    for k := 0 to |items|
      invariant SeenAre(seen, recipes)
      invariant Collected(DecodedEach(w, items[k..]), recipes, total) == Collected(DecodedEach(w, items), [], 0)
    {
      CollectedStep(w, items, k, recipes, total);
      seen, recipes, total := AddItem(w, items[k], seen, recipes, total);
    }
  }

  method DecodeRecipes(w: World, stored: J.Json) returns (recipes: seq<Recipe>)
    requires Faithful(w)
    ensures recipes == DecodedList(w, stored)
  {
    if !stored.JObject? || "version" !in stored.members || stored.members["version"] != J.JNumber("1")
       || "items" !in stored.members || !stored.members["items"].JArray? {
      return [];
    }
    recipes := CollectItems(w, stored.members["items"].items);
  }

  lemma DecodedIsValid(w: World, stored: J.Json)
    ensures ValidList(w, DecodedList(w, stored))
  {
    if DecodedList(w, stored) != [] {
      var items := stored.members["items"].items;
      DecodedEachValid(w, items);
      CollectedIsValid(w, DecodedEach(w, items), [], 0);
    }
  }

  ghost predicate ValidWhereFound(w: World, found: seq<Option<Recipe>>) {
    forall k :: 0 <= k < |found| && found[k].Some? ==> ValidRecipe(w, found[k].value)
  }

  lemma {:induction false} DecodedEachValid(w: World, items: seq<J.Json>)
    ensures ValidWhereFound(w, DecodedEach(w, items))
  {
    if items != [] { DecodedEachValid(w, items[1..]); }
  }

  lemma JoinedIsValid(w: World, recipes: seq<Recipe>, r: Recipe)
    requires ValidList(w, recipes) && ValidRecipe(w, r) && Joins(Some(r), recipes, Total(recipes))
    ensures ValidList(w, recipes + [r]) && Total(recipes + [r]) == Total(recipes) + |r.xml|
  {
    TotalAppend(recipes, r);
  }

  /** Whatever was stored, what is read back is a list remembering could have left. */
  lemma {:induction false} CollectedIsValid(w: World, found: seq<Option<Recipe>>, recipes: seq<Recipe>, total: nat)
    requires ValidWhereFound(w, found) && ValidList(w, recipes) && total == Total(recipes)
    ensures ValidList(w, Collected(found, recipes, total))
    decreases |found|
  {
    if found != [] {
      assert ValidWhereFound(w, found[1..]);
      if Joins(found[0], recipes, total) {
        JoinedIsValid(w, recipes, found[0].value);
        CollectedIsValid(w, found[1..], recipes + [found[0].value], total + |found[0].value.xml|);
      } else {
        CollectedIsValid(w, found[1..], recipes, total);
      }
    }
  }

  lemma RecipeSurvives(w: World, r: Recipe)
    requires Faithful(w) && ValidRecipe(w, r)
    ensures DecodedRecipe(w, EncodeRecipe(r)) == Some(r)
  {
    Base64.DecodeEncode(r.xml);
    Base64.EncodeIsEmpty(r.xml);
  }

  function Found(recipes: seq<Recipe>): (r: seq<Option<Recipe>>)
    ensures |r| == |recipes| && forall k :: 0 <= k < |recipes| ==> r[k] == Some(recipes[k])
  {
    if recipes == [] then [] else [Some(recipes[0])] + Found(recipes[1..])
  }

  lemma {:induction false} EncodedEachFound(w: World, recipes: seq<Recipe>)
    requires Faithful(w) && forall k :: 0 <= k < |recipes| ==> ValidRecipe(w, recipes[k])
    ensures DecodedEach(w, EncodeItems(recipes)) == Found(recipes)
  {
    if recipes != [] {
      RecipeSurvives(w, recipes[0]);
      assert EncodeItems(recipes)[1..] == EncodeItems(recipes[1..]);
      EncodedEachFound(w, recipes[1..]);
    }
  }

  lemma NextJoins(w: World, all: seq<Recipe>, k: nat)
    requires ValidList(w, all) && k < |all|
    ensures Joins(Some(all[k]), all[..k], Total(all[..k]))
    ensures all[..k + 1] == all[..k] + [all[k]] && Total(all[..k + 1]) == Total(all[..k]) + |all[k].xml|
  {
    assert all[..k + 1] == all[..k] + [all[k]];
    TotalAppend(all[..k], all[k]);
    TotalSplit(all[..k + 1], all[k + 1..]);
    assert all == all[..k + 1] + all[k + 1..];
  }

  lemma NextCollected(found: seq<Option<Recipe>>, all: seq<Recipe>, k: nat)
    requires k < |all| == |found| && found[k] == Some(all[k])
    requires Joins(Some(all[k]), all[..k], Total(all[..k]))
    requires all[..k + 1] == all[..k] + [all[k]] && Total(all[..k + 1]) == Total(all[..k]) + |all[k].xml|
    ensures Collected(found[k..], all[..k], Total(all[..k])) == Collected(found[k + 1..], all[..k + 1], Total(all[..k + 1]))
  {
    assert found[k..][1..] == found[k + 1..];
    OneJoins(found[k..], all[..k], Total(all[..k]), all[k]);
  }

  lemma OneJoins(found: seq<Option<Recipe>>, recipes: seq<Recipe>, total: nat, r: Recipe)
    requires found != [] && found[0] == Some(r) && Joins(Some(r), recipes, total)
    ensures Collected(found, recipes, total) == Collected(found[1..], recipes + [r], total + |r.xml|)
  {
  }

  lemma {:induction false} AllCollected(w: World, all: seq<Recipe>, k: nat)
    requires ValidList(w, all) && k <= |all|
    ensures Collected(Found(all)[k..], all[..k], Total(all[..k])) == all
    decreases |all| - k
  {
    if k == |all| {
      assert all[..k] == all && Found(all)[k..] == [];
    } else {
      NextJoins(w, all, k);
      NextCollected(Found(all), all, k);
      AllCollected(w, all, k + 1);
    }
  }

  /** Every list remembering can leave comes back from storage as it was. */
  lemma StoredListSurvives(w: World, recipes: seq<Recipe>)
    requires Faithful(w) && ValidList(w, recipes)
    ensures DecodedList(w, EncodeRecipes(recipes)) == recipes
  {
    EncodedEachFound(w, recipes);
    AllCollected(w, recipes, 0);
    assert Found(recipes)[0..] == Found(recipes) && recipes[..0] == [];
  }
}
