/**
 A text grammar that is faithful in the sense the replay-configuration laws ask for. It is not the syntax of JSON: it
 prints strings as they are behind their length, which is all that is needed to see that the laws are about something.
 */
module ReplayGrammar {
  import opened Basics
  import opened ReplayConfig

  // ---------- Printing ----------

  function Ones(n: nat): string {
    if n == 0 then ":" else "1" + Ones(n - 1)
  }

  function PrintText(s: string): string {
    Ones(|s|) + s
  }

  ghost function AnyKey(m: map<string, Json>): (k: string)
    requires m != map[]
    ensures k in m
  {
    assert exists k :: k in m;
    var k :| k in m; k
  }

  ghost function Print(j: Json): string
    decreases j
  {
    match j
    case JNull => "n"
    case JBool(b) => if b then "t" else "f"
    case JNumber(n) => "d" + PrintText(n)
    case JString(s) => "s" + PrintText(s)
    case JArray(items) => "a" + PrintItems(items)
    case JObject(members) => "o" + PrintMembers(j, members)
  }

  ghost function PrintItems(items: seq<Json>): string
    decreases items
  {
    if items == [] then "." else "," + Print(items[0]) + PrintItems(items[1..])
  }

  ghost predicate Within(m: map<string, Json>, j: Json) {
    j.JObject? && forall k :: k in m ==> k in j.members && j.members[k] == m[k]
  }

  /** The members that are left of the object `j`, in an order that depends on them alone. */
  ghost function PrintMembers(j: Json, m: map<string, Json>): string
    requires Within(m, j)
    decreases j, |m|
  {
    if m == map[] then "."
    else
      var k := AnyKey(m);
      "," + PrintText(k) + Print(m[k]) + PrintMembers(j, m - {k})
  }

  ghost function PrintFanout(fanout: Option<Json>): string {
    if fanout.None? then "0" else "1" + Print(fanout.value)
  }

  ghost function PrintObject(o: Object): string {
    PrintMembers(JObject(o.members), o.members) + PrintFanout(o.fanout)
  }

  // ---------- Nothing printed is the beginning of something else printed ----------

  lemma {:induction false} OnesSplit(n: nat, m: nat, x: string, y: string)
    requires Ones(n) + x == Ones(m) + y
    ensures n == m && x == y
  {
    assert (Ones(n) + x)[0] == (Ones(m) + y)[0];
    assert (Ones(n) + x)[1..] == Ones(n)[1..] + x;
    assert (Ones(m) + y)[1..] == Ones(m)[1..] + y;
    if n > 0 && m > 0 {
      OnesSplit(n - 1, m - 1, x, y);
    }
  }

  lemma TextSplit(a: string, b: string, x: string, y: string)
    requires PrintText(a) + x == PrintText(b) + y
    ensures a == b && x == y
  {
    assert PrintText(a) + x == Ones(|a|) + (a + x);
    assert PrintText(b) + y == Ones(|b|) + (b + y);
    OnesSplit(|a|, |b|, a + x, b + y);
    assert a == (a + x)[..|a|] && b == (b + y)[..|b|];
    assert x == (a + x)[|a|..] && y == (b + y)[|b|..];
  }

  /** What follows the first character. */
  lemma TagSplit(c: char, d: char, u: string, v: string, x: string, y: string)
    requires [c] + u + x == [d] + v + y
    ensures c == d && u + x == v + y
  {
    assert ([c] + u + x)[0] == c && ([d] + v + y)[0] == d;
    assert ([c] + u + x)[1..] == u + x && ([d] + v + y)[1..] == v + y;
  }

  lemma Regroup(a: string, b: string, c: string)
    ensures a + b + c == a + (b + c)
  {
  }

  lemma {:induction false} JsonSplit(a: Json, b: Json, x: string, y: string)
    requires Print(a) + x == Print(b) + y
    ensures a == b && x == y
    decreases a
  {
    var p, q := Print(a), Print(b);
    assert p == [p[0]] + p[1..] && q == [q[0]] + q[1..];
    TagSplit(p[0], q[0], p[1..], q[1..], x, y);
    match a
    case JNumber(n) =>
      assert p[1..] == PrintText(n) && q[1..] == PrintText(b.n);
      TextSplit(n, b.n, x, y);
    case JString(t) =>
      assert p[1..] == PrintText(t) && q[1..] == PrintText(b.s);
      TextSplit(t, b.s, x, y);
    case JArray(items) =>
      assert p[1..] == PrintItems(items) && q[1..] == PrintItems(b.items);
      ItemsSplit(items, b.items, x, y);
    case JObject(members) =>
      assert p[1..] == PrintMembers(a, members) && q[1..] == PrintMembers(b, b.members);
      MembersSplit(a, members, b, b.members, x, y);
    case _ =>
      assert "" + x == x && "" + y == y && p[1..] == "" && q[1..] == "";
  }

  lemma {:induction false} ItemsSplit(a: seq<Json>, b: seq<Json>, x: string, y: string)
    requires PrintItems(a) + x == PrintItems(b) + y
    ensures a == b && x == y
    decreases a
  {
    assert (PrintItems(a) + x)[0] == (PrintItems(b) + y)[0];
    if a != [] && b != [] {
      var ra, rb := PrintItems(a[1..]), PrintItems(b[1..]);
      Regroup(",", Print(a[0]), ra);
      Regroup(",", Print(b[0]), rb);
      TagSplit(',', ',', Print(a[0]) + ra, Print(b[0]) + rb, x, y);
      Regroup(Print(a[0]), ra, x);
      Regroup(Print(b[0]), rb, y);
      JsonSplit(a[0], b[0], ra + x, rb + y);
      ItemsSplit(a[1..], b[1..], x, y);
      assert a == [a[0]] + a[1..] && b == [b[0]] + b[1..];
    } else {
      assert (PrintItems(a) + x)[1..] == (PrintItems(b) + y)[1..];
    }
  }

  /** The key printed first and what is printed behind it. */
  lemma MemberSplit(j: Json, m: map<string, Json>, x: string)
    requires Within(m, j) && m != map[]
    ensures var k := AnyKey(m);
      PrintMembers(j, m) + x == "," + PrintText(k) + (Print(m[k]) + (PrintMembers(j, m - {k}) + x))
  {
    var k := AnyKey(m);
    var rest := PrintMembers(j, m - {k});
    Regroup("," + PrintText(k), Print(m[k]), rest);
    Regroup("," + PrintText(k), Print(m[k]) + rest, x);
    Regroup(Print(m[k]), rest, x);
  }

  lemma NoMembers(j: Json, m: map<string, Json>)
    requires Within(m, j)
    ensures PrintMembers(j, m) != "" && (PrintMembers(j, m)[0] == '.' <==> m == map[])
    ensures m == map[] ==> PrintMembers(j, m) == "."
  {
    if m != map[] { MemberSplit(j, m, ""); }
  }

  lemma SameMembers(a: map<string, Json>, b: map<string, Json>, k: string)
    requires k in a && k in b && a[k] == b[k] && a - {k} == b - {k}
    ensures a == b
  {
    assert a == (a - {k})[k := a[k]] && b == (b - {k})[k := b[k]];
  }

  lemma {:induction false} MembersSplit(
    i: Json, a: map<string, Json>, j: Json, b: map<string, Json>, x: string, y: string)
    requires Within(a, i) && Within(b, j) && PrintMembers(i, a) + x == PrintMembers(j, b) + y
    ensures a == b && x == y
    decreases i, |a|
  {
    NoMembers(i, a);
    NoMembers(j, b);
    assert (PrintMembers(i, a) + x)[0] == (PrintMembers(j, b) + y)[0];
    if a != map[] {
      var k, l := AnyKey(a), AnyKey(b);
      MemberSplit(i, a, x);
      MemberSplit(j, b, y);
      var ra, rb := PrintMembers(i, a - {k}) + x, PrintMembers(j, b - {l}) + y;
      TagSplit(',', ',', PrintText(k), PrintText(l), Print(a[k]) + ra, Print(b[l]) + rb);
      TextSplit(k, l, Print(a[k]) + ra, Print(b[l]) + rb);
      JsonSplit(a[k], b[l], ra, rb);
      MembersSplit(i, a - {k}, j, b - {l}, x, y);
      SameMembers(a, b, k);
    } else {
      assert (PrintMembers(i, a) + x)[1..] == x && (PrintMembers(j, b) + y)[1..] == y;
    }
  }

  lemma ObjectSplit(a: Object, b: Object)
    requires PrintObject(a) == PrintObject(b)
    ensures a == b
  {
    var f, g := PrintFanout(a.fanout), PrintFanout(b.fanout);
    MembersSplit(JObject(a.members), a.members, JObject(b.members), b.members, f, g);
    assert f[0] == g[0];
    if a.fanout.Some? {
      assert f[1..] == Print(a.fanout.value) && g[1..] == Print(b.fanout.value);
      assert f[1..] + "" == g[1..] + "";
      JsonSplit(a.fanout.value, b.fanout.value, "", "");
    }
  }

  // ---------- Keys and strings are printed as they are ----------

  lemma ContainsAround(before: string, text: string, after: string, part: string)
    requires Contains(text, part)
    ensures Contains(before + text + after, part)
  {
    var k :| 0 <= k <= |text| - |part| && Occurs(text, part, k);
    var whole := before + text + after;
    assert whole[|before| + k..|before| + k + |part|] == text[k..k + |part|];
    assert Occurs(whole, part, |before| + k);
  }

  lemma ContainsThrough(text: string, middle: string, part: string)
    requires Contains(text, middle) && Contains(middle, part)
    ensures Contains(text, part)
  {
    var k :| 0 <= k <= |text| - |middle| && Occurs(text, middle, k);
    assert text == text[..k] + middle + text[k + |middle|..];
    ContainsAround(text[..k], middle, text[k + |middle|..], part);
  }

  lemma TextShows(s: string)
    ensures Contains(PrintText(s), s)
  {
    assert Occurs(PrintText(s), s, |Ones(|s|)|);
  }

  lemma {:induction false} MembersShow(j: Json, m: map<string, Json>, key: string)
    requires Within(m, j) && key in m
    ensures Contains(PrintMembers(j, m), key)
    decreases |m|
  {
    var k := AnyKey(m);
    var rest := PrintMembers(j, m - {k});
    if k == key {
      TextShows(k);
      ContainsAround(",", PrintText(k), Print(m[k]) + rest, key);
      assert PrintMembers(j, m) == "," + PrintText(k) + (Print(m[k]) + rest);
    } else {
      MembersShow(j, m - {k}, key);
      var before := "," + PrintText(k) + Print(m[k]);
      ContainsAround(before, rest, "", key);
      assert PrintMembers(j, m) == before + rest + "";
    }
  }

  lemma {:induction false} ItemsShow(items: seq<Json>, k: nat)
    requires k < |items| && items[k].JString?
    ensures Contains(PrintItems(items), items[k].s)
  {
    var first, rest := Print(items[0]), PrintItems(items[1..]);
    if k == 0 {
      TextShows(items[0].s);
      ContainsAround(",s", PrintText(items[0].s), rest, items[0].s);
      assert PrintItems(items) == ",s" + PrintText(items[0].s) + rest;
    } else {
      ItemsShow(items[1..], k - 1);
      ContainsAround("," + first, rest, "", items[k].s);
      assert PrintItems(items) == "," + first + rest + "";
    }
  }

  lemma FanoutIsLast(o: Object)
    requires o.fanout.Some? && o.fanout.value.JArray?
    ensures var before := PrintMembers(JObject(o.members), o.members) + "1a";
      PrintObject(o) == before + PrintItems(Entries(o)) + ""
  {
    Regroup(PrintMembers(JObject(o.members), o.members), "1a", PrintItems(Entries(o)));
    Regroup("1", "a", PrintItems(Entries(o)));
  }

  /** A fan-out entry is printed inside the object, with something before it. */
  lemma EntriesShow(o: Object, k: nat)
    requires k < |Entries(o)| && Entries(o)[k].JString?
    ensures Contains(PrintObject(o), Entries(o)[k].s) && |Entries(o)[k].s| < |PrintObject(o)|
  {
    ItemsShow(Entries(o), k);
    FanoutIsLast(o);
    ContainsAround(PrintMembers(JObject(o.members), o.members) + "1a", PrintItems(Entries(o)), "", Entries(o)[k].s);
  }

  lemma MentionsShow(o: Object)
    requires Mentions(o)
    ensures Contains(PrintObject(o), SAVED)
  {
    if SAVED in o.members {
      var members := PrintMembers(JObject(o.members), o.members);
      MembersShow(JObject(o.members), o.members, SAVED);
      ContainsAround("", members, PrintFanout(o.fanout), SAVED);
      assert PrintObject(o) == "" + members + PrintFanout(o.fanout);
    } else {
      var k :| 0 <= k < |Entries(o)| && Shows(Entries(o)[k]);
      EntriesShow(o, k);
      ContainsThrough(PrintObject(o), Entries(o)[k].s, SAVED);
    }
  }

  // ---------- The grammar ----------

  ghost function Parse(text: string): (r: Option<Object>)
    ensures r.Some? ==> PrintObject(r.value) == text
    ensures r.None? ==> forall o :: PrintObject(o) != text
  {
    if exists o :: PrintObject(o) == text then
      var o :| PrintObject(o) == text; Some(o)
    else None
  }

  /** The laws of replay configurations hold of some text grammar, whatever the syntax of paths. */
  lemma SomeGrammarIsFaithful(absolute: string -> bool, clean: string -> string) returns (g: Grammar)
    ensures Faithful(g) && g.absolute == absolute && g.clean == clean
  {
    g := Grammar(s => Parse(s), o => PrintObject(o), absolute, clean);
    forall o ensures g.parse(g.compact(o)) == Some(o) {
      var r := Parse(PrintObject(o));
      assert r.Some?;
      ObjectSplit(r.value, o);
    }
    forall o | Mentions(o) ensures Contains(g.compact(o), SAVED) { MentionsShow(o); }
    forall s, k | g.parse(s).Some? && 0 <= k < |Entries(g.parse(s).value)|
      ensures Shorter(Entries(g.parse(s).value)[k], s)
    {
      var o := g.parse(s).value;
      if Entries(o)[k].JString? { EntriesShow(o, k); }
    }
  }
}
