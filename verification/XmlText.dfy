/** Document trees, numbers as attribute text, and payloads as CDATA sections (section 2.7 of XML 1.0). */
module XmlText {
  import opened Basics

  datatype Node =
    | Element(tag: string, attrs: map<string, string>, children: seq<Node>)
    | Text(text: string)
    | CData(text: string)

  /** The direct child elements with this tag, in order. */
  function Elements(children: seq<Node>, tag: string): seq<Node> {
    if children == [] then []
    else if children[0].Element? && children[0].tag == tag then [children[0]] + Elements(children[1..], tag)
    else Elements(children[1..], tag)
  }

  lemma {:induction false} ElementsAreElements(children: seq<Node>, tag: string, k: nat)
    requires k < |Elements(children, tag)|
    ensures Elements(children, tag)[k].Element? && Elements(children, tag)[k].tag == tag
    ensures Elements(children, tag)[k] in children
  {
    if children[0].Element? && children[0].tag == tag {
      if k > 0 { ElementsAreElements(children[1..], tag, k - 1); }
    } else {
      ElementsAreElements(children[1..], tag, k);
    }
  }

  lemma {:induction false} ElementsAppend(a: seq<Node>, b: seq<Node>, tag: string)
    ensures Elements(a + b, tag) == Elements(a, tag) + Elements(b, tag)
  {
    if a == [] {
      assert a + b == b;
    } else {
      ElementsAppend(a[1..], b, tag);
      assert (a + b)[1..] == a[1..] + b;
    }
  }

  lemma ElementsOfOne(node: Node, tag: string)
    ensures Elements([node], tag) == if node.Element? && node.tag == tag then [node] else []
  {
    assert [node][1..] == [];
  }

  function Attribute(attrs: map<string, string>, name: string, default: string): string {
    if name in attrs then attrs[name] else default
  }

  /** The text of a whole subtree. */
  function TextOf(children: seq<Node>): string {
    if children == [] then ""
    else (if children[0].Element? then TextOf(children[0].children) else children[0].text) + TextOf(children[1..])
  }

  // ---------- Numbers ----------

  function Digit(d: nat): char
    requires d < 10
  {
    ['0', '1', '2', '3', '4', '5', '6', '7', '8', '9'][d]
  }

  predicate IsDigit(c: char) {
    '0' <= c <= '9'
  }

  function PrintNat(n: nat): string {
    if n < 10 then [Digit(n)] else PrintNat(n / 10) + [Digit(n % 10)]
  }

  function PrintInt(n: int): string {
    if n < 0 then "-" + PrintNat(-n) else PrintNat(n)
  }

  predicate AllDigits(s: string) {
    s != "" && forall k :: 0 <= k < |s| ==> IsDigit(s[k])
  }

  function DigitOf(c: char): nat
    requires IsDigit(c)
  {
    c as int - '0' as int
  }

  function NatValue(s: string): nat
    requires forall k :: 0 <= k < |s| ==> IsDigit(s[k])
  {
    if s == "" then 0 else 10 * NatValue(s[..|s| - 1]) + DigitOf(s[|s| - 1])
  }

  /** A decimal number with an optional sign, inside the given range. */
  function ParseInt(s: string, low: int, high: int): Option<int> {
    var signed := s != "" && (s[0] == '-' || s[0] == '+');
    var digits := if signed then s[1..] else s;
    if !AllDigits(digits) then None
    else
      var value: int := NatValue(digits);
      var n := if signed && s[0] == '-' then -value else value;
      if low <= n <= high then Some(n) else None
  }

  lemma {:induction false} PrintNatDigits(n: nat)
    ensures AllDigits(PrintNat(n))
  {
    if n >= 10 {
      PrintNatDigits(n / 10);
    }
  }

  lemma NatValueAppend(s: string, d: nat)
    requires (forall k :: 0 <= k < |s| ==> IsDigit(s[k])) && d < 10
    ensures var p := s + [Digit(d)]; (forall k :: 0 <= k < |p| ==> IsDigit(p[k])) && NatValue(p) == 10 * NatValue(s) + d
  {
    var p := s + [Digit(d)];
    assert p[..|p| - 1] == s && p[|p| - 1] == Digit(d);
  }

  lemma {:induction false} PrintNatValue(n: nat)
    ensures AllDigits(PrintNat(n)) && NatValue(PrintNat(n)) == n
  {
    PrintNatDigits(n);
    if n >= 10 {
      PrintNatValue(n / 10);
      NatValueAppend(PrintNat(n / 10), n % 10);
    } else {
      NatValueAppend("", n);
      assert "" + [Digit(n)] == [Digit(n)];
    }
  }

  /** What is printed is read back, whatever its sign, when the range holds it. */
  lemma ParsePrinted(n: int, low: int, high: int)
    requires low <= n <= high
    ensures ParseInt(PrintInt(n), low, high) == Some(n)
  {
    var s := PrintInt(n);
    var digits := PrintNat(if n < 0 then -n else n);
    PrintNatValue(if n < 0 then -n else n);
    if n < 0 {
      assert s[0] == '-' && s[1..] == digits;
    } else {
      assert s == digits && IsDigit(s[0]);
    }
  }

  // ---------- CDATA ----------

  const TERMINATOR := "]]>"

  predicate TerminatorAt(s: string, k: nat) {
    k + 3 <= |s| && s[k] == ']' && s[k + 1] == ']' && s[k + 2] == '>'
  }

  predicate Unterminated(s: string) {
    forall k: nat :: k < |s| ==> !TerminatorAt(s, k)
  }

  /** The first terminator at or after `from`, or the length of the text. */
  function FirstTerminator(s: string, from: nat): (k: nat)
    requires from <= |s|
    ensures from <= k <= |s|
    ensures k < |s| ==> TerminatorAt(s, k)
    ensures forall j: nat :: from <= j < k ==> !TerminatorAt(s, j)
    decreases |s| - from
  {
    if from == |s| then |s| else if TerminatorAt(s, from) then from else FirstTerminator(s, from + 1)
  }

  /** The payload cut after every "]]" that a ">" follows. */
  function Sections(s: string, start: nat): seq<string>
    requires start <= |s|
    decreases |s| - start
  {
    var hit := FirstTerminator(s, start);
    if hit == |s| then [s[start..]] else [s[start..hit + 2]] + Sections(s, hit + 2)
  }

  function Joined(sections: seq<string>): string {
    if sections == [] then "" else sections[0] + Joined(sections[1..])
  }

  lemma JoinedCons(first: string, rest: seq<string>)
    ensures Joined([first] + rest) == first + Joined(rest)
  {
    assert ([first] + rest)[1..] == rest;
  }

  lemma SplitAt(s: string, start: nat, cut: nat)
    requires start <= cut <= |s|
    ensures s[start..] == s[start..cut] + s[cut..]
  {
  }

  /** Cutting loses nothing. */
  lemma {:induction false} SectionsJoin(s: string, start: nat)
    requires start <= |s|
    ensures Joined(Sections(s, start)) == s[start..]
    decreases |s| - start
  {
    var hit := FirstTerminator(s, start);
    if hit < |s| {
      var first, rest := s[start..hit + 2], Sections(s, hit + 2);
      assert Sections(s, start) == [first] + rest;
      SectionsJoin(s, hit + 2);
      JoinedCons(first, rest);
      SplitAt(s, start, hit + 2);
    } else {
      assert Sections(s, start) == [s[start..]] + [];
      JoinedCons(s[start..], []);
    }
  }

  lemma CutIsUnterminated(s: string, start: nat, end: nat)
    requires start <= end <= |s| && forall j: nat :: start <= j && j + 3 <= end ==> !TerminatorAt(s, j)
    ensures Unterminated(s[start..end])
  {
    var cut := s[start..end];
    forall k: nat | k < |cut| ensures !TerminatorAt(cut, k) {
      if k + 3 <= |cut| { assert !TerminatorAt(s, start + k); }
    }
  }

  /** No section holds a terminator. */
  lemma {:induction false} SectionsUnterminated(s: string, start: nat, k: nat)
    requires start <= |s| && k < |Sections(s, start)|
    ensures Unterminated(Sections(s, start)[k])
    decreases |s| - start
  {
    var hit := FirstTerminator(s, start);
    CutIsUnterminated(s, start, if hit == |s| then |s| else hit + 2);
    if hit == |s| {
      assert s[start..|s|] == s[start..];
    } else if k > 0 {
      SectionsUnterminated(s, hit + 2, k - 1);
    }
  }

  function AsNodes(sections: seq<string>): seq<Node> {
    if sections == [] then [] else [CData(sections[0])] + AsNodes(sections[1..])
  }

  lemma {:induction false} TextOfSections(sections: seq<string>)
    ensures TextOf(AsNodes(sections)) == Joined(sections)
  {
    if sections != [] {
      TextOfSections(sections[1..]);
    }
  }

  lemma {:induction false} AsNodesAppend(a: seq<string>, b: seq<string>)
    ensures AsNodes(a + b) == AsNodes(a) + AsNodes(b)
  {
    if a == [] {
      assert a + b == b;
    } else {
      AsNodesAppend(a[1..], b);
      assert (a + b)[1..] == a[1..] + b;
    }
  }

  /** appendJsonAsCdata: the child nodes the payload becomes. */
  method AppendJsonAsCdata(json: string) returns (nodes: seq<Node>)
    ensures nodes == AsNodes(Sections(json, 0))
  {
    nodes := [];
    var start: nat := 0;
    ghost var done: seq<string> := [];
    ghost var whole := Sections(json, 0);
    while true
      invariant start <= |json| && nodes == AsNodes(done)
      invariant done + Sections(json, start) == whole
      decreases |json| - start
    {
      var hit := FirstTerminator(json, start);
      var last := hit == |json|;
      var section := if last then json[start..] else json[start..hit + 2];
      nodes := AppendSection(nodes, done, section);
      done := SectionStep(json, start, done, whole);
      if last {
        return;
      }
      start := hit + 2;
    }
  }

  /** The next section moves from what is to come to what is done. */
  lemma SectionStep(json: string, start: nat, done: seq<string>, whole: seq<string>) returns (next: seq<string>)
    requires start <= |json| && done + Sections(json, start) == whole
    ensures var hit := FirstTerminator(json, start);
      if hit == |json| then next == done + [json[start..]] && next == whole
      else next == done + [json[start..hit + 2]] && next + Sections(json, hit + 2) == whole
  {
    var hit := FirstTerminator(json, start);
    if hit == |json| {
      next := done + [json[start..]];
    } else {
      next := done + [json[start..hit + 2]];
      assert next + Sections(json, hit + 2) == done + ([json[start..hit + 2]] + Sections(json, hit + 2));
    }
  }

  method AppendSection(nodes: seq<Node>, ghost done: seq<string>, section: string) returns (r: seq<Node>)
    requires nodes == AsNodes(done)
    ensures r == AsNodes(done + [section])
  {
    AsNodesAppend(done, [section]);
    assert [section][1..] == [];
    r := nodes + [CData(section)];
  }

  // ---------- Sections as file text ----------

  const OPENING := "<![CDATA["

  function PrintSections(sections: seq<string>): string {
    if sections == [] then "" else OPENING + sections[0] + TERMINATOR + PrintSections(sections[1..])
  }

  /** Reads sections for as long as one opens; each ends at the first terminator after its opening. */
  function ReadSections(text: string): Option<seq<string>>
    decreases |text|
  {
    if text == "" then Some([])
    else if |text| < 9 || text[..9] != OPENING then None
    else
      var hit := FirstTerminator(text, 9);
      if hit == |text| then None
      else
        var rest := ReadSections(text[hit + 3..]);
        if rest.None? then None else Some([text[9..hit]] + rest.value)
  }

  lemma FirstTerminatorOf(section: string, rest: string)
    requires Unterminated(section)
    ensures FirstTerminator(OPENING + section + TERMINATOR + rest, 9) == 9 + |section|
  {
    var text := OPENING + section + TERMINATOR + rest;
    assert TerminatorAt(text, 9 + |section|);
    forall j: nat | 9 <= j < 9 + |section| ensures !TerminatorAt(text, j) {
      assert !TerminatorAt(section, j - 9);
    }
  }

  /** Sections without terminators survive being written as text and read back. */
  lemma {:induction false} SectionsSurvive(sections: seq<string>)
    requires forall k :: 0 <= k < |sections| ==> Unterminated(sections[k])
    ensures ReadSections(PrintSections(sections)) == Some(sections)
  {
    if sections != [] {
      var text := PrintSections(sections);
      var rest := PrintSections(sections[1..]);
      assert text == OPENING + sections[0] + TERMINATOR + rest;
      FirstTerminatorOf(sections[0], rest);
      assert text[..9] == OPENING;
      assert text[9..9 + |sections[0]|] == sections[0];
      assert text[9 + |sections[0]| + 3..] == rest;
      SectionsSurvive(sections[1..]);
      assert [sections[0]] + sections[1..] == sections;
    }
  }

  /** Any payload, terminators included, comes back from the file text. */
  lemma PayloadSurvives(json: string)
    ensures ReadSections(PrintSections(Sections(json, 0))).Some?
    ensures Joined(ReadSections(PrintSections(Sections(json, 0))).value) == json
  {
    SectionsJoin(json, 0);
    forall k | 0 <= k < |Sections(json, 0)| ensures Unterminated(Sections(json, 0)[k]) {
      SectionsUnterminated(json, 0, k);
    }
    SectionsSurvive(Sections(json, 0));
    assert json[0..] == json;
  }

  /** A payload with a terminator does not survive as a single section. */
  lemma OneSectionIsNotEnough(json: string)
    requires !Unterminated(json)
    ensures ReadSections(PrintSections([json])) != Some([json])
  {
    var text := PrintSections([json]);
    assert PrintSections([json][1..]) == "";
    assert text == OPENING + json + TERMINATOR;
    var k: nat :| k < |json| && TerminatorAt(json, k);
    assert TerminatorAt(text, 9 + k);
    if text[..9] == OPENING {
      assert FirstTerminator(text, 9) <= 9 + k;
    }
  }
}
