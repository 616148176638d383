/**
 Dataset qualifiers through a save and a reload: the save stamps an identity next to every id it knows and strips the
 ids nothing vouches for, the reload turns identities back into live ids. All three run over the same document walk.
 */
module StreamQualifiers {
  import opened Basics
  import opened ElementWalk
  import opened XmlText

  // ---------- The five qualifier shapes ----------

  datatype Part = Id | SourceName | FilePath

  const PREFIXES := ["", "x_", "y_", "input_", "source_"]

  function Name(shape: nat, part: Part): string
    requires shape < 5
  {
    PREFIXES[shape] + match part case Id => "dataset_id" case SourceName => "dataset_source" case FilePath => "dataset_path"
  }

  const PENDING := "pending_intent"

  lemma NamesDiffer(i: nat, p: Part, j: nat, q: Part)
    requires i < 5 && j < 5
    ensures Name(i, p) == Name(j, q) ==> i == j && p == q
    ensures Name(i, p) != PENDING
  {
    assert Name(i, p)[0] == ['d', 'x', 'y', 'i', 's'][i];
    assert Name(j, q)[0] == ['d', 'x', 'y', 'i', 's'][j];
  }

  type Attrs = map<string, string>

  /** The attribute triple of one shape: what is there, and nothing about what is not. */
  datatype Triple = Triple(id: Option<string>, source: Option<string>, path: Option<string>)

  function Get(a: Attrs, name: string): Option<string> {
    if name in a then Some(a[name]) else None
  }

  function Qualifier(a: Attrs, shape: nat): Triple
    requires shape < 5
  {
    Triple(Get(a, Name(shape, Id)), Get(a, Name(shape, SourceName)), Get(a, Name(shape, FilePath)))
  }

  // ---------- Stamping ----------

  /** The dataset an id attribute names, as an unsigned 32-bit number. */
  function NamedDataset(a: Attrs, shape: nat): Option<int>
    requires shape < 5
  {
    ParseInt(Attribute(a, Name(shape, Id), ""), 0, 0xFFFF_FFFF)
  }

  function StampShape(identities: map<int, string>, a: Attrs, shape: nat): Attrs
    requires shape < 5
  {
    var id := NamedDataset(a, shape);
    if id.Some? && id.value in identities then a[Name(shape, FilePath) := identities[id.value]] else a
  }

  function StampFrom(identities: map<int, string>, a: Attrs, shape: nat): Attrs
    requires shape <= 5
    decreases 5 - shape
  {
    if shape == 5 then a else StampFrom(identities, StampShape(identities, a, shape), shape + 1)
  }

  function Stamp(identities: map<int, string>): Edit {
    (tag: string, parent: string, a: Attrs) => StampFrom(identities, a, 0)
  }

  lemma StampShapeFrame(identities: map<int, string>, a: Attrs, shape: nat, i: nat)
    requires shape < 5 && i < 5 && i != shape
    ensures Qualifier(StampShape(identities, a, shape), i) == Qualifier(a, i)
    ensures NamedDataset(StampShape(identities, a, shape), i) == NamedDataset(a, i)
  {
    NamesDiffer(shape, FilePath, i, Id);
    NamesDiffer(shape, FilePath, i, SourceName);
    NamesDiffer(shape, FilePath, i, FilePath);
  }

  lemma {:induction false} StampFromShape(identities: map<int, string>, a: Attrs, shape: nat, i: nat)
    requires shape <= 5 && i < 5
    ensures Qualifier(StampFrom(identities, a, shape), i)
         == if i < shape then Qualifier(a, i) else Qualifier(StampShape(identities, a, i), i)
    decreases 5 - shape
  {
    if shape < 5 {
      var n := StampShape(identities, a, shape);
      StampFromShape(identities, n, shape + 1, i);
      if i != shape {
        StampShapeFrame(identities, a, shape, i);
        NamesDiffer(i, FilePath, i, Id);
        NamesDiffer(i, FilePath, i, SourceName);
      }
    }
  }

  /** A stamped qualifier: its identity in the path, its id and source name untouched. */
  lemma Stamped(identities: map<int, string>, a: Attrs, i: nat)
    requires i < 5
    ensures var n := Qualifier(StampFrom(identities, a, 0), i);
      && n.id == Qualifier(a, i).id && n.source == Qualifier(a, i).source
      && n.path == (if NamedDataset(a, i).Some? && NamedDataset(a, i).value in identities
                    then Some(identities[NamedDataset(a, i).value]) else Qualifier(a, i).path)
  {
    StampFromShape(identities, a, 0, i);
    NamesDiffer(i, FilePath, i, Id);
    NamesDiffer(i, FilePath, i, SourceName);
  }

  // ---------- Stripping unvalidated ids ----------

  /** Which qualifiers of an element the strip looks at. */
  predicate Strips(tag: string, parent: string, shape: nat) {
    || (tag == "curve" && parent == "plot" && shape <= 2)
    || (tag == "processor" && shape == 3)
    || (tag == "input" && (parent == "transform" || parent == "on_demand" || parent == "CustomWidget") && shape == 0)
    || (tag == "generator" && shape == 0)
    || (tag == "marker_scope" && parent == "plot" && shape == 0)
  }

  /** A non-zero id without a path is only a hint within its session. */
  predicate Unvalidated(a: Attrs, shape: nat)
    requires shape < 5
  {
    && Name(shape, Id) in a && Attribute(a, Name(shape, FilePath), "") == ""
    && var id := ParseInt(a[Name(shape, Id)], 0, 0xFFFF_FFFF_FFFF_FFFF); id.Some? && id.value != 0
  }

  function StripFrom(tag: string, parent: string, a: Attrs, shape: nat): Attrs
    requires shape <= 5
    decreases 5 - shape
  {
    if shape == 5 then a
    else
      StripFrom(tag, parent, if Strips(tag, parent, shape) && Unvalidated(a, shape) then a - {Name(shape, Id)} else a,
                shape + 1)
  }

  const STRIP: Edit := (tag: string, parent: string, a: Attrs) => StripFrom(tag, parent, a, 0)

  lemma {:induction false} StripFromShape(tag: string, parent: string, a: Attrs, shape: nat, i: nat)
    requires shape <= 5 && i < 5
    ensures Qualifier(StripFrom(tag, parent, a, shape), i)
         == if shape <= i && Strips(tag, parent, i) && Unvalidated(a, i)
            then Qualifier(a, i).(id := None) else Qualifier(a, i)
    decreases 5 - shape
  {
    if shape < 5 {
      var n := if Strips(tag, parent, shape) && Unvalidated(a, shape) then a - {Name(shape, Id)} else a;
      NamesDiffer(shape, Id, i, Id);
      NamesDiffer(shape, Id, i, SourceName);
      NamesDiffer(shape, Id, i, FilePath);
      StripFromShape(tag, parent, n, shape + 1, i);
    }
  }

  /** A qualifier with a path survives the strip whole. */
  lemma PathKeepsId(tag: string, parent: string, a: Attrs, i: nat)
    requires i < 5 && Attribute(a, Name(i, FilePath), "") != ""
    ensures Qualifier(StripFrom(tag, parent, a, 0), i) == Qualifier(a, i)
  {
    StripFromShape(tag, parent, a, 0, i);
  }

  /** The id attribute named `id`, when it is a non-zero number and the path attribute beside it is absent or empty. */
  predicate NothingVouches(a: Attrs, id: string, path: string) {
    && id in a && (path !in a || a[path] == "")
    && ParseInt(a[id], 0, 0xFFFF_FFFF_FFFF_FFFF).Some? && ParseInt(a[id], 0, 0xFFFF_FFFF_FFFF_FFFF).value != 0
  }

  function Lost(a: Attrs, id: string, path: string): set<string> {
    if NothingVouches(a, id, path) then {id} else {}
  }

  /** The attributes the strip takes from an element: only ids, only of elements that qualify data, only unvouched ones. */
  function IdsLost(tag: string, parent: string, a: Attrs): set<string> {
    if tag == "curve" && parent == "plot" then
      Lost(a, "dataset_id", "dataset_path") + Lost(a, "x_" + "dataset_id", "x_" + "dataset_path")
      + Lost(a, "y_" + "dataset_id", "y_" + "dataset_path")
    else if tag == "processor" then Lost(a, "input_" + "dataset_id", "input_" + "dataset_path")
    else if tag == "generator" || (tag == "marker_scope" && parent == "plot")
         || (tag == "input" && (parent == "transform" || parent == "on_demand" || parent == "CustomWidget")) then
      Lost(a, "dataset_id", "dataset_path")
    else {}
  }

  function LostAt(tag: string, parent: string, a: Attrs, i: nat): set<string>
    requires i < 5
  {
    if Strips(tag, parent, i) && Unvalidated(a, i) then {Name(i, Id)} else {}
  }

  function LostFrom(tag: string, parent: string, a: Attrs, shape: nat): set<string>
    requires shape <= 5
    decreases 5 - shape
  {
    if shape == 5 then {} else LostAt(tag, parent, a, shape) + LostFrom(tag, parent, a, shape + 1)
  }

  lemma {:induction false} LaterShapesLoseTheSame(tag: string, parent: string, a: Attrs, shape: nat, gone: nat)
    requires gone < shape <= 5
    ensures LostFrom(tag, parent, a - {Name(gone, Id)}, shape) == LostFrom(tag, parent, a, shape)
    decreases 5 - shape
  {
    if shape < 5 {
      NamesDiffer(gone, Id, shape, Id);
      NamesDiffer(gone, Id, shape, FilePath);
      LaterShapesLoseTheSame(tag, parent, a, shape + 1, gone);
    }
  }

  lemma {:induction false} StripTakes(tag: string, parent: string, a: Attrs, shape: nat)
    requires shape <= 5
    ensures StripFrom(tag, parent, a, shape) == a - LostFrom(tag, parent, a, shape)
    decreases 5 - shape
  {
    if shape < 5 {
      var n := if Strips(tag, parent, shape) && Unvalidated(a, shape) then a - {Name(shape, Id)} else a;
      StripTakes(tag, parent, n, shape + 1);
      LaterShapesLoseTheSame(tag, parent, a, shape + 1, shape);
    }
  }

  lemma PlainNames()
    ensures Name(0, Id) == "dataset_id" && Name(0, FilePath) == "dataset_path"
  {
  }

  lemma QualifierNames()
    ensures Name(0, Id) == "dataset_id" && Name(0, FilePath) == "dataset_path"
    ensures Name(1, Id) == "x_" + "dataset_id" && Name(1, FilePath) == "x_" + "dataset_path"
    ensures Name(2, Id) == "y_" + "dataset_id" && Name(2, FilePath) == "y_" + "dataset_path"
    ensures Name(3, Id) == "input_" + "dataset_id" && Name(3, FilePath) == "input_" + "dataset_path"
  {
    PlainNames();
  }

  /** The strip takes exactly the unvouched ids from an element and leaves every other attribute. */
  lemma StripRemovesExactly(tag: string, parent: string, a: Attrs)
    ensures StripFrom(tag, parent, a, 0) == a - IdsLost(tag, parent, a)
  {
    QualifierNames();
    StripTakes(tag, parent, a, 0);
    var rest := LostFrom(tag, parent, a, 3);
    assert rest == LostAt(tag, parent, a, 3) + (LostAt(tag, parent, a, 4) + {});
    assert LostFrom(tag, parent, a, 1) == LostAt(tag, parent, a, 1) + (LostAt(tag, parent, a, 2) + rest);
    assert LostFrom(tag, parent, a, 0)
        == LostAt(tag, parent, a, 0) + LostAt(tag, parent, a, 1) + LostAt(tag, parent, a, 2) + LostAt(tag, parent, a, 3);
  }

  // ---------- Binding one element ----------

  type Binding = map<string, nat>

  predicate Binds(binds: Binding, a: Attrs, shape: nat)
    requires shape < 5
  {
    Attribute(a, Name(shape, FilePath), "") in binds
  }

  function NewId(binds: Binding, a: Attrs, shape: nat): nat
    requires shape < 5 && Binds(binds, a, shape)
  {
    binds[Attribute(a, Name(shape, FilePath), "")]
  }

  datatype Result = Result(attrs: Attrs, bound: Option<nat>)

  function BindShape(binds: Binding, r: Result, shape: nat): Result
    requires shape < 5
  {
    if !Binds(binds, r.attrs, shape) then r
    else
      var id := NewId(binds, r.attrs, shape);
      Result(r.attrs[Name(shape, Id) := PrintInt(id)] - {Name(shape, SourceName), Name(shape, FilePath)}, Some(id))
  }

  function BindFrom(binds: Binding, r: Result, shape: nat): Result
    requires shape <= 5
    decreases 5 - shape
  {
    if shape == 5 then r else BindFrom(binds, BindShape(binds, r, shape), shape + 1)
  }

  function BindElement(binds: Binding, a: Attrs): Result {
    BindFrom(binds, Result(a, None), 0)
  }

  lemma BindShapeFrame(binds: Binding, r: Result, shape: nat, i: nat)
    requires shape < 5 && i < 5 && i != shape
    ensures Qualifier(BindShape(binds, r, shape).attrs, i) == Qualifier(r.attrs, i)
    ensures Binds(binds, BindShape(binds, r, shape).attrs, i) <==> Binds(binds, r.attrs, i)
    ensures Binds(binds, r.attrs, i) ==> NewId(binds, BindShape(binds, r, shape).attrs, i) == NewId(binds, r.attrs, i)
  {
    forall p, q ensures Name(shape, p) != Name(i, q) { NamesDiffer(shape, p, i, q); }
  }

  /** The triple a bound qualifier ends as. */
  function BoundTriple(id: nat): Triple {
    Triple(Some(PrintInt(id)), None, None)
  }

  lemma BindShapeTriple(binds: Binding, r: Result, i: nat)
    requires i < 5
    ensures Qualifier(BindShape(binds, r, i).attrs, i)
         == if Binds(binds, r.attrs, i) then BoundTriple(NewId(binds, r.attrs, i)) else Qualifier(r.attrs, i)
  {
    NamesDiffer(i, Id, i, SourceName);
    NamesDiffer(i, Id, i, FilePath);
  }

  lemma {:induction false} BindFromShape(binds: Binding, r: Result, shape: nat, i: nat)
    requires shape <= 5 && i < 5
    ensures Qualifier(BindFrom(binds, r, shape).attrs, i)
         == if shape <= i && Binds(binds, r.attrs, i) then BoundTriple(NewId(binds, r.attrs, i))
            else Qualifier(r.attrs, i)
    ensures (shape <= i && Binds(binds, r.attrs, i)) || r.bound.Some? ==> BindFrom(binds, r, shape).bound.Some?
    decreases 5 - shape
  {
    if shape < 5 {
      var n := BindShape(binds, r, shape);
      BindFromShape(binds, n, shape + 1, i);
      if i == shape { BindShapeTriple(binds, r, i); } else { BindShapeFrame(binds, r, shape, i); }
    }
  }

  // ---------- Binding a document ----------

  /** These elements wait for their own topic; a payload makes its layer wait instead. */
  predicate WaitsItself(tag: string) {
    tag == "curve" || tag == "layer" || tag == "config_topic"
  }

  predicate Unqualified(a: Attrs) {
    Name(0, Id) !in a && Name(0, SourceName) !in a && Name(0, FilePath) !in a
  }

  /** What a bound payload does to the layer above it. */
  function Adopt(layer: Attrs, id: nat): Attrs {
    var marked := layer[PENDING := "true"];
    if Unqualified(marked) then marked[Name(0, Id) := PrintInt(id)] else marked
  }

  predicate IsPayload(d: Doc, k: nat)
    requires WellFormed(d) && k < |d.tags|
  {
    !WaitsItself(d.tags[k]) && ParentTag(d, k) == "layer"
  }

  function Own(binds: Binding, tag: string, a: Attrs): Attrs {
    var r := BindElement(binds, a);
    if r.bound.Some? && WaitsItself(tag) then r.attrs[PENDING := "true"] else r.attrs
  }

  function BindVisit(binds: Binding): (Doc, nat) -> Doc {
    (d: Doc, k: nat) =>
      if !WellFormed(d) || k >= |d.tags| then d
      else
        var r := BindElement(binds, d.attrs[k]);
        var n := d.(attrs := d.attrs[k := Own(binds, d.tags[k], d.attrs[k])]);
        if r.bound.Some? && k > 0 && IsPayload(d, k) then
          n.(attrs := n.attrs[d.parents[k] := Adopt(n.attrs[d.parents[k]], r.bound.value)])
        else n
  }

  /** The new id of a bound payload of layer `k`, or None. */
  function PayloadId(d: Doc, binds: Binding, k: nat, c: nat): Option<nat>
    requires WellFormed(d) && c < |d.tags|
  {
    if c > 0 && d.parents[c] == k && IsPayload(d, c) then BindElement(binds, d.attrs[c]).bound else None
  }

  /** The last bound payload of layer `k` among the elements before `m` that are in `seen`. */
  function LastPayload(d: Doc, binds: Binding, k: nat, seen: set<nat>, m: nat): Option<nat>
    requires WellFormed(d) && m <= |d.tags|
  {
    if m == 0 then None
    else if m - 1 in seen && PayloadId(d, binds, k, m - 1).Some? then PayloadId(d, binds, k, m - 1)
    else LastPayload(d, binds, k, seen, m - 1)
  }

  /** The attributes of element `k` once the elements in `seen` have been visited. */
  function Partial(d: Doc, binds: Binding, k: nat, seen: set<nat>): Attrs
    requires WellFormed(d) && k < |d.tags|
  {
    if k !in seen then d.attrs[k]
    else
      var own := Own(binds, d.tags[k], d.attrs[k]);
      var last := LastPayload(d, binds, k, seen, |d.tags|);
      if last.Some? then Adopt(own, last.value) else own
  }

  lemma {:induction false} NoPayloadSeen(d: Doc, binds: Binding, k: nat, seen: set<nat>, m: nat)
    requires WellFormed(d) && m <= |d.tags|
    requires forall x :: x in seen && x < m ==> PayloadId(d, binds, k, x).None?
    ensures LastPayload(d, binds, k, seen, m).None?
  {
    if m > 0 { NoPayloadSeen(d, binds, k, seen, m - 1); }
  }

  lemma {:induction false} LastPayloadGrows(d: Doc, binds: Binding, k: nat, seen: set<nat>, c: nat, m: nat)
    requires WellFormed(d) && m <= |d.tags| && c < |d.tags| && c !in seen
    requires forall x :: x in seen && x < |d.tags| && PayloadId(d, binds, k, x).Some? && c > 0 && d.parents[c] == k ==> c < x
    ensures LastPayload(d, binds, k, seen + {c}, m)
         == if LastPayload(d, binds, k, seen, m).None? && c < m then PayloadId(d, binds, k, c)
            else LastPayload(d, binds, k, seen, m)
  {
    if m > 0 {
      LastPayloadGrows(d, binds, k, seen, c, m - 1);
      if m - 1 == c && PayloadId(d, binds, k, c).Some? {
        NoPayloadSeen(d, binds, k, seen, c);
      }
    }
  }

  /** A second payload finds its layer marked and qualified. */
  lemma AdoptOnce(a: Attrs, first: nat, second: nat)
    ensures Adopt(Adopt(a, first), second) == Adopt(a, first)
  {
    NamesDiffer(0, Id, 0, SourceName);
    NamesDiffer(0, FilePath, 0, SourceName);
    NamesDiffer(0, SourceName, 0, Id);
  }

  /** What has been seen when an element comes up: not the element, nor anything below it, but its parent. */
  ghost predicate Frontier(d: Doc, seen: set<nat>, c: nat)
    requires WellFormed(d)
  {
    && c < |d.tags| && c !in seen && (c > 0 ==> d.parents[c] in seen)
    && (forall x :: x in seen && 0 < x < |d.tags| ==> d.parents[x] in seen)
    && (forall x :: x in seen && 0 < x < |d.tags| && c > 0 && d.parents[x] == d.parents[c] ==> c < x)
  }

  /** What visiting `c` makes of element `k`. */
  function Visited(d: Doc, binds: Binding, c: nat, k: nat): Attrs
    requires WellFormed(d) && c < |d.tags| && k < |d.tags|
  {
    if k == c then Own(binds, d.tags[k], d.attrs[k])
    else
      var id := PayloadId(d, binds, k, c);
      if id.Some? then Adopt(d.attrs[k], id.value) else d.attrs[k]
  }

  lemma VisitedAt(d: Doc, binds: Binding, c: nat, k: nat)
    requires WellFormed(d) && c < |d.tags| && k < |d.tags|
    ensures BindVisit(binds)(d, c).attrs[k] == Visited(d, binds, c, k)
  {
    assert c > 0 ==> d.parents[c] < c;
  }

  lemma SamePayload(d: Doc, start: Doc, binds: Binding, k: nat, c: nat)
    requires WellFormed(start) && WellFormed(d) && d.tags == start.tags && d.parents == start.parents
    requires c < |d.tags| && d.attrs[c] == start.attrs[c]
    ensures PayloadId(d, binds, k, c) == PayloadId(start, binds, k, c)
  {
    assert IsPayload(d, c) == IsPayload(start, c);
  }

  /** The element itself: none of its payloads has been seen yet. */
  lemma PartialSelf(d: Doc, binds: Binding, seen: set<nat>, c: nat)
    requires WellFormed(d) && Frontier(d, seen, c)
    ensures Partial(d, binds, c, seen + {c}) == Own(binds, d.tags[c], d.attrs[c])
  {
    NoPayloadSeen(d, binds, c, seen + {c}, |d.tags|);
  }

  /** Any other element: only a payload of it makes a difference, and only the first one visited. */
  lemma PartialOther(d: Doc, binds: Binding, seen: set<nat>, c: nat, k: nat)
    requires WellFormed(d) && Frontier(d, seen, c) && k < |d.tags| && k != c
    ensures Partial(d, binds, k, seen + {c})
         == var id := PayloadId(d, binds, k, c);
            if id.Some? then Adopt(Partial(d, binds, k, seen), id.value) else Partial(d, binds, k, seen)
  {
    if k in seen {
      LastPayloadGrows(d, binds, k, seen, c, |d.tags|);
      var last := LastPayload(d, binds, k, seen, |d.tags|);
      var id := PayloadId(d, binds, k, c);
      if last.Some? && id.Some? {
        AdoptOnce(Own(binds, d.tags[k], d.attrs[k]), last.value, id.value);
      }
    }
  }

  lemma BindStep(start: Doc, binds: Binding, d: Doc, seen: set<nat>, c: nat, k: nat)
    requires WellFormed(start) && WellFormed(d) && d.tags == start.tags && d.parents == start.parents
    requires Frontier(start, seen, c) && k < |start.tags|
    requires d.attrs[c] == Partial(start, binds, c, seen) && d.attrs[k] == Partial(start, binds, k, seen)
    ensures BindVisit(binds)(d, c).attrs[k] == Partial(start, binds, k, seen + {c})
  {
    VisitedAt(d, binds, c, k);
    SamePayload(d, start, binds, k, c);
    if k == c {
      PartialSelf(start, binds, seen, c);
    } else {
      PartialOther(start, binds, seen, c, k);
    }
  }

  /** Every element of the order is a frontier of those before it. */
  ghost predicate GoodOrder(d: Doc, order: seq<nat>)
    requires WellFormed(d)
  {
    forall i :: 0 <= i < |order| ==> Frontier(d, Members(order[..i]), order[i])
  }

  /** The document after the first `i` visits of the pass over `start`. */
  ghost predicate Reached(start: Doc, binds: Binding, d: Doc, order: seq<nat>, i: nat)
    requires WellFormed(start) && i <= |order|
  {
    && WellFormed(d) && d.tags == start.tags && d.parents == start.parents
    && forall j :: 0 <= j < |start.tags| ==> d.attrs[j] == Partial(start, binds, j, Members(order[..i]))
  }

  lemma BindAdvance(start: Doc, binds: Binding, d: Doc, order: seq<nat>, i: nat)
    requires WellFormed(start) && GoodOrder(start, order) && i < |order| && Reached(start, binds, d, order, i)
    ensures Reached(start, binds, BindVisit(binds)(d, order[i]), order, i + 1)
  {
    var seen := Members(order[..i]);
    assert Frontier(start, seen, order[i]);
    assert Members(order[..i + 1]) == seen + {order[i]} by { assert order[..i + 1] == order[..i] + [order[i]]; }
    BindAttributesOnly(binds);
    assert SameShape(d, BindVisit(binds)(d, order[i]));
    forall j | 0 <= j < |start.tags|
      ensures BindVisit(binds)(d, order[i]).attrs[j] == Partial(start, binds, j, Members(order[..i + 1]))
    {
      BindStep(start, binds, d, seen, order[i], j);
    }
  }

  lemma {:induction false} BindVisits(start: Doc, binds: Binding, d: Doc, order: seq<nat>, i: nat)
    requires WellFormed(start) && GoodOrder(start, order) && i <= |order| && Reached(start, binds, d, order, i)
    ensures Reached(start, binds, VisitAll(BindVisit(binds), d, order, i), order, |order|)
    decreases |order| - i
  {
    if i < |order| {
      BindAdvance(start, binds, d, order, i);
      BindVisits(start, binds, BindVisit(binds)(d, order[i]), order, i + 1);
    }
  }

  /** Every position of the walk's order is a frontier. */
  lemma FrontierAt(d: Doc, i: nat)
    requires WellFormed(d) && WalkInv(d.parents, [0], []) && i < |Order(d.parents, [0], [])|
    ensures Frontier(d, Members(Order(d.parents, [0], [])[..i]), Order(d.parents, [0], [])[i])
  {
    var order := Order(d.parents, [0], []);
    EachElementOnce(d.parents);
    PrefixShape(d.parents, [0], [], i);
    PrefixShape(d.parents, [0], [], i + 1);
    var c := order[i];
    assert c in order;
    assert order[..i + 1] == order[..i] + [c];
    assert c in order[..i + 1];
    if c > 0 {
      assert d.parents[c] in order[..i + 1];
    }
  }

  lemma WalkIsGood(d: Doc)
    requires WellFormed(d) && WalkInv(d.parents, [0], [])
    ensures GoodOrder(d, Order(d.parents, [0], []))
  {
    forall i | 0 <= i < |Order(d.parents, [0], [])|
      ensures Frontier(d, Members(Order(d.parents, [0], [])[..i]), Order(d.parents, [0], [])[i])
    {
      FrontierAt(d, i);
    }
  }

  lemma WholeOrder(d: Doc)
    requires WellFormed(d) && WalkInv(d.parents, [0], [])
    ensures var order := Order(d.parents, [0], []); Members(order[..|order|]) == Below(|d.tags|)
  {
    EachElementOnce(d.parents);
    var order := Order(d.parents, [0], []);
    assert order[..|order|] == order;
  }

  lemma ReachedAtStart(d: Doc, binds: Binding, order: seq<nat>)
    requires WellFormed(d)
    ensures Reached(d, binds, d, order, 0)
  {
    assert Members(order[..0]) == {};
  }

  /** The bind pass, element by element: each is bound on its own, and a layer waits for the last of its payloads. */
  lemma BindPass(d: Doc, binds: Binding, k: nat)
    requires WellFormed(d) && k < |d.tags|
    ensures var n := Pass(BindVisit(binds), d);
      && WellFormed(n) && n.tags == d.tags && n.parents == d.parents
      && n.attrs[k] == Partial(d, binds, k, Below(|d.tags|))
  {
    WalkStarts(d.parents);
    WalkIsGood(d);
    WholeOrder(d);
    var order := Order(d.parents, [0], []);
    ReachedAtStart(d, binds, order);
    BindVisits(d, binds, d, order, 0);
  }

  // ---------- Save and reload ----------

  class Document {
    var doc: Doc

    constructor (d: Doc)
      ensures doc == d
    {
      doc := d;
    }

    method StampDatasetIdentities(identities: map<int, string>)
      requires WellFormed(doc)
      modifies this
      ensures WellFormed(doc) && doc.tags == old(doc).tags && doc.parents == old(doc).parents
      ensures forall k :: 0 <= k < |doc.tags| ==> doc.attrs[k] == Edited(Stamp(identities), old(doc), k)
    {
      if identities == map[] {
        NothingToStamp(doc);
        return;
      }
      LocalPasses(Stamp(identities), doc);
      doc := ForEachElement(doc, Local(Stamp(identities)));
    }

    method RemoveUnvalidatedDatasetIds()
      requires WellFormed(doc)
      modifies this
      ensures WellFormed(doc) && doc.tags == old(doc).tags && doc.parents == old(doc).parents
      ensures forall k :: 0 <= k < |doc.tags| ==> doc.attrs[k] == Edited(STRIP, old(doc), k)
      ensures forall k :: 0 <= k < |doc.tags| ==>
        doc.attrs[k] == old(doc).attrs[k] - IdsLost(doc.tags[k], ParentTag(old(doc), k), old(doc).attrs[k])
    {
      LocalPasses(STRIP, doc);
      ghost var was := doc;
      forall k | 0 <= k < |was.tags|
        ensures Edited(STRIP, was, k) == was.attrs[k] - IdsLost(was.tags[k], ParentTag(was, k), was.attrs[k])
      {
        StripRemovesExactly(was.tags[k], ParentTag(was, k), was.attrs[k]);
      }
      doc := ForEachElement(doc, Local(STRIP));
    }

    method BindStreamQualifiers(binds: Binding)
      requires WellFormed(doc)
      modifies this
      ensures WellFormed(doc) && doc.tags == old(doc).tags && doc.parents == old(doc).parents
      ensures binds != map[] ==>
        forall k :: 0 <= k < |doc.tags| ==> doc.attrs[k] == Partial(old(doc), binds, k, Below(|doc.tags|))
      ensures binds == map[] ==> doc == old(doc)
    {
      if binds == map[] {
        return;
      }
      BindPasses(doc, binds);
      doc := ForEachElement(doc, BindVisit(binds));
    }

    /**
     A save and a reload: stamp, strip, and bind under the reloaded streams' ids. Every qualifier of a stream that came
     back ends as exactly its new id, wherever it is.
     */
    method SaveAndRebind(identities: map<int, string>, binds: Binding)
      requires WellFormed(doc)
      modifies this
      ensures WellFormed(doc) && doc.tags == old(doc).tags && doc.parents == old(doc).parents
      ensures forall k, i: nat :: 0 <= k < |doc.tags| && i < 5 && ComesBack(identities, binds, old(doc).attrs[k], i) ==>
        Qualifier(doc.attrs[k], i) == BoundTriple(NewIdOf(identities, binds, old(doc).attrs[k], i))
    {
      ghost var first := doc;
      StampDatasetIdentities(identities);
      ghost var stamped := doc;
      RemoveUnvalidatedDatasetIds();
      ghost var saved := doc;
      forall j | 0 <= j < |first.tags|
        ensures saved.attrs[j] == Saved(identities, first.tags[j], ParentTag(first, j), first.attrs[j]) {
        assert stamped.attrs[j] == Edited(Stamp(identities), first, j);
        assert saved.attrs[j] == Edited(STRIP, stamped, j);
        assert ParentTag(stamped, j) == ParentTag(first, j);
      }
      BindStreamQualifiers(binds);
      forall k, i: nat | 0 <= k < |doc.tags| && i < 5 && ComesBack(identities, binds, first.attrs[k], i)
        ensures Qualifier(doc.attrs[k], i) == BoundTriple(NewIdOf(identities, binds, first.attrs[k], i)) {
        EveryStampedQualifierRebinds(first, identities, saved, binds, k, i);
      }
    }
  }

  /** The qualifier names a dataset that was saved with an identity, and a stream with that identity is there again. */
  predicate ComesBack(identities: map<int, string>, binds: Binding, a: Attrs, i: nat)
    requires i < 5
  {
    && NamedDataset(a, i).Some? && NamedDataset(a, i).value in identities
    && identities[NamedDataset(a, i).value] != "" && identities[NamedDataset(a, i).value] in binds
  }

  function NewIdOf(identities: map<int, string>, binds: Binding, a: Attrs, i: nat): nat
    requires i < 5 && ComesBack(identities, binds, a, i)
  {
    binds[identities[NamedDataset(a, i).value]]
  }

  lemma NothingToStamp(d: Doc)
    requires WellFormed(d)
    ensures forall k :: 0 <= k < |d.tags| ==> d.attrs[k] == Edited(Stamp(map[]), d, k)
  {
    forall k | 0 <= k < |d.tags| ensures d.attrs[k] == StampFrom(map[], d.attrs[k], 0) {
      assert StampFrom(map[], d.attrs[k], 3) == d.attrs[k];
      assert StampFrom(map[], d.attrs[k], 1) == d.attrs[k];
    }
  }

  lemma LocalPasses(edit: Edit, d: Doc)
    requires WellFormed(d)
    ensures AttributesOnly(Local(edit)) && WellFormed(Pass(Local(edit), d)) && Pass(Local(edit), d).tags == d.tags
    ensures forall k :: 0 <= k < |d.tags| ==> Pass(Local(edit), d).attrs[k] == Edited(edit, d, k)
  {
    forall k | 0 <= k < |d.tags| ensures WellFormed(Pass(Local(edit), d)) && Pass(Local(edit), d).tags == d.tags
      && Pass(Local(edit), d).attrs[k] == Edited(edit, d, k) {
      LocalPass(edit, d, k);
    }
    LocalPass(edit, d, 0);
    LocalAttributesOnly(edit);
  }

  lemma BindPasses(d: Doc, binds: Binding)
    requires WellFormed(d)
    ensures AttributesOnly(BindVisit(binds)) && WellFormed(Pass(BindVisit(binds), d))
    ensures Pass(BindVisit(binds), d).tags == d.tags
    ensures forall k :: 0 <= k < |d.tags| ==>
      Pass(BindVisit(binds), d).attrs[k] == Partial(d, binds, k, Below(|d.tags|))
  {
    forall k | 0 <= k < |d.tags| ensures WellFormed(Pass(BindVisit(binds), d))
      && Pass(BindVisit(binds), d).tags == d.tags
      && Pass(BindVisit(binds), d).attrs[k] == Partial(d, binds, k, Below(|d.tags|)) {
      BindPass(d, binds, k);
    }
    BindPass(d, binds, 0);
    BindAttributesOnly(binds);
  }

  lemma BindAttributesOnly(binds: Binding)
    ensures AttributesOnly(BindVisit(binds))
  {
    forall e: Doc, k: nat ensures SameShape(e, BindVisit(binds)(e, k)) {}
  }

  /** What a save and a reload make of one element. */
  function Saved(identities: map<int, string>, tag: string, parent: string, a: Attrs): Attrs {
    STRIP(tag, parent, Stamp(identities)(tag, parent, a))
  }

  /** A stamped qualifier carries its identity through the save. */
  lemma SavedQualifier(identities: map<int, string>, tag: string, parent: string, a: Attrs, i: nat)
    requires i < 5 && NamedDataset(a, i).Some? && NamedDataset(a, i).value in identities
    requires identities[NamedDataset(a, i).value] != ""
    ensures Qualifier(Saved(identities, tag, parent, a), i)
         == Qualifier(a, i).(path := Some(identities[NamedDataset(a, i).value]))
  {
    Stamped(identities, a, i);
    var s := StampFrom(identities, a, 0);
    assert Get(s, Name(i, FilePath)) == Some(identities[NamedDataset(a, i).value]);
    PathKeepsId(tag, parent, s, i);
  }

  /** The layer's adoption never touches a qualifier that is there. */
  lemma AdoptKeepsQualifiers(a: Attrs, id: nat, i: nat)
    requires i < 5 && (i == 0 ==> !Unqualified(a))
    ensures Qualifier(Adopt(a, id), i) == Qualifier(a, i)
  {
    forall p: Part ensures Name(i, p) != PENDING && Name(0, p) != PENDING {
      NamesDiffer(i, p, 0, Id);
      NamesDiffer(0, p, 0, Id);
    }
    forall p: Part | i != 0 ensures Name(i, p) != Name(0, Id) { NamesDiffer(i, p, 0, Id); }
  }

  /** A bound element's own triples: the new id where the path is bound, anything else as it was. */
  lemma OwnQualifier(binds: Binding, tag: string, a: Attrs, i: nat)
    requires i < 5
    ensures Qualifier(Own(binds, tag, a), i)
         == if Binds(binds, a, i) then BoundTriple(NewId(binds, a, i)) else Qualifier(a, i)
  {
    BindFromShape(binds, Result(a, None), 0, i);
    forall p: Part ensures Name(i, p) != PENDING { NamesDiffer(i, p, 0, Id); }
  }

  /** At the end of the pass too, unless a layer adopted an id into an empty place. */
  lemma FinalQualifier(d: Doc, binds: Binding, k: nat, i: nat)
    requires WellFormed(d) && k < |d.tags| && i < 5
    requires i == 0 && !Binds(binds, d.attrs[k], 0) ==> Qualifier(d.attrs[k], 0) != Triple(None, None, None)
    ensures Qualifier(Partial(d, binds, k, Below(|d.tags|)), i)
         == if Binds(binds, d.attrs[k], i) then BoundTriple(NewId(binds, d.attrs[k], i)) else Qualifier(d.attrs[k], i)
  {
    var own := Own(binds, d.tags[k], d.attrs[k]);
    OwnQualifier(binds, d.tags[k], d.attrs[k], i);
    var last := LastPayload(d, binds, k, Below(|d.tags|), |d.tags|);
    if last.Some? { AdoptKeepsQualifiers(own, last.value, i); }
  }

  /**
   Stamp, strip, bind: every qualifier of a stamped dataset, in any shape on any element at any depth, ends as exactly
   the dataset's new id, its source name and path gone.
   */
  lemma EveryStampedQualifierRebinds(d: Doc, identities: map<int, string>, saved: Doc, binds: Binding, k: nat, i: nat)
    requires WellFormed(d) && WellFormed(saved) && saved.tags == d.tags && saved.parents == d.parents
    requires forall j :: 0 <= j < |d.tags| ==> saved.attrs[j] == Saved(identities, d.tags[j], ParentTag(d, j), d.attrs[j])
    requires k < |d.tags| && i < 5
    requires ComesBack(identities, binds, d.attrs[k], i)
    ensures Qualifier(Partial(saved, binds, k, Below(|d.tags|)), i)
         == BoundTriple(NewIdOf(identities, binds, d.attrs[k], i))
  {
    SavedQualifier(identities, d.tags[k], ParentTag(d, k), d.attrs[k], i);
    assert Get(saved.attrs[k], Name(i, FilePath)) == Some(identities[NamedDataset(d.attrs[k], i).value]);
    FinalQualifier(saved, binds, k, i);
  }

  /** Different new ids are written differently. */
  lemma BoundTriplesDiffer(m: nat, n: nat)
    requires m != n
    ensures BoundTriple(m) != BoundTriple(n)
  {
    ParsePrinted(m, 0, if m < n then n else m);
    ParsePrinted(n, 0, if m < n then n else m);
  }

  /**
   With both maps one to one, two qualifiers of reloaded streams end alike exactly when they named the same dataset
   before, whatever their shapes and elements: no stream is lost in another.
   */
  lemma QualifiersStayApart(
    d: Doc, identities: map<int, string>, saved: Doc, binds: Binding, k: nat, i: nat, l: nat, j: nat)
    requires WellFormed(d) && WellFormed(saved) && saved.tags == d.tags && saved.parents == d.parents
    requires forall x :: 0 <= x < |d.tags| ==> saved.attrs[x] == Saved(identities, d.tags[x], ParentTag(d, x), d.attrs[x])
    requires k < |d.tags| && i < 5 && ComesBack(identities, binds, d.attrs[k], i)
    requires l < |d.tags| && j < 5 && ComesBack(identities, binds, d.attrs[l], j)
    requires forall x, y :: x in identities && y in identities && identities[x] == identities[y] ==> x == y
    requires forall x, y :: x in binds && y in binds && binds[x] == binds[y] ==> x == y
    ensures Qualifier(Partial(saved, binds, k, Below(|d.tags|)), i) == Qualifier(Partial(saved, binds, l, Below(|d.tags|)), j)
       <==> NamedDataset(d.attrs[k], i) == NamedDataset(d.attrs[l], j)
  {
    EveryStampedQualifierRebinds(d, identities, saved, binds, k, i);
    EveryStampedQualifierRebinds(d, identities, saved, binds, l, j);
    var m, n := NewIdOf(identities, binds, d.attrs[k], i), NewIdOf(identities, binds, d.attrs[l], j);
    if m != n { BoundTriplesDiffer(m, n); }
  }

  /** A qualifier whose path is no stream's identity is left alone, unless its layer adopts an id into the empty place. */
  lemma OtherQualifiersStay(d: Doc, binds: Binding, k: nat, i: nat)
    requires WellFormed(d) && k < |d.tags| && i < 5 && !Binds(binds, d.attrs[k], i)
    requires i == 0 ==> Qualifier(d.attrs[k], 0) != Triple(None, None, None)
    ensures Qualifier(Partial(d, binds, k, Below(|d.tags|)), i) == Qualifier(d.attrs[k], i)
  {
    FinalQualifier(d, binds, k, i);
  }

  lemma {:induction false} LastPayloadIs(d: Doc, binds: Binding, k: nat, c: nat, m: nat)
    requires WellFormed(d) && c < m <= |d.tags| && PayloadId(d, binds, k, c).Some?
    requires forall x :: c < x < m ==> PayloadId(d, binds, k, x).None?
    ensures LastPayload(d, binds, k, Below(|d.tags|), m) == PayloadId(d, binds, k, c)
  {
    if c < m - 1 { LastPayloadIs(d, binds, k, c, m - 1); }
  }

  /** A layer with no qualifier of its own ends up waiting for the stream of its last bound payload. */
  lemma LayerAdoptsItsLastPayload(d: Doc, binds: Binding, k: nat, c: nat)
    requires WellFormed(d) && k < |d.tags| && c < |d.tags| && PayloadId(d, binds, k, c).Some?
    requires forall x :: c < x < |d.tags| ==> PayloadId(d, binds, k, x).None?
    requires Qualifier(d.attrs[k], 0) == Triple(None, None, None) && "" !in binds
    ensures var n := Partial(d, binds, k, Below(|d.tags|));
      Qualifier(n, 0) == BoundTriple(PayloadId(d, binds, k, c).value) && Get(n, PENDING) == Some("true")
  {
    LastPayloadIs(d, binds, k, c, |d.tags|);
    OwnQualifier(binds, d.tags[k], d.attrs[k], 0);
    forall p: Part ensures Name(0, p) != PENDING { NamesDiffer(0, p, 0, Id); }
    NamesDiffer(0, Id, 0, SourceName);
    NamesDiffer(0, Id, 0, FilePath);
  }

  // ---------- What waits ----------

  lemma {:induction false} BindTouchesNoMark(binds: Binding, r: Result, shape: nat)
    requires shape <= 5
    ensures Get(BindFrom(binds, r, shape).attrs, PENDING) == Get(r.attrs, PENDING)
    ensures BindFrom(binds, r, shape).bound.Some? <==> r.bound.Some? || exists i :: shape <= i < 5 && Binds(binds, r.attrs, i)
    decreases 5 - shape
  {
    if shape < 5 {
      var n := BindShape(binds, r, shape);
      forall p: Part ensures Name(shape, p) != PENDING { NamesDiffer(shape, p, 0, Id); }
      forall i | shape < i < 5 ensures Binds(binds, n.attrs, i) <==> Binds(binds, r.attrs, i) {
        BindShapeFrame(binds, r, shape, i);
      }
      BindTouchesNoMark(binds, n, shape + 1);
    }
  }

  /** One of the element's qualifiers names a stream that is back. */
  ghost predicate Returns(binds: Binding, a: Attrs) {
    exists i :: 0 <= i < 5 && Binds(binds, a, i)
  }

  /** Element `c` is a payload of layer `k`, and its stream is back. */
  ghost predicate PayloadReturns(d: Doc, binds: Binding, k: nat, c: nat)
    requires WellFormed(d) && c < |d.tags|
  {
    && 0 < c && d.parents[c] == k && d.tags[k] == "layer"
    && d.tags[c] != "curve" && d.tags[c] != "layer" && d.tags[c] != "config_topic"
    && Returns(binds, d.attrs[c])
  }

  lemma PayloadIdIs(d: Doc, binds: Binding, k: nat, c: nat)
    requires WellFormed(d) && k < |d.tags| && c < |d.tags|
    ensures PayloadId(d, binds, k, c).Some? <==> PayloadReturns(d, binds, k, c)
  {
    BindTouchesNoMark(binds, Result(d.attrs[c], None), 0);
  }

  lemma {:induction false} SomePayload(d: Doc, binds: Binding, k: nat, m: nat)
    requires WellFormed(d) && k < |d.tags| && m <= |d.tags|
    ensures LastPayload(d, binds, k, Below(|d.tags|), m).Some? <==> exists c: nat :: c < m && PayloadReturns(d, binds, k, c)
  {
    if m > 0 {
      SomePayload(d, binds, k, m - 1);
      PayloadIdIs(d, binds, k, m - 1);
    }
  }

  /**
   After the bind exactly these elements are marked as waiting, besides those that were: a curve, layer or configuration
   topic with a returning qualifier of its own, and a layer with a payload whose stream is back.
   */
  lemma WaitsExactly(d: Doc, binds: Binding, k: nat)
    requires WellFormed(d) && k < |d.tags|
    ensures Get(Partial(d, binds, k, Below(|d.tags|)), PENDING)
         == if ((d.tags[k] == "curve" || d.tags[k] == "layer" || d.tags[k] == "config_topic") && Returns(binds, d.attrs[k]))
               || (exists c: nat :: c < |d.tags| && PayloadReturns(d, binds, k, c))
            then Some("true") else Get(d.attrs[k], PENDING)
  {
    BindTouchesNoMark(binds, Result(d.attrs[k], None), 0);
    SomePayload(d, binds, k, |d.tags|);
    NamesDiffer(0, Id, 0, Id);
  }
}
