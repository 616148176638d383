/** The layout's records of its streaming sources: the rule both sides apply, the reader and the writer. */
module StreamRecords {
  import opened Basics
  import opened XmlText

  type int32 = x: int | -0x8000_0000 <= x <= 0x7FFF_FFFF
  type int64 = x: int | -0x8000_0000_0000_0000 <= x <= 0x7FFF_FFFF_FFFF_FFFF

  datatype Dataset = Dataset(name: string, index: int32, offset: int64, hasOffset: bool, globalOffset: bool, order: int32)

  const NODATASET := Dataset("", -1, 0, false, false, -1)

  datatype Source = Source(id: string, name: string, plugin: string, manifest: string, config: string, dataset: Dataset)

  datatype Problem = EmptyId | RepeatedId | NoPlugin | NoConfig | TwoPlugins | TwoBlocks

  const BLOCK := "previouslyLoaded_StreamingSources"
  const VERSION := "5"

  // ---------- The rule ----------

  /** The characters trimming removes. */
  predicate IsSpace(c: char) {
    || c == ' ' || '\t' <= c <= '\r' || c == '\U{0085}' || c == '\U{00A0}' || c == '\U{1680}'
    || '\U{2000}' <= c <= '\U{200A}' || c == '\U{2028}' || c == '\U{2029}' || c == '\U{202F}' || c == '\U{205F}'
    || c == '\U{3000}'
  }

  predicate Blank(s: string) {
    forall k :: 0 <= k < |s| ==> IsSpace(s[k])
  }

  function RecordProblem(s: Source, seen: set<string>): Option<Problem> {
    if s.id == "" then Some(EmptyId)
    else if s.id in seen then Some(RepeatedId)
    else if s.plugin == "" && s.manifest == "" then Some(NoPlugin)
    else if Blank(s.config) then Some(NoConfig)
    else None
  }

  /** A record on its own. */
  predicate Complete(s: Source) {
    s.id != "" && (s.plugin != "" || s.manifest != "") && !Blank(s.config)
  }

  /** What a layout may record: complete sources under pairwise distinct ids. */
  ghost predicate Valid(sources: seq<Source>) {
    && (forall i :: 0 <= i < |sources| ==> Complete(sources[i]))
    && (forall i, j :: 0 <= i < j < |sources| ==> sources[i].id != sources[j].id)
  }

  function Ids(sources: seq<Source>): set<string> {
    set k | 0 <= k < |sources| :: sources[k].id
  }

  function FirstProblem(sources: seq<Source>, k: nat): Option<Problem>
    requires k <= |sources|
    decreases |sources| - k
  {
    if k == |sources| then None
    else
      var p := RecordProblem(sources[k], Ids(sources[..k]));
      if p.Some? then p else FirstProblem(sources, k + 1)
  }

  lemma {:induction false} ProblemFreeFrom(sources: seq<Source>, k: nat)
    requires k <= |sources| && Valid(sources[..k])
    ensures FirstProblem(sources, k).None? <==> Valid(sources)
    decreases |sources| - k
  {
    if k == |sources| {
      assert sources[..k] == sources;
    } else {
      if RecordProblem(sources[k], Ids(sources[..k])).None? {
        forall i | 0 <= i < k ensures sources[i].id != sources[k].id { assert sources[..k][i].id in Ids(sources[..k]); }
        assert Valid(sources[..k + 1]);
        ProblemFreeFrom(sources, k + 1);
      }
    }
  }

  // ---------- Writing ----------

  function Optional(attrs: map<string, string>, present: bool, name: string, value: string): map<string, string> {
    if present then attrs[name := value] else attrs
  }

  function DatasetAttrs(d: Dataset): map<string, string> {
    Optional(Optional(Optional(Optional(map[],
      d.name != "", "source_name", d.name),
      d.index >= 0, "source_index", PrintInt(d.index)),
      d.hasOffset, "display_offset_ns", PrintInt(d.offset)),
      d.order >= 0, "timeline_order", PrintInt(d.order))
  }

  function PluginNode(s: Source): Node {
    Element("plugin", Optional(map["ID" := s.plugin], s.manifest != "", "manifest_id", s.manifest),
            AsNodes(Sections(s.config, 0)))
  }

  function StreamNode(s: Source): Node {
    var dataset := DatasetAttrs(s.dataset);
    Element("streamInfo", Optional(map["id" := s.id], s.name != "", "source_name", s.name),
            [PluginNode(s)] + if dataset == map[] then [] else [Element("dataset", dataset, [])])
  }

  function StreamNodes(sources: seq<Source>): seq<Node> {
    if sources == [] then [] else [StreamNode(sources[0])] + StreamNodes(sources[1..])
  }

  predicate HasBlock(root: Node)
    requires root.Element?
  {
    Elements(root.children, BLOCK) != []
  }

  function Written(root: Node, sources: seq<Source>): Node
    requires root.Element?
  {
    Element(root.tag, root.attrs["pj4_version" := VERSION], root.children + [Element(BLOCK, map[], StreamNodes(sources))])
  }

  /** Why the writer refuses, if it does. */
  function Refusal(root: Node, sources: seq<Source>): Option<Problem>
    requires root.Element?
  {
    if sources == [] then None else if HasBlock(root) then Some(TwoBlocks) else FirstProblem(sources, 0)
  }

  class Document {
    var root: Node

    constructor (r: Node)
      ensures root == r
    {
      root := r;
    }

    method Check(sources: seq<Source>) returns (problem: Option<Problem>)
      ensures problem == FirstProblem(sources, 0)
    {
      var seen: set<string> := {};
      for k := 0 to |sources|
        invariant seen == Ids(sources[..k]) && FirstProblem(sources, k) == FirstProblem(sources, 0)
      {
        problem := RecordProblem(sources[k], seen);
        if problem.Some? {
          return;
        }
        seen := AddId(sources, k, seen);
      }
      return None;
    }

    static method AddId(sources: seq<Source>, k: nat, seen: set<string>) returns (next: set<string>)
      requires k < |sources| && seen == Ids(sources[..k])
      ensures next == Ids(sources[..k + 1])
    {
      next := seen + {sources[k].id};
      assert sources[..k + 1] == sources[..k] + [sources[k]];
      forall id | id in next ensures id in Ids(sources[..k + 1]) {
        if id != sources[k].id {
          var i :| 0 <= i < k && sources[..k][i].id == id;
          assert sources[..k + 1][i].id == id;
        } else {
          assert sources[..k + 1][k].id == id;
        }
      }
    }

    static method BuildStream(s: Source) returns (node: Node)
      ensures node == StreamNode(s)
    {
      var attrs := map["id" := s.id];
      if s.name != "" {
        attrs := attrs["source_name" := s.name];
      }
      var plugin := map["ID" := s.plugin];
      if s.manifest != "" {
        plugin := plugin["manifest_id" := s.manifest];
      }
      var payload := AppendJsonAsCdata(s.config);
      var children := [Element("plugin", plugin, payload)];
      var dataset := DatasetAttrs(s.dataset);
      if dataset != map[] {
        children := children + [Element("dataset", dataset, [])];
      }
      node := Element("streamInfo", attrs, children);
    }

    static method BuildStreams(sources: seq<Source>) returns (streams: seq<Node>)
      ensures streams == StreamNodes(sources)
    {
      streams := [];
      assert sources[0..] == sources;
      for k := 0 to |sources|
        invariant streams + StreamNodes(sources[k..]) == StreamNodes(sources)
      {
        var node := BuildStream(sources[k]);
        assert sources[k..][1..] == sources[k + 1..];
        streams := streams + [node];
      }
    }

    /**
     A refused write leaves the document as it was. An accepted one puts one block behind the root's children and stamps
     the schema version; everything else of the root stays.
     */
    method WriteStreamingSources(sources: seq<Source>) returns (problem: Option<Problem>)
      requires root.Element?
      modifies this
      ensures problem == Refusal(old(root), sources)
      ensures root == if problem.None? && sources != [] then Written(old(root), sources) else old(root)
      ensures problem.None? && sources != [] ==>
        && root.Element? && root.tag == old(root).tag
        && |root.children| == |old(root).children| + 1
        && root.children[..|old(root).children|] == old(root).children
        && root.children[|old(root).children|].Element? && root.children[|old(root).children|].tag == BLOCK
        && root.attrs.Keys == old(root).attrs.Keys + {"pj4_version"} && root.attrs["pj4_version"] == VERSION
        && forall a :: a in old(root).attrs && a != "pj4_version" ==> root.attrs[a] == old(root).attrs[a]
    {
      if sources == [] {
        return None;
      }
      if HasBlock(root) {
        return Some(TwoBlocks);
      }
      problem := Check(sources);
      if problem.Some? {
        return;
      }
      var streams := BuildStreams(sources);
      root := Element(root.tag, root.attrs["pj4_version" := VERSION],
                      root.children + [Element(BLOCK, map[], streams)]);
    }
  }

  /** The writer accepts a list exactly when every record is valid under its own id and no block is there yet. */
  lemma WriterAcceptsExactlyValid(root: Node, sources: seq<Source>)
    requires root.Element?
    ensures Refusal(root, sources).None? <==> sources == [] || (!HasBlock(root) && Valid(sources))
  {
    assert sources[..0] == [];
    ProblemFreeFrom(sources, 0);
  }

  // ---------- Reading ----------

  datatype Read = Accepted(sources: seq<Source>) | Rejected(problem: Problem)

  function ReadDataset(d: Node, schema: int): Dataset
    requires d.Element?
  {
    var index := ParseInt(Attribute(d.attrs, "source_index", "-1"), -0x8000_0000, 0x7FFF_FFFF).GetOr(-1);
    var offset := if "display_offset_ns" in d.attrs
                  then ParseInt(d.attrs["display_offset_ns"], -0x8000_0000_0000_0000, 0x7FFF_FFFF_FFFF_FFFF) else None;
    var order := ParseInt(Attribute(d.attrs, "timeline_order", "-1"), -0x8000_0000, 0x7FFF_FFFF).GetOr(-1);
    ParsedInRange(Attribute(d.attrs, "source_index", "-1"), -0x8000_0000, 0x7FFF_FFFF);
    ParsedInRange(Attribute(d.attrs, "timeline_order", "-1"), -0x8000_0000, 0x7FFF_FFFF);
    Dataset(Attribute(d.attrs, "source_name", ""), index, offset.GetOr(0), offset.Some?,
            offset.Some? && schema < 4, order)
  }

  lemma ParsedInRange(s: string, low: int, high: int)
    ensures ParseInt(s, low, high).Some? ==> low <= ParseInt(s, low, high).value <= high
  {
  }

  const NOPLUGIN := Element("plugin", map[], [])

  function ReadStream(info: Node): Source
    requires info.Element?
  {
    var plugins := Elements(info.children, "plugin");
    var plugin := if plugins == [] then NOPLUGIN else plugins[0];
    FirstIsElement(info.children, "plugin");
    FirstIsElement(info.children, "dataset");
    var datasets := Elements(info.children, "dataset");
    Source(Attribute(info.attrs, "id", ""), Attribute(info.attrs, "source_name", ""),
           Attribute(plugin.attrs, "ID", ""), Attribute(plugin.attrs, "manifest_id", ""), TextOf(plugin.children),
           if datasets == [] then NODATASET else ReadDataset(datasets[0], 5))
  }

  lemma FirstIsElement(children: seq<Node>, tag: string)
    ensures Elements(children, tag) != [] ==> Elements(children, tag)[0].Element?
  {
    if Elements(children, tag) != [] { ElementsAreElements(children, tag, 0); }
  }

  function ReadStreams(infos: seq<Node>, sources: seq<Source>): Read
    requires forall k :: 0 <= k < |infos| ==> infos[k].Element?
    decreases |infos|
  {
    if infos == [] then Accepted(sources)
    else
      var s := ReadStream(infos[0]);
      var p := RecordProblem(s, Ids(sources));
      if p.Some? then Rejected(p.value)
      else if |Elements(infos[0].children, "plugin")| > 1 then Rejected(TwoPlugins)
      else ReadStreams(infos[1..], sources + [s])
  }

  function Extracted(root: Node): Read
    requires root.Element?
  {
    var blocks := Elements(root.children, BLOCK);
    if |blocks| > 1 then Rejected(TwoBlocks)
    else if blocks == [] then Accepted([])
    else
      FirstIsElement(root.children, BLOCK);
      AllAreElements(blocks[0].children, "streamInfo");
      ReadStreams(Elements(blocks[0].children, "streamInfo"), [])
  }

  lemma AllAreElements(children: seq<Node>, tag: string)
    ensures forall k :: 0 <= k < |Elements(children, tag)| ==> Elements(children, tag)[k].Element?
  {
    forall k | 0 <= k < |Elements(children, tag)| ensures Elements(children, tag)[k].Element? {
      ElementsAreElements(children, tag, k);
    }
  }

  method ExtractStreamingSources(root: Node) returns (r: Read)
    requires root.Element?
    ensures r == Extracted(root)
  {
    var blocks := Elements(root.children, BLOCK);
    if |blocks| > 1 {
      return Rejected(TwoBlocks);
    }
    if blocks == [] {
      return Accepted([]);
    }
    FirstIsElement(root.children, BLOCK);
    AllAreElements(blocks[0].children, "streamInfo");
    var infos := Elements(blocks[0].children, "streamInfo");
    var sources: seq<Source> := [];
    var seen: set<string> := {};
    assert infos[0..] == infos;
    for k := 0 to |infos|
      invariant seen == Ids(sources)
      invariant ReadStreams(infos[k..], sources) == ReadStreams(infos, [])
    {
      var s := ReadStream(infos[k]);
      var p := RecordProblem(s, seen);
      if p.Some? {
        return Rejected(p.value);
      }
      if |Elements(infos[k].children, "plugin")| > 1 {
        return Rejected(TwoPlugins);
      }
      assert infos[k..][1..] == infos[k + 1..];
      assert (sources + [s])[..|sources|] == sources && (sources + [s])[..|sources| + 1] == sources + [s];
      seen := Document.AddId(sources + [s], |sources|, seen);
      sources := sources + [s];
    }
    return Accepted(sources);
  }

  // ---------- Round trip ----------

  /** What a record says once absent offsets, indices and orders are written one way. */
  function NormalDataset(d: Dataset): Dataset {
    Dataset(d.name, if d.index < 0 then -1 else d.index, if d.hasOffset then d.offset else 0, d.hasOffset, false,
            if d.order < 0 then -1 else d.order)
  }

  function Normal(s: Source): Source {
    s.(dataset := NormalDataset(s.dataset))
  }

  lemma ReadsWrittenDataset(d: Dataset)
    ensures ReadDataset(Element("dataset", DatasetAttrs(d), []), 5) == NormalDataset(d)
  {
    ParsePrinted(-1, -0x8000_0000, 0x7FFF_FFFF);
    assert PrintInt(-1) == "-1";
    ParsePrinted(d.index, -0x8000_0000, 0x7FFF_FFFF);
    ParsePrinted(d.order, -0x8000_0000, 0x7FFF_FFFF);
    ParsePrinted(d.offset, -0x8000_0000_0000_0000, 0x7FFF_FFFF_FFFF_FFFF);
  }

  /** A dataset element is left out exactly when it would say nothing. */
  lemma OmittedDatasetIsDefault(d: Dataset)
    ensures DatasetAttrs(d) == map[] <==> NormalDataset(d) == NODATASET
  {
    var attrs := DatasetAttrs(d);
    if d.name != "" { assert "source_name" in attrs; }
    if d.index >= 0 { assert "source_index" in attrs; }
    if d.hasOffset { assert "display_offset_ns" in attrs; }
    if d.order >= 0 { assert "timeline_order" in attrs; }
  }

  lemma PayloadText(s: Source)
    ensures TextOf(PluginNode(s).children) == s.config
  {
    TextOfSections(Sections(s.config, 0));
    SectionsJoin(s.config, 0);
    assert s.config[0..] == s.config;
  }

  lemma StreamChildren(s: Source)
    ensures Elements(StreamNode(s).children, "plugin") == [PluginNode(s)]
    ensures Elements(StreamNode(s).children, "dataset")
         == if DatasetAttrs(s.dataset) == map[] then [] else [Element("dataset", DatasetAttrs(s.dataset), [])]
  {
    var dataset := Element("dataset", DatasetAttrs(s.dataset), []);
    var rest := if DatasetAttrs(s.dataset) == map[] then [] else [dataset];
    ElementsAppend([PluginNode(s)], rest, "plugin");
    ElementsAppend([PluginNode(s)], rest, "dataset");
    ElementsOfOne(PluginNode(s), "plugin");
    ElementsOfOne(PluginNode(s), "dataset");
    ElementsOfOne(dataset, "plugin");
    ElementsOfOne(dataset, "dataset");
  }

  lemma ReadsWrittenStream(s: Source)
    ensures ReadStream(StreamNode(s)) == Normal(s)
  {
    StreamChildren(s);
    PayloadText(s);
    OmittedDatasetIsDefault(s.dataset);
    ReadsWrittenDataset(s.dataset);
  }

  function Normals(sources: seq<Source>): (r: seq<Source>)
    ensures |r| == |sources| && forall k :: 0 <= k < |sources| ==> r[k] == Normal(sources[k])
  {
    if sources == [] then [] else [Normal(sources[0])] + Normals(sources[1..])
  }

  lemma {:induction false} StreamNodesAreElements(sources: seq<Source>)
    ensures Elements(StreamNodes(sources), "streamInfo") == StreamNodes(sources)
    ensures |StreamNodes(sources)| == |sources|
    ensures forall k :: 0 <= k < |sources| ==> StreamNodes(sources)[k] == StreamNode(sources[k])
  {
    if sources != [] { StreamNodesAreElements(sources[1..]); }
  }

  /** One written record read after those before it. */
  lemma ReadsNextStream(s: Source, before: seq<Source>)
    requires Valid(before + [s])
    ensures RecordProblem(ReadStream(StreamNode(s)), Ids(Normals(before))).None?
    ensures |Elements(StreamNode(s).children, "plugin")| == 1
    ensures Normals(before) + [ReadStream(StreamNode(s))] == Normals(before + [s])
  {
    ReadsWrittenStream(s);
    StreamChildren(s);
    assert (before + [s])[|before|] == s && Complete(s);
    forall id | id in Ids(Normals(before)) ensures id != s.id {
      var i :| 0 <= i < |before| && Normals(before)[i].id == id;
      assert (before + [s])[i] == before[i];
    }
  }

  lemma {:induction false} ReadsWrittenStreams(sources: seq<Source>, before: seq<Source>)
    requires Valid(before + sources)
    requires forall k :: 0 <= k < |StreamNodes(sources)| ==> StreamNodes(sources)[k].Element?
    ensures ReadStreams(StreamNodes(sources), Normals(before)) == Accepted(Normals(before + sources))
    decreases |sources|
  {
    if sources == [] {
      assert before + sources == before;
    } else {
      assert before + sources == (before + [sources[0]]) + sources[1..];
      assert Valid(before + [sources[0]]) by { ValidPrefix(before + [sources[0]], sources[1..]); }
      ReadsNextStream(sources[0], before);
      assert StreamNodes(sources)[1..] == StreamNodes(sources[1..]);
      ReadsWrittenStreams(sources[1..], before + [sources[0]]);
    }
  }

  lemma ValidPrefix(a: seq<Source>, b: seq<Source>)
    requires Valid(a + b)
    ensures Valid(a)
  {
    forall i | 0 <= i < |a| ensures Complete(a[i]) { assert (a + b)[i] == a[i]; }
    forall i, j | 0 <= i < j < |a| ensures a[i].id != a[j].id { assert (a + b)[i] == a[i] && (a + b)[j] == a[j]; }
  }

  lemma WrittenBlock(root: Node, sources: seq<Source>)
    requires root.Element? && !HasBlock(root)
    ensures Elements(Written(root, sources).children, BLOCK) == [Element(BLOCK, map[], StreamNodes(sources))]
  {
    var block := Element(BLOCK, map[], StreamNodes(sources));
    ElementsAppend(root.children, [block], BLOCK);
    ElementsOfOne(block, BLOCK);
  }

  /** Reading after an accepted write gives the list back, up to how absent timeline state is spelled. */
  lemma WriteThenExtract(root: Node, sources: seq<Source>)
    requires root.Element? && sources != [] && Refusal(root, sources).None?
    ensures Extracted(Written(root, sources)) == Accepted(Normals(sources))
  {
    WriterAcceptsExactlyValid(root, sources);
    WrittenBlock(root, sources);
    StreamNodesAreElements(sources);
    assert [] + sources == sources;
    ReadsWrittenStreams(sources, []);
  }

  /** Neither side accepts what the other refuses: what the reader accepts could be written. */
  lemma ExtractedIsValid(root: Node)
    requires root.Element? && Extracted(root).Accepted?
    ensures Valid(Extracted(root).sources)
  {
    var blocks := Elements(root.children, BLOCK);
    if blocks != [] {
      FirstIsElement(root.children, BLOCK);
      AllAreElements(blocks[0].children, "streamInfo");
      ReadStreamsValid(Elements(blocks[0].children, "streamInfo"), []);
    }
  }

  lemma {:induction false} ReadStreamsValid(infos: seq<Node>, sources: seq<Source>)
    requires (forall k :: 0 <= k < |infos| ==> infos[k].Element?) && Valid(sources)
    ensures ReadStreams(infos, sources).Accepted? ==> Valid(ReadStreams(infos, sources).sources)
    decreases |infos|
  {
    if infos != [] {
      var s := ReadStream(infos[0]);
      if RecordProblem(s, Ids(sources)).None? {
        forall i | 0 <= i < |sources| ensures sources[i].id != s.id { assert sources[i].id in Ids(sources); }
        ReadStreamsValid(infos[1..], sources + [s]);
      }
    }
  }
}
