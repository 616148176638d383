/**
 Browser uploads: the identity an upload is known by, and staging its bytes in one write or chunk by chunk on the
 event loop. Names are their UTF-8 bytes. The session token's format and the digest are parameters; the file system
 answers each write, flush and reopening.
 */
module UploadStore {
  import opened Basics
  import Base64
  import opened XmlText

  type Bytes = seq<Base64.Byte>

  // ---------- Percent encoding ----------

  /** The characters section 2.3 of RFC 3986 calls unreserved. */
  predicate Unreserved(b: Base64.Byte) {
    || 'A' as int <= b <= 'Z' as int || 'a' as int <= b <= 'z' as int || '0' as int <= b <= '9' as int
    || b == '-' as int || b == '.' as int || b == '_' as int || b == '~' as int
  }

  function HexDigit(v: nat): char
    requires v < 16
  {
    if v < 10 then ('0' as int + v) as char else ('A' as int + v - 10) as char
  }

  function HexValue(c: char): Option<nat> {
    if '0' <= c <= '9' then Some(c as int - '0' as int)
    else if 'A' <= c <= 'F' then Some(c as int - 'A' as int + 10)
    else if 'a' <= c <= 'f' then Some(c as int - 'a' as int + 10) else None
  }

  function EncodeByte(b: Base64.Byte): string {
    if Unreserved(b) then [b as char] else ['%', HexDigit(b / 16), HexDigit(b % 16)]
  }

  /** Percent-encoding, section 2.1 of RFC 3986, with upper-case digits. */
  function PercentEncode(name: Bytes): string {
    if name == [] then "" else EncodeByte(name[0]) + PercentEncode(name[1..])
  }

  /** A triplet where the text has one at its start. */
  function Triplet(s: string): Option<Base64.Byte> {
    if |s| < 3 || s[0] != '%' then None
    else
      var hi, lo := HexValue(s[1]), HexValue(s[2]);
      if hi.None? || lo.None? then None else Some(hi.value * 16 + lo.value)
  }

  /** Undoes triplets and takes every other character for its Latin-1 byte; None outside Latin-1. */
  function PercentDecode(s: string): Option<Bytes> {
    if s == "" then Some([])
    else
      var t := Triplet(s);
      var rest := PercentDecode(if t.Some? then s[3..] else s[1..]);
      if rest.None? || (t.None? && s[0] as int >= 256) then None
      else Some([if t.Some? then t.value else s[0] as int] + rest.value)
  }

  lemma ByteDecodes(b: Base64.Byte, rest: string)
    ensures PercentDecode(rest).Some? ==> PercentDecode(EncodeByte(b) + rest) == Some([b] + PercentDecode(rest).value)
    ensures '/' !in EncodeByte(b)
  {
    var s := EncodeByte(b) + rest;
    if Unreserved(b) {
      assert s[0] == b as char && s[0] != '%' && s[1..] == rest;
    } else {
      assert HexValue(HexDigit(b / 16)) == Some(b / 16) && HexValue(HexDigit(b % 16)) == Some(b % 16);
      assert s[0] == '%' && s[1] == HexDigit(b / 16) && s[2] == HexDigit(b % 16) && s[3..] == rest;
      assert b / 16 * 16 + b % 16 == b;
    }
  }

  lemma {:induction false} DecodeEncode(name: Bytes)
    ensures PercentDecode(PercentEncode(name)) == Some(name) && '/' !in PercentEncode(name)
    ensures PercentEncode(name) == "" <==> name == []
  {
    if name != [] {
      DecodeEncode(name[1..]);
      ByteDecodes(name[0], PercentEncode(name[1..]));
      assert name == [name[0]] + name[1..];
    }
  }

  // ---------- Identities ----------

  const SCHEME := "pj-upload://"

  /** The parts of a text between separators. */
  function Split(s: string): (parts: seq<string>)
    ensures parts != []
  {
    if s == "" then [""]
    else
      var rest := Split(s[1..]);
      if s[0] == '/' then [""] + rest else [[s[0]] + rest[0]] + rest[1..]
  }

  function Join(parts: seq<string>): string
    requires parts != []
  {
    if |parts| == 1 then parts[0] else parts[0] + "/" + Join(parts[1..])
  }

  lemma {:induction false} SplitOne(part: string)
    requires '/' !in part
    ensures Split(part) == [part]
  {
    if part != "" {
      SplitOne(part[1..]);
      assert [part[1..]][1..] == [] && [part[0]] + part[1..] == part;
    }
  }

  lemma {:induction false} SplitFirst(part: string, rest: string)
    requires '/' !in part
    ensures Split(part + "/" + rest) == [part] + Split(rest)
  {
    var s := part + "/" + rest;
    if part == "" {
      assert s[0] == '/' && s[1..] == rest;
    } else {
      SplitFirst(part[1..], rest);
      assert s[0] == part[0] && s[1..] == part[1..] + "/" + rest;
      assert ([part[1..]] + Split(rest))[1..] == Split(rest) && [part[0]] + part[1..] == part;
    }
  }

  lemma {:induction false} JoinSplit(s: string)
    ensures Join(Split(s)) == s
  {
    if s != "" {
      JoinSplit(s[1..]);
      var rest := Split(s[1..]);
      if s[0] == '/' {
        assert ([""] + rest)[1..] == rest;
      } else if |rest| > 1 {
        assert ([[s[0]] + rest[0]] + rest[1..])[1..] == rest[1..];
      }
    }
  }

  /** The token test accepts canonical, non-null session ids, which hold no separator; the name test is valid UTF-8. */
  datatype Formats = Formats(isToken: string -> bool, isText: Bytes -> bool)

  ghost predicate Faithful(f: Formats) {
    forall t {:trigger f.isToken(t)} :: f.isToken(t) ==> t != "" && '/' !in t
  }

  const MAXID := 0xFFFF_FFFF_FFFF_FFFF

  function Print(token: string, id: nat, name: Bytes): string {
    SCHEME + (token + "/" + (PrintInt(id) + "/" + PercentEncode(name)))
  }

  /** displayNameForIdentity: the upload's name, or None for anything that is no upload identity. */
  function DisplayName(f: Formats, identity: string): Option<Bytes> {
    if !(SCHEME <= identity) then None
    else
      var parts := Split(identity[|SCHEME|..]);
      if |parts| != 3 || parts[0] == "" || parts[2] == "" then None
      else
        var id := ParseInt(parts[1], 0, MAXID);
        if !f.isToken(parts[0]) || id.None? || id.value == 0 then None
        else
          var name := PercentDecode(parts[2]);
          if name.None? || name.value == [] || !f.isText(name.value) || PercentEncode(name.value) != parts[2] then None
          else name
  }

  lemma {:induction false} DigitsHoldNoSeparator(n: nat)
    ensures '/' !in PrintInt(n)
  {
    PrintNatDigits(n);
  }

  /** What is printed is read back, for every non-empty name. */
  lemma PrintedNameReadsBack(f: Formats, token: string, id: nat, name: Bytes)
    requires Faithful(f) && f.isToken(token) && 0 < id <= MAXID && name != [] && f.isText(name)
    ensures DisplayName(f, Print(token, id, name)) == Some(name)
  {
    var encoded := PercentEncode(name);
    var tail := PrintInt(id) + "/" + encoded;
    DecodeEncode(name);
    DigitsHoldNoSeparator(id);
    SplitFirst(token, tail);
    SplitFirst(PrintInt(id), encoded);
    SplitOne(encoded);
    ParsePrinted(id, 0, MAXID);
    var identity := Print(token, id, name);
    assert identity[|SCHEME|..] == token + "/" + tail;
    assert Split(token + "/" + tail) == [token, PrintInt(id), encoded];
  }

  /** Only the spelling of the number is free: an accepted identity is otherwise the printed form of what it says. */
  lemma AcceptedIsPrinted(f: Formats, identity: string)
    requires DisplayName(f, identity).Some?
    ensures var parts := Split(identity[|SCHEME|..]);
      && |parts| == 3 && ParseInt(parts[1], 0, MAXID).Some?
      && identity == SCHEME + (parts[0] + "/" + (parts[1] + "/" + PercentEncode(DisplayName(f, identity).value)))
      && (parts[1] == PrintInt(ParseInt(parts[1], 0, MAXID).value) ==>
            identity == Print(parts[0], ParseInt(parts[1], 0, MAXID).value, DisplayName(f, identity).value))
  {
    var s := identity[|SCHEME|..];
    var parts := Split(s);
    JoinSplit(s);
    assert Join(parts) == parts[0] + "/" + Join(parts[1..]);
    assert Join(parts[1..]) == parts[1] + "/" + Join(parts[1..][1..]);
    assert parts[1..][1..] == [parts[2]] && Join([parts[2]]) == parts[2];
    assert identity == SCHEME + s;
    assert (parts[0] + "/") + ((parts[1] + "/") + parts[2]) == parts[0] + "/" + (parts[1] + "/" + parts[2]);
  }

  /** Two uploads never share an identity: it determines both the number and the name. */
  lemma IdentityDeterminesUpload(f: Formats, token: string, id: nat, name: Bytes, other: nat, second: Bytes)
    requires Faithful(f) && f.isToken(token) && 0 < id <= MAXID && 0 < other <= MAXID
    requires Print(token, id, name) == Print(token, other, second)
    ensures id == other && name == second
  {
    var a, b := PrintInt(id) + "/" + PercentEncode(name), PrintInt(other) + "/" + PercentEncode(second);
    assert Print(token, id, name)[|SCHEME|..] == token + "/" + a;
    assert Print(token, other, second)[|SCHEME|..] == token + "/" + b;
    DigitsHoldNoSeparator(id);
    DigitsHoldNoSeparator(other);
    DecodeEncode(name);
    DecodeEncode(second);
    SplitFirst(token, a);
    SplitFirst(token, b);
    SplitFirst(PrintInt(id), PercentEncode(name));
    SplitFirst(PrintInt(other), PercentEncode(second));
    SplitOne(PercentEncode(name));
    SplitOne(PercentEncode(second));
    var p, q := Split(token + "/" + a), Split(token + "/" + b);
    assert p[1] == PrintInt(id) && q[1] == PrintInt(other) && p[2] == PercentEncode(name) && q[2] == PercentEncode(second);
    ParsePrinted(id, 0, MAXID);
    ParsePrinted(other, 0, MAXID);
  }

  // ---------- Staging ----------

  const CHUNK := 16 * 1024 * 1024

  /** What the file system answers: bytes taken by the write at an offset, the flush, the size seen on reopening. */
  datatype Disk = Disk(writes: (nat, nat) -> int, flushes: bool, reopens: bool)

  datatype Outcome = Staged(file: Bytes, digested: Bytes) | Failed

  /** The digest is that of the bytes fed to it, whole or in pieces; staging keeps those bytes in its place. */
  function OneShot(bytes: Bytes, disk: Disk): Outcome {
    if disk.writes(0, |bytes|) != |bytes| || !disk.flushes || !disk.reopens then Failed else Staged(bytes, bytes)
  }

  /** The disk takes every chunk of an upload of `total` bytes whole, from `offset` on. */
  predicate TakesChunks(disk: Disk, offset: nat, total: nat)
    decreases total - offset
  {
    offset >= total
    || (var span := if total - offset < CHUNK then total - offset else CHUNK;
        disk.writes(offset, span) == span && TakesChunks(disk, offset + span, total))
  }

  class StageJob {
    var source: Bytes
    var file: Bytes
    var digested: Bytes
    var offset: nat
    const total: nat
    var results: seq<Outcome>        // completions posted to the event loop
    var armed: bool                  // another step is posted

    constructor (bytes: Bytes)
      ensures source == bytes && total == |bytes| && offset == 0 && file == [] && digested == [] && results == [] && armed
    {
      source, total, file, digested, offset, results, armed := bytes, |bytes|, [], [], 0, [], true;
    }

    /** Between steps: what is written and digested is the part of the upload before the offset. */
    ghost predicate Running(bytes: Bytes)
      reads this
    {
      && armed && source == bytes && total == |bytes| && offset <= total && results == []
      && file == bytes[..offset] && digested == bytes[..offset]
    }

    method Finish(result: Outcome)
      modifies this
      ensures source == [] && results == old(results) + [result] && !armed
    {
      source := [];
      results := results + [result];
      armed := false;
    }

    /**
     One step: a chunk at most, then either the next step or the end. It ends Failed on a short write, a failed flush or
     a file that does not reopen, and Staged with exactly the upload otherwise.
     */
    method Step(disk: Disk, ghost bytes: Bytes)
      requires Running(bytes)
      modifies this
      ensures armed ==> Running(bytes) && offset > old(offset)
      ensures !armed ==> source == [] && |results| == 1
      ensures var rest := |bytes| - old(offset);
        var span := if rest < CHUNK then rest else CHUNK;
        if span > 0 && disk.writes(old(offset), span) != span then results == [Failed]
        else if rest > CHUNK then armed && offset == old(offset) + CHUNK
        else results == [if disk.flushes && disk.reopens then Staged(bytes, bytes) else Failed]
    {
      var remaining := total - offset;
      var span := if remaining < CHUNK then remaining else CHUNK;
      var written := if span > 0 then disk.writes(offset, span) else 0;
      if written != span {
        Finish(Failed);
        return;
      }
      ghost var before := offset;
      if span > 0 {
        file := file + source[offset..offset + span];
        digested := digested + source[offset..offset + span];
      }
      offset := offset + span;
      assert bytes[..offset] == bytes[..before] + bytes[before..offset];
      if offset < total {
        return;
      }
      assert bytes[..offset] == bytes;
      if !disk.flushes || !disk.reopens {
        Finish(Failed);
        return;
      }
      Finish(Staged(file, digested));
    }

    /**
     The event loop runs the job's steps: they end, and the completion is called exactly once, with the upload exactly
     when every chunk was written, the flush succeeded and the file reopened.
     */
    method RunSteps(disk: Disk, ghost bytes: Bytes)
      requires Running(bytes)
      modifies this
      ensures !armed && source == [] && |results| == 1
      ensures results == [if TakesChunks(disk, old(offset), |bytes|) && disk.flushes && disk.reopens
                          then Staged(bytes, bytes) else Failed]
    {
      while armed
        invariant armed ==> Running(bytes)
        invariant armed ==> (TakesChunks(disk, offset, |bytes|) <==> TakesChunks(disk, old(offset), |bytes|))
        invariant !armed ==> source == []
        invariant !armed ==> results == [if TakesChunks(disk, old(offset), |bytes|) && disk.flushes && disk.reopens
                                         then Staged(bytes, bytes) else Failed]
        decreases armed, total - offset
      {
        Step(disk, bytes);
      }
    }
  }

  lemma {:induction false} CompleteWritesTakeChunks(disk: Disk, offset: nat, total: nat)
    requires forall o, n :: disk.writes(o, n) == n
    ensures TakesChunks(disk, offset, total)
    decreases total - offset
  {
    if offset < total {
      CompleteWritesTakeChunks(disk, offset + if total - offset < CHUNK then total - offset else CHUNK, total);
    }
  }

  /** Staging chunk by chunk: with every write complete it ends as the one-shot form does, for every length. */
  method StageAsync(bytes: Bytes, opens: bool, disk: Disk) returns (results: seq<Outcome>)
    ensures results == [if opens && TakesChunks(disk, 0, |bytes|) && disk.flushes && disk.reopens
                        then Staged(bytes, bytes) else Failed]
    ensures opens && disk.flushes && disk.reopens && (forall o, n :: disk.writes(o, n) == n) ==>
      results == [OneShot(bytes, disk)] && results[0] == Staged(bytes, bytes)
  {
    var job := new StageJob(bytes);
    if !opens {
      job.Finish(Failed);
      return job.results;
    }
    job.RunSteps(disk, bytes);
    if forall o, n :: disk.writes(o, n) == n { CompleteWritesTakeChunks(disk, 0, |bytes|); }
    return job.results;
  }

  // ---------- File names ----------

  predicate Plain(c: char) {
    'A' <= c <= 'Z' || 'a' <= c <= 'z' || '0' <= c <= '9' || c == '.' || c == '_' || c == '-'
  }

  /** Every run of other characters becomes one underscore. */
  function PlainOnly(s: string, inRun: bool): (r: string)
    ensures forall c :: c in r ==> Plain(c)
  {
    if s == "" then ""
    else if Plain(s[0]) then [s[0]] + PlainOnly(s[1..], false)
    else (if inRun then "" else "_") + PlainOnly(s[1..], true)
  }

  function WithoutLeadingDots(s: string): (r: string)
    ensures r == "" || r[0] != '.'
    ensures forall c :: c in r ==> c in s
  {
    if s != "" && s[0] == '.' then WithoutLeadingDots(s[1..]) else s
  }

  /** The staged file's name stays in its directory: plain characters, not empty, not hidden, not a dot name. */
  function SanitizedBasename(browserName: string): (r: string)
    ensures 0 < |r| <= 240 && r[0] != '.' && forall c :: c in r ==> Plain(c)
  {
    var name := WithoutLeadingDots(PlainOnly(AfterSeparators(browserName), false));
    if name == "" then "upload.bin" else if |name| > 240 then name[..240] else name
  }

  lemma {:induction false} PlainIsKept(s: string, inRun: bool)
    requires forall c :: c in s ==> Plain(c)
    ensures PlainOnly(s, inRun) == s
  {
    if s != "" {
      assert s[0] in s && s == [s[0]] + s[1..];
      forall c | c in s[1..] ensures c in s {}
      PlainIsKept(s[1..], false);
    }
  }

  /** A file name of plain characters that is not hidden is staged under its own name, whatever path it came with. */
  lemma PlainNameIsKept(folder: string, name: string)
    requires name != "" && name[0] != '.' && |name| <= 240 && forall c :: c in name ==> Plain(c)
    requires folder == "" || folder[|folder| - 1] == '/' || folder[|folder| - 1] == '\\'
    ensures SanitizedBasename(folder + name) == name
  {
    assert '/' !in name && '\\' !in name;
    LastPartRemains(folder, name);
    PlainIsKept(name, false);
  }
}
