/** Base64 text as section 4 of RFC 4648 defines it: the standard alphabet, padded, nothing else accepted. */
module Base64 {
  import opened Basics

  type Byte = x: nat | x < 256

  function CharOf(v: nat): char
    requires v < 64
  {
    if v < 26 then ('A' as int + v) as char
    else if v < 52 then ('a' as int + (v - 26)) as char
    else if v < 62 then ('0' as int + (v - 52)) as char
    else if v == 62 then '+' else '/'
  }

  function ValueOf(c: char): Option<nat> {
    if 'A' <= c <= 'Z' then Some(c as int - 'A' as int)
    else if 'a' <= c <= 'z' then Some(c as int - 'a' as int + 26)
    else if '0' <= c <= '9' then Some(c as int - '0' as int + 52)
    else if c == '+' then Some(62) else if c == '/' then Some(63) else None
  }

  lemma ValueOfCharOf(v: nat)
    requires v < 64
    ensures ValueOf(CharOf(v)) == Some(v) && CharOf(v) != '='
  {
  }

  /** The four six-bit groups of three bytes. */
  function Quad(a: Byte, b: Byte, c: Byte): seq<char> {
    [CharOf(a / 4), CharOf(a % 4 * 16 + b / 16), CharOf(b % 16 * 4 + c / 64), CharOf(c % 64)]
  }

  function Encode(bytes: seq<Byte>): string {
    if |bytes| == 0 then ""
    else if |bytes| == 1 then Quad(bytes[0], 0, 0)[..2] + "=="
    else if |bytes| == 2 then Quad(bytes[0], bytes[1], 0)[..3] + "="
    else Quad(bytes[0], bytes[1], bytes[2]) + Encode(bytes[3..])
  }

  function First(p: nat, q: nat): Byte
    requires p < 64 && q < 64
  {
    p * 4 + q / 16
  }

  function Second(q: nat, r: nat): Byte
    requires q < 64 && r < 64
  {
    q % 16 * 16 + r / 4
  }

  function Third(r: nat, t: nat): Byte
    requires r < 64 && t < 64
  {
    r % 4 * 64 + t
  }

  lemma ValueIsSmall(c: char)
    ensures ValueOf(c).Some? ==> ValueOf(c).value < 64
  {
  }

  /** The bytes of one group of four characters; padding is for the last group only. */
  function DecodeQuad(s: string, last: bool): Option<seq<Byte>>
    requires |s| == 4
  {
    ValueIsSmall(s[0]);
    ValueIsSmall(s[1]);
    ValueIsSmall(s[2]);
    ValueIsSmall(s[3]);
    var p, q, r, t := ValueOf(s[0]), ValueOf(s[1]), ValueOf(s[2]), ValueOf(s[3]);
    if p.None? || q.None? then None
    else if last && s[2] == '=' && s[3] == '=' then Some([First(p.value, q.value)])
    else if r.None? then None
    else if last && s[3] == '=' then Some([First(p.value, q.value), Second(q.value, r.value)])
    else if t.None? then None
    else Some([First(p.value, q.value), Second(q.value, r.value), Third(r.value, t.value)])
  }

  function Decode(s: string): Option<seq<Byte>> {
    if s == "" then Some([])
    else if |s| < 4 then None
    else
      var head := DecodeQuad(s[..4], |s| == 4);
      var tail := Decode(s[4..]);
      if head.None? || tail.None? then None else Some(head.value + tail.value)
  }

  lemma Regroup(a: Byte, b: Byte, c: Byte)
    ensures a % 4 * 16 + b / 16 < 64 && b % 16 * 4 + c / 64 < 64
    ensures First(a / 4, a % 4 * 16 + b / 16) == a
    ensures Second(a % 4 * 16 + b / 16, b % 16 * 4 + c / 64) == b
    ensures Third(b % 16 * 4 + c / 64, c % 64) == c
  {
    assert (a % 4 * 16 + b / 16) / 16 == a % 4;
    assert (a % 4 * 16 + b / 16) % 16 == b / 16;
    assert (b % 16 * 4 + c / 64) / 4 == b % 16;
    assert (b % 16 * 4 + c / 64) % 4 == c / 64;
  }

  lemma ThreeBytes(a: Byte, b: Byte, c: Byte, last: bool)
    ensures DecodeQuad(Quad(a, b, c), last) == Some([a, b, c])
  {
    Regroup(a, b, c);
    ValueOfCharOf(a / 4);
    ValueOfCharOf(a % 4 * 16 + b / 16);
    ValueOfCharOf(b % 16 * 4 + c / 64);
    ValueOfCharOf(c % 64);
  }

  lemma TwoBytes(a: Byte, b: Byte)
    ensures DecodeQuad(Quad(a, b, 0)[..3] + "=", true) == Some([a, b])
  {
    Regroup(a, b, 0);
    ValueOfCharOf(a / 4);
    ValueOfCharOf(a % 4 * 16 + b / 16);
    ValueOfCharOf(b % 16 * 4 + 0 / 64);
  }

  lemma OneByte(a: Byte)
    ensures DecodeQuad(Quad(a, 0, 0)[..2] + "==", true) == Some([a])
  {
    Regroup(a, 0, 0);
    ValueOfCharOf(a / 4);
    ValueOfCharOf(a % 4 * 16 + 0 / 16);
  }

  lemma DecodeGroup(head: string, tail: string)
    requires |head| == 4
    ensures Decode(head + tail)
         == var h := DecodeQuad(head, tail == ""); var t := Decode(tail);
            if h.None? || t.None? then None else Some(h.value + t.value)
  {
    assert (head + tail)[..4] == head && (head + tail)[4..] == tail;
  }

  lemma LastGroup(head: string, bytes: seq<Byte>)
    requires |head| == 4 && DecodeQuad(head, true) == Some(bytes)
    ensures Decode(head) == Some(bytes)
  {
    DecodeGroup(head, "");
    assert head + "" == head && bytes + [] == bytes;
  }

  lemma DecodeOne(a: Byte)
    ensures Decode(Quad(a, 0, 0)[..2] + "==") == Some([a])
  {
    OneByte(a);
    LastGroup(Quad(a, 0, 0)[..2] + "==", [a]);
  }

  lemma DecodeTwo(a: Byte, b: Byte)
    ensures Decode(Quad(a, b, 0)[..3] + "=") == Some([a, b])
  {
    TwoBytes(a, b);
    LastGroup(Quad(a, b, 0)[..3] + "=", [a, b]);
  }

  lemma EncodeShort(bytes: seq<Byte>)
    requires 1 <= |bytes| <= 2
    ensures |bytes| == 1 ==> bytes == [bytes[0]] && Encode(bytes) == Quad(bytes[0], 0, 0)[..2] + "=="
    ensures |bytes| == 2 ==> bytes == [bytes[0], bytes[1]] && Encode(bytes) == Quad(bytes[0], bytes[1], 0)[..3] + "="
  {
  }

  lemma DecodeShort(bytes: seq<Byte>)
    requires 1 <= |bytes| <= 2
    ensures Decode(Encode(bytes)) == Some(bytes)
  {
    var text := Encode(bytes);
    EncodeShort(bytes);
    if |bytes| == 1 {
      DecodeOne(bytes[0]);
      assert Decode(text) == Some([bytes[0]]);
    } else {
      DecodeTwo(bytes[0], bytes[1]);
      assert Decode(text) == Some([bytes[0], bytes[1]]);
    }
  }

  lemma EncodeLong(bytes: seq<Byte>)
    requires |bytes| > 2
    ensures Encode(bytes) == Quad(bytes[0], bytes[1], bytes[2]) + Encode(bytes[3..])
  {
  }

  lemma FirstThree(bytes: seq<Byte>)
    requires |bytes| > 2
    ensures bytes == [bytes[0], bytes[1], bytes[2]] + bytes[3..]
  {
  }

  lemma DecodeLong(a: Byte, b: Byte, c: Byte, tail: string, rest: seq<Byte>)
    requires Decode(tail) == Some(rest)
    ensures Decode(Quad(a, b, c) + tail) == Some([a, b, c] + rest)
  {
    ThreeBytes(a, b, c, tail == "");
    DecodeGroup(Quad(a, b, c), tail);
  }

  /** Decoding undoes encoding, for every byte string. */
  lemma {:induction false} DecodeEncode(bytes: seq<Byte>)
    ensures Decode(Encode(bytes)) == Some(bytes)
    decreases |bytes|
  {
    if |bytes| > 2 {
      DecodeEncode(bytes[3..]);
      EncodeLong(bytes);
      FirstThree(bytes);
      DecodeLong(bytes[0], bytes[1], bytes[2], Encode(bytes[3..]), bytes[3..]);
    } else if |bytes| > 0 {
      DecodeShort(bytes);
    } else {
      assert bytes == [];
    }
  }

  lemma EncodeIsEmpty(bytes: seq<Byte>)
    ensures Encode(bytes) == "" <==> bytes == []
  {
  }
}
