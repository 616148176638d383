/** The salted key-sequence detector, and the event filter that feeds it. */
module KeySequence {
  // ---------- The step hash ----------

  /** One round: exclusive or, then the multiplication by the prime 0x01000193. */
  function Mix(h: bv32, value: bv32): bv32 {
    (h ^ value) * 0x01000193
  }

  function Salted(pos: bv32): bv32 {
    Mix(0x811c9dc5, pos + 0x9e3779b9)
  }

  function StepHash(pos: bv32, key: bv32): bv32 {
    Mix(Salted(pos), key)
  }

  /** Multiplication by the prime's inverse modulo 2^32. */
  function Undo(x: bv32): bv32 {
    x * 0x359c449b
  }

  lemma UndoesThePrime(a: bv32)
    ensures Undo(a * 0x01000193) == a
  {
  }

  lemma PrimeIsInjective(a: bv32, b: bv32, x: bv32)
    requires x == a * 0x01000193 && x == b * 0x01000193
    ensures a == b
  {
    UndoesThePrime(a);
    UndoesThePrime(b);
  }

  lemma XorIsInjective(h: bv32, a: bv32, b: bv32)
    requires h ^ a == h ^ b
    ensures a == b
  {
  }

  lemma MixIsInjective(h: bv32, a: bv32, b: bv32, x: bv32)
    requires x == (h ^ a) * 0x01000193 && x == (h ^ b) * 0x01000193
    ensures a == b
  {
    PrimeIsInjective(h ^ a, h ^ b, x);
    XorIsInjective(h, a, b);
  }

  lemma MixInjective(h: bv32, a: bv32, b: bv32)
    requires Mix(h, a) == Mix(h, b)
    ensures a == b
  {
    MixIsInjective(h, a, b, Mix(h, a));
  }

  /** At one position no two 32-bit keys share a step value. */
  lemma StepHashIsInjective(pos: bv32, a: bv32, b: bv32)
    requires StepHash(pos, a) == StepHash(pos, b)
    ensures a == b
  {
    MixInjective(Salted(pos), a, b);
  }

  lemma MixReaches(h: bv32, x: bv32)
    ensures Mix(h, h ^ (x * 0x359c449b)) == x
  {
  }

  /** The one key a step value stands for. */
  function KeyOf(pos: bv32, step: bv32): (key: bv32)
    ensures StepHash(pos, key) == step
  {
    MixReaches(Salted(pos), step);
    Salted(pos) ^ (step * 0x359c449b)
  }

  /** At each position the hash is a bijection between keys and step values. */
  lemma StepHashIsABijection(pos: bv32, key: bv32, step: bv32)
    ensures StepHash(pos, key) == step <==> key == KeyOf(pos, step)
  {
    if StepHash(pos, key) == step {
      StepHashIsInjective(pos, key, KeyOf(pos, step));
    }
  }

  /** The position as the hash sees it: its low 32 bits. */
  function Pos(index: nat): bv32 {
    (index % 0x1_0000_0000) as bv32
  }

  /** The key sequence a list of step values stands for. */
  function Keys(steps: seq<bv32>): (keys: seq<bv32>)
    ensures |keys| == |steps| && forall i :: 0 <= i < |steps| ==> keys[i] == KeyOf(Pos(i), steps[i])
  {
    seq(|steps|, i requires 0 <= i < |steps| => KeyOf(Pos(i), steps[i]))
  }

  // ---------- The matcher ----------

  datatype Fed = Fed(index: nat, fired: bool)

  /** One key for a matcher of `keys` that has matched `index` of them. */
  function Feed(keys: seq<bv32>, index: nat, key: bv32): (r: Fed)
    requires index < |keys|
    ensures r.index < |keys|
  {
    var next := if key == keys[index] then index + 1 else if key == keys[0] then 1 else 0;
    if next == |keys| then Fed(0, true) else Fed(next, false)
  }

  class KeySequenceMatcher {
    const steps: seq<bv32>
    var index: nat

    constructor (s: seq<bv32>)
      ensures steps == s && index == 0
    {
      steps, index := s, 0;
    }

    method Reset()
      modifies this
      ensures index == 0
    {
      index := 0;
    }

    method FeedKey(key: bv32) returns (fired: bool)
      requires steps == [] || index < |steps|
      modifies this
      ensures steps == [] ==> !fired && index == old(index)
      ensures steps != [] ==> Fed(index, fired) == Feed(Keys(steps), old(index), key)
    {
      if steps == [] {
        return false;
      }
      StepHashIsABijection(Pos(index), key, steps[index]);
      StepHashIsABijection(Pos(0), key, steps[0]);
      if StepHash(Pos(index), key) == steps[index] {
        index := index + 1;
      } else {
        index := if StepHash(Pos(0), key) == steps[0] then 1 else 0;
      }
      if index == |steps| {
        index := 0;
        return true;
      }
      return false;
    }
  }

  // ---------- Streams of keys ----------

  /** The matcher after a whole stream; `fired` is the answer to the last key. */
  function FeedAll(keys: seq<bv32>, index: nat, stream: seq<bv32>): (r: Fed)
    requires index < |keys|
    ensures r.index < |keys|
    decreases |stream|
  {
    if stream == [] then Fed(index, false)
    else
      var r := Feed(keys, index, stream[0]);
      if |stream| == 1 then r else FeedAll(keys, r.index, stream[1..])
  }

  predicate Fires(keys: seq<bv32>, stream: seq<bv32>)
    requires keys != []
  {
    FeedAll(keys, 0, stream).fired
  }

  predicate EndsWith(stream: seq<bv32>, part: seq<bv32>) {
    |part| <= |stream| && stream[|stream| - |part|..] == part
  }

  /** `index` keys of the sequence are the last ones of what came before. */
  lemma {:induction false} FiresOnlyOnTheSequence(keys: seq<bv32>, before: seq<bv32>, index: nat, stream: seq<bv32>)
    requires index < |keys| && EndsWith(before, keys[..index])
    ensures FeedAll(keys, index, stream).fired ==> EndsWith(before + stream, keys)
    decreases |stream|
  {
    if stream != [] {
      var r := Feed(keys, index, stream[0]);
      var seen := before + [stream[0]];
      MatchGrows(keys, before, index, stream[0]);
      if |stream| == 1 {
        assert before + stream == seen;
      } else {
        FiresOnlyOnTheSequence(keys, seen, r.index, stream[1..]);
        assert seen + stream[1..] == before + stream;
      }
    }
  }

  lemma MatchGrows(keys: seq<bv32>, before: seq<bv32>, index: nat, key: bv32)
    requires index < |keys| && EndsWith(before, keys[..index])
    ensures var r := Feed(keys, index, key);
      && EndsWith(before + [key], keys[..r.index])
      && (r.fired ==> EndsWith(before + [key], keys))
  {
    var seen := before + [key];
    if key == keys[index] {
      assert seen[|seen| - (index + 1)..] == before[|before| - index..] + [key];
      assert keys[..index + 1] == keys[..index] + [key];
      assert index + 1 == |keys| ==> keys[..index + 1] == keys;
    } else if key == keys[0] {
      assert seen[|seen| - 1..] == [key] && keys[..1] == [key];
    }
    assert keys[..0] == [] && seen[|seen|..] == [];
  }

  lemma {:induction false} FeedAllSplits(keys: seq<bv32>, index: nat, a: seq<bv32>, b: seq<bv32>)
    requires index < |keys| && b != []
    ensures FeedAll(keys, index, a + b) == FeedAll(keys, FeedAll(keys, index, a).index, b)
    decreases |a|
  {
    if a == [] {
      assert a + b == b;
    } else {
      var r := Feed(keys, index, a[0]);
      assert (a + b)[1..] == a[1..] + b;
      if |a| == 1 {
        assert a[1..] + b == b;
      } else {
        FeedAllSplits(keys, r.index, a[1..], b);
      }
    }
  }

  /** Fed its own continuation, the matcher goes on to the end. */
  lemma {:induction false} FollowsThrough(keys: seq<bv32>, index: nat)
    requires index < |keys|
    ensures FeedAll(keys, index, keys[index..]) == Fed(0, true)
    decreases |keys| - index
  {
    if index + 1 < |keys| {
      FollowsThrough(keys, index + 1);
      assert keys[index..][1..] == keys[index + 1..];
    }
  }

  /** Wherever the matcher is, a first key found nowhere else in the sequence starts it afresh. */
  lemma FirstKeyRestarts(keys: seq<bv32>, index: nat)
    requires index < |keys| && keys[0] !in keys[1..]
    ensures FeedAll(keys, index, keys) == Fed(0, true)
  {
    if index > 0 {
      assert keys[1..][index - 1] == keys[index];
      if |keys| > 1 { FollowsThrough(keys, 1); }
    } else {
      FollowsThrough(keys, 0);
      assert keys[0..] == keys;
    }
  }

  /** When the first key occurs nowhere else, the matcher fires exactly on the streams that end with the sequence. */
  lemma ExactWhenFirstKeyIsUnique(keys: seq<bv32>, stream: seq<bv32>)
    requires keys != [] && keys[0] !in keys[1..]
    ensures Fires(keys, stream) <==> EndsWith(stream, keys)
  {
    assert EndsWith([], keys[..0]);
    FiresOnlyOnTheSequence(keys, [], 0, stream);
    assert [] + stream == stream;
    if EndsWith(stream, keys) {
      var a := stream[..|stream| - |keys|];
      assert stream == a + keys;
      FeedAllSplits(keys, 0, a, keys);
      FirstKeyRestarts(keys, FeedAll(keys, 0, a).index);
    }
  }

  // ---------- Where "exactly" fails ----------

  /** Each key gets the matcher at most one step further. */
  lemma {:induction false} NeedsEnoughKeys(keys: seq<bv32>, index: nat, stream: seq<bv32>)
    requires index < |keys| && index + |stream| < |keys|
    ensures !FeedAll(keys, index, stream).fired && FeedAll(keys, index, stream).index <= index + |stream|
    decreases |stream|
  {
    if |stream| > 1 {
      NeedsEnoughKeys(keys, Feed(keys, index, stream[0]).index, stream[1..]);
    }
  }

  /** Having matched the sequence's start at the wrong place, the matcher is too late for the right one. */
  lemma {:induction false} TooLate(keys: seq<bv32>, i: nat, j: nat)
    requires 1 <= i && 1 <= j && i + j < |keys|
    ensures !FeedAll(keys, i + j, keys[j..]).fired
    decreases |keys| - j
  {
    var r := Feed(keys, i + j, keys[j]);
    assert keys[j..][1..] == keys[j + 1..] && |keys[j + 1..]| >= 1;
    if keys[j] == keys[i + j] && i + j + 1 < |keys| {
      TooLate(keys, i, j + 1);
    } else {
      NeedsEnoughKeys(keys, r.index, keys[j + 1..]);
    }
  }

  /** A first key that comes back at position `i`: after the first `i` keys the whole sequence does not fire. */
  lemma RepeatedFirstKeyMisses(keys: seq<bv32>, i: nat)
    requires 1 <= i < |keys| && keys[i] == keys[0]
    ensures EndsWith(keys[..i] + keys, keys) && !Fires(keys, keys[..i] + keys)
  {
    FeedAllSplits(keys, 0, keys[..i], keys);
    ReachesIndex(keys, i);
    assert (keys[..i] + keys)[i..] == keys;
    var r := Feed(keys, i, keys[0]);
    if i + 1 < |keys| {
      TooLate(keys, i, 1);
    } else {
      NeedsEnoughKeys(keys, 0, keys[1..]);
    }
  }

  lemma {:induction false} ReachesIndex(keys: seq<bv32>, i: nat)
    requires i < |keys|
    ensures FeedAll(keys, 0, keys[..i]).index == i
  {
    if i > 0 {
      ReachesIndex(keys, i - 1);
      assert keys[..i] == keys[..i - 1] + [keys[i - 1]];
      FeedAllSplits(keys, 0, keys[..i - 1], [keys[i - 1]]);
    }
  }

  /** Firing exactly at the end of the sequence, on every stream, is the same as a first key that never comes back. */
  lemma ExactIffFirstKeyIsUnique(keys: seq<bv32>)
    requires keys != []
    ensures (forall stream :: Fires(keys, stream) <==> EndsWith(stream, keys)) <==> keys[0] !in keys[1..]
  {
    if keys[0] in keys[1..] {
      var k :| 0 <= k < |keys[1..]| && keys[1..][k] == keys[0];
      RepeatedFirstKeyMisses(keys, k + 1);
    } else {
      forall stream ensures Fires(keys, stream) <==> EndsWith(stream, keys) {
        ExactWhenFirstKeyIsUnique(keys, stream);
      }
    }
  }

  /** The shortest example: A A B on the stream A A A B. */
  lemma AabMissesAaab(a: bv32, b: bv32)
    ensures EndsWith([a, a, a, b], [a, a, b]) && !Fires([a, a, b], [a, a, a, b])
  {
    var keys := [a, a, b];
    assert keys[..1] + keys == [a, a, a, b];
    RepeatedFirstKeyMisses(keys, 1);
  }

  // ---------- The event filter ----------

  datatype Press = Press(key: bv32, timestamp: nat, autoRepeat: bool)

  /** The keys that reach the matcher: re-deliveries share a non-zero timestamp with the event before them. */
  function Passed(events: seq<Press>, last: nat): seq<bv32> {
    if events == [] then []
    else
      var e := events[0];
      var duplicate := e.timestamp != 0 && e.timestamp == last;
      (if !duplicate && !e.autoRepeat then [e.key] else []) + Passed(events[1..], e.timestamp)
  }

  function Repeat(e: Press, times: nat): seq<Press> {
    if times == 0 then [] else [e] + Repeat(e, times - 1)
  }

  /** Every press delivered once or more in a row. */
  function Redelivered(presses: seq<Press>, times: seq<nat>): seq<Press>
    requires |times| == |presses|
  {
    if presses == [] then [] else Repeat(presses[0], times[0]) + Redelivered(presses[1..], times[1..])
  }

  lemma {:induction false} RepeatsCollapse(e: Press, times: nat, rest: seq<Press>)
    requires e.timestamp != 0
    ensures Passed(Repeat(e, times) + rest, e.timestamp) == Passed(rest, e.timestamp)
  {
    if times == 0 {
      assert [] + rest == rest;
    } else {
      RepeatsCollapse(e, times - 1, rest);
      assert (Repeat(e, times) + rest)[1..] == Repeat(e, times - 1) + rest;
    }
  }

  /** However often each press is delivered, the matcher gets it once. */
  lemma {:induction false} RedeliveryIsInvisible(presses: seq<Press>, times: seq<nat>, last: nat)
    requires |times| == |presses| && forall i :: 0 <= i < |presses| ==> presses[i].timestamp != 0 && times[i] >= 1
    ensures Passed(Redelivered(presses, times), last) == Passed(presses, last)
  {
    if presses != [] {
      var e := presses[0];
      var rest := Redelivered(presses[1..], times[1..]);
      var all := Redelivered(presses, times);
      assert all == [e] + (Repeat(e, times[0] - 1) + rest);
      assert all[1..] == Repeat(e, times[0] - 1) + rest;
      RepeatsCollapse(e, times[0] - 1, rest);
      RedeliveryIsInvisible(presses[1..], times[1..], e.timestamp);
    }
  }

  lemma OnePress(e: Press, last: nat)
    ensures Passed([e], last)
         == if !(e.timestamp != 0 && e.timestamp == last) && !e.autoRepeat then [e.key] else []
  {
    assert [e][1..] == [];
  }

  class KeySequenceWatcher {
    const matcher: KeySequenceMatcher
    var lastTimestamp: nat
    var matches: nat           // calls of on_match

    constructor (m: KeySequenceMatcher)
      ensures matcher == m && lastTimestamp == 0 && matches == 0
    {
      matcher, lastTimestamp, matches := m, 0, 0;
    }

    /** A key press reaching the filter; it is never consumed. */
    method OnKeyPress(e: Press)
      requires matcher.steps != [] && matcher.index < |matcher.steps|
      modifies this, matcher
      ensures lastTimestamp == e.timestamp
      ensures Passed([e], old(lastTimestamp)) == [] ==> matches == old(matches) && matcher.index == old(matcher.index)
      ensures Passed([e], old(lastTimestamp)) != [] ==>
        var r := Feed(Keys(matcher.steps), old(matcher.index), e.key);
        matcher.index == r.index && matches == old(matches) + if r.fired then 1 else 0
    {
      var duplicate := e.timestamp != 0 && e.timestamp == lastTimestamp;
      OnePress(e, lastTimestamp);
      lastTimestamp := e.timestamp;
      if !duplicate && !e.autoRepeat {
        var fired := matcher.FeedKey(e.key);
        if fired {
          matches := matches + 1;
        }
      }
    }
  }
}
