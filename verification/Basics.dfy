/** Small datatypes and sequence facts shared by every component model. */
module Basics {

  datatype Option<+T> = None | Some(value: T) {
    function GetOr(default: T): (r: T)
      ensures Some? ==> r == value
      ensures None? ==> r == default
    {
      match this
      case Some(v) => v
      case None => default
    }
  }

  /** What follows the last path separator of either kind. */
  function AfterSeparators(name: string): (r: string)
    ensures '/' !in r && '\\' !in r && |r| <= |name|
  {
    if name == "" then ""
    else
      var rest := AfterSeparators(name[..|name| - 1]);
      var c := name[|name| - 1];
      if c == '/' || c == '\\' then "" else rest + [c]
  }

  /** The part behind the last separator is all that counts. */
  lemma {:induction false} LastPartRemains(folder: string, name: string)
    requires '/' !in name && '\\' !in name && (folder == "" || folder[|folder| - 1] == '/' || folder[|folder| - 1] == '\\')
    ensures AfterSeparators(folder + name) == name
    decreases |name|
  {
    var s := folder + name;
    if name == "" {
      assert s == folder;
    } else {
      var last := name[|name| - 1];
      assert s[..|s| - 1] == folder + name[..|name| - 1] && s[|s| - 1] == last && last in name;
      assert name == name[..|name| - 1] + [last];
      forall c | c in name[..|name| - 1] ensures c in name {}
      LastPartRemains(folder, name[..|name| - 1]);
    }
  }

  // ---------- Counting ----------

  function One(p: bool): nat {
    if p then 1 else 0
  }

  function Below(n: nat): (s: set<nat>)
    ensures |s| == n && forall i: nat :: i in s <==> i < n
  {
    if n == 0 then {} else Below(n - 1) + {n - 1}
  }

  lemma {:induction false} SubsetSize<T>(a: set<T>, b: set<T>)
    requires a <= b
    ensures |a| <= |b|
    decreases |a|
  {
    if a != {} {
      var x :| x in a;
      SubsetSize(a - {x}, b - {x});
    }
  }

  predicate NoRepeats<T(==)>(s: seq<T>) {
    forall i, j :: 0 <= i < j < |s| ==> s[i] != s[j]
  }

  ghost function Members<T>(s: seq<T>): set<T> {
    set x | x in s
  }

  lemma {:induction false} MembersSize<T>(s: seq<T>)
    requires NoRepeats(s)
    ensures |Members(s)| == |s|
  {
    if s != [] {
      var rest := s[..|s| - 1];
      var last := s[|s| - 1];
      MembersSize(rest);
      forall x | x in s ensures x in Members(rest) + {last} {
        var i :| 0 <= i < |s| && s[i] == x;
        if i < |rest| { assert rest[i] == x; }
      }
      assert Members(s) == Members(rest) + {last};
    }
  }

  /** Distinct numbers below `n` are at most `n` many, and when they are that many every number below `n` is there. */
  lemma Pigeonhole(s: seq<nat>, n: nat)
    requires NoRepeats(s) && forall i :: 0 <= i < |s| ==> s[i] < n
    ensures |s| <= n
    ensures |s| == n ==> forall k: nat :: k < n ==> k in s
  {
    MembersSize(s);
    assert Members(s) <= Below(n);
    SubsetSize(Members(s), Below(n));
    if |s| == n {
      forall k: nat | k < n ensures k in s {
        if k !in s { SubsetSize(Members(s), Below(n) - {k}); }
      }
    }
  }
}
