/** The string operations the policy code relies on: byte order, `TrimSpace` and case folding. */
module Strings {

  // ---------- order ----------

  /** Go's `<` on strings. */
  predicate Less(a: string, b: string) {
    if b == [] then false
    else if a == [] then true
    else a[0] < b[0] || (a[0] == b[0] && Less(a[1..], b[1..]))
  }

  lemma {:induction false} LessIsStrict(a: string, b: string)
    ensures Less(a, b) || a == b || Less(b, a)
    ensures !(Less(a, b) && Less(b, a)) && !Less(a, a)
  {
    if a != [] {
      LessIsStrict(a[1..], if b == [] then a[1..] else b[1..]);
      if b != [] && a[0] == b[0] && a[1..] == b[1..] { assert a == [a[0]] + a[1..] == b; }
    }
  }

  /** At the first difference the smaller byte decides; a proper prefix comes first. */
  lemma {:induction false} LessIs(common: string, a: string, b: string)
    requires (a == [] || b == []) || a[0] != b[0]
    ensures Less(common + a, common + b) <==> b != [] && (a == [] || a[0] < b[0])
  {
    if common != [] {
      LessIs(common[1..], a, b);
      assert (common + a)[1..] == common[1..] + a && (common + b)[1..] == common[1..] + b;
    }
  }

  lemma {:induction false} LessIsTransitive(a: string, b: string, c: string)
    requires Less(a, b) && Less(b, c)
    ensures Less(a, c)
  {
    if a != [] && a[0] == b[0] && b[0] == c[0] { LessIsTransitive(a[1..], b[1..], c[1..]); }
  }

  ghost predicate Ascending(names: seq<string>) {
    forall i, j :: 0 <= i < j < |names| ==> Less(names[i], names[j])
  }

  /** Strictly ascending lists with the same elements are equal: sorting has one answer. */
  lemma {:induction false} AscendingIsUnique(a: seq<string>, b: seq<string>)
    requires Ascending(a) && Ascending(b) && (forall x :: x in a <==> x in b)
    ensures a == b
  {
    if b != [] { assert b[0] in b; }
    if a != [] {
      assert a[0] in b;
      assert b[0] in a;
      var i :| 0 <= i < |b| && b[i] == a[0];
      var j :| 0 <= j < |a| && a[j] == b[0];
      LessIsStrict(a[0], b[0]);
      assert a[0] == b[0];
      forall x ensures x in a[1..] <==> x in b[1..] {
        TailMembers(a, x);
        TailMembers(b, x);
      }
      AscendingIsUnique(a[1..], b[1..]);
    }
  }

  lemma {:induction false} TailMembers(names: seq<string>, x: string)
    requires Ascending(names) && names != []
    ensures x in names[1..] <==> x in names && x != names[0]
  {
    LessIsStrict(names[0], names[0]);
    if x in names && x != names[0] {
      var i :| 0 <= i < |names| && names[i] == x;
      assert names[1..][i - 1] == x;
    }
  }

  /** `sort.Strings` over the keys of a map. */
  method SortNames(names: set<string>) returns (sorted: seq<string>)
    ensures Ascending(sorted) && forall x :: x in sorted <==> x in names
  {
    sorted := [];
    var left := names;
    while left != {}
      invariant left <= names && Ascending(sorted)
      invariant forall x :: x in sorted <==> x in names && x !in left
      invariant forall x, y :: x in sorted && y in left ==> Less(x, y)
      decreases left
    {
      var least := Least(left);
      forall y | y in left && y != least ensures Less(least, y) { LessIsStrict(least, y); }
      sorted, left := sorted + [least], left - {least};
    }
  }

  method Least(names: set<string>) returns (least: string)
    requires names != {}
    ensures least in names && forall y :: y in names ==> !Less(y, least)
  {
    least :| least in names;
    LessIsStrict(least, least);
    var left := names - {least};
    while left != {}
      invariant left <= names && least in names
      invariant forall y :: y in names && y !in left ==> !Less(y, least)
      decreases left
    {
      var x :| x in left;
      if Less(x, least) {
        forall y | y in names && y !in left ensures !Less(y, x) {
          if Less(y, x) { LessIsTransitive(y, x, least); }
        }
        LessIsStrict(x, x);
        least := x;
      }
      left := left - {x};
    }
  }

  // ---------- TrimSpace and case folding ----------

  predicate IsSpace(c: char) {
    c in {' ', '\t', '\n', '\r', '\U{000B}', '\U{000C}', '\U{0085}', '\U{00A0}', '\U{1680}', '\U{2028}', '\U{2029}',
          '\U{202F}', '\U{205F}', '\U{3000}'}
    || '\U{2000}' <= c <= '\U{200A}'
  }

  function TrimLeft(s: string): string {
    if s != [] && IsSpace(s[0]) then TrimLeft(s[1..]) else s
  }

  function TrimRight(s: string): string {
    if s != [] && IsSpace(s[|s| - 1]) then TrimRight(s[..|s| - 1]) else s
  }

  function Trim(s: string): string { TrimRight(TrimLeft(s)) }

  predicate Trimmed(s: string) { s == [] || (!IsSpace(s[0]) && !IsSpace(s[|s| - 1])) }

  lemma {:induction false} TrimLeftStarts(s: string)
    ensures TrimLeft(s) == [] || !IsSpace(TrimLeft(s)[0])
  {
    if s != [] && IsSpace(s[0]) { TrimLeftStarts(s[1..]); }
  }

  lemma {:induction false} TrimRightEnds(s: string)
    requires s == [] || !IsSpace(s[0])
    ensures Trimmed(TrimRight(s))
  {
    if s != [] && IsSpace(s[|s| - 1]) { TrimRightEnds(s[..|s| - 1]); }
  }

  lemma {:induction false} TrimIsIdempotent(s: string)
    ensures Trimmed(Trim(s)) && Trim(Trim(s)) == Trim(s)
  {
    TrimLeftStarts(s);
    TrimRightEnds(TrimLeft(s));
  }

  /** Trimming takes off spaces at both ends, all of them, and nothing else. */
  lemma {:induction false} TrimIs(s: string) returns (i: nat, j: nat)
    ensures i <= j <= |s| && Trim(s) == s[i..j]
    ensures (forall k :: 0 <= k < i || j <= k < |s| ==> IsSpace(s[k]))
    ensures i < j ==> !IsSpace(s[i]) && !IsSpace(s[j - 1])
  {
    i := TrimLeftIs(s);
    var rest := s[i..];
    var n := TrimRightIs(rest);
    j := i + n;
    TrimIsIdempotent(s);
    assert Trim(s) == rest[..n] == s[i..j];
    hide TrimLeft, TrimRight, IsSpace;
    forall k | j <= k < |s| ensures IsSpace(s[k]) { assert rest[k - i] == s[k]; }
    if i < j { assert Trim(s)[0] == s[i] && Trim(s)[n - 1] == s[j - 1]; }
  }

  lemma {:induction false} TrimLeftIs(s: string) returns (i: nat)
    ensures i <= |s| && TrimLeft(s) == s[i..] && forall k :: 0 <= k < i ==> IsSpace(s[k])
  {
    i := 0;
    if s != [] && IsSpace(s[0]) {
      var n := TrimLeftIs(s[1..]);
      i := n + 1;
      assert forall k :: 0 < k < i ==> s[k] == s[1..][k - 1];
    }
  }

  lemma {:induction false} TrimRightIs(s: string) returns (j: nat)
    ensures j <= |s| && TrimRight(s) == s[..j] && forall k :: j <= k < |s| ==> IsSpace(s[k])
  {
    j := |s|;
    if s != [] && IsSpace(s[|s| - 1]) {
      j := TrimRightIs(s[..|s| - 1]);
      assert forall k :: j <= k < |s| - 1 ==> s[k] == s[..|s| - 1][k];
    }
  }

  /** Lower case, on ASCII letters, where `ToLower` and `EqualFold` agree. */
  function FoldChar(c: char): char {
    if 'A' <= c <= 'Z' then (c as int - 'A' as int + 'a' as int) as char else c
  }

  function Fold(s: string): string {
    if s == [] then [] else [FoldChar(s[0])] + Fold(s[1..])
  }

  /** Folding changes capital letters into small ones, position by position. */
  lemma {:induction false} FoldIs(s: string)
    ensures |Fold(s)| == |s|
    ensures forall k :: 0 <= k < |s| ==>
              if 'A' <= s[k] <= 'Z' then 'a' <= Fold(s)[k] <= 'z' && Fold(s)[k] as int - 'a' as int == s[k] as int - 'A' as int
              else Fold(s)[k] == s[k]
  {
    if s != [] { FoldIs(s[1..]); }
  }

  predicate EqualFold(a: string, b: string) { Fold(a) == Fold(b) }
}
