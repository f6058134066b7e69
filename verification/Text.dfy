/** Strings as byte sequences: the order Go's `<` and sort.Strings use, the
    prefix and trimming operations, and sorting. */
module Text {

  type Labels = map<string, string>

  /** Go map indexing: an absent key reads as the empty string. */
  function Get(m: Labels, k: string): string {
    if k in m then m[k] else ""
  }

  predicate HasPrefix(s: string, prefix: string) {
    prefix <= s
  }

  /** Byte-wise lexicographic order. */
  predicate Less(a: string, b: string) {
    b != "" && (a == "" || a[0] < b[0] || (a[0] == b[0] && Less(a[1..], b[1..])))
  }

  /** A string is less than those it is a proper prefix of, and otherwise as the
      first characters in which they differ are. */
  lemma {:induction false} LessAtDifference(a: string, b: string, i: nat)
    requires i <= |a| && i <= |b| && a[..i] == b[..i]
    requires i == |a| || i == |b| || a[i] != b[i]
    ensures Less(a, b) <==> i < |b| && (i == |a| || a[i] < b[i])
  {
    if i > 0 {
      assert a[0] == a[..i][0] == b[..i][0] == b[0];
      assert a[1..][..i - 1] == a[..i][1..] == b[..i][1..] == b[1..][..i - 1];
      LessAtDifference(a[1..], b[1..], i - 1);
    }
  }

  lemma {:induction false} LessIrreflexive(a: string)
    ensures !Less(a, a)
  {
    if a != "" {
      LessIrreflexive(a[1..]);
    }
  }

  lemma {:induction false} LessTransitive(a: string, b: string, c: string)
    requires Less(a, b) && Less(b, c)
    ensures Less(a, c)
  {
    if a != "" && a[0] == b[0] && b[0] == c[0] {
      LessTransitive(a[1..], b[1..], c[1..]);
    }
  }

  lemma {:induction false} LessTotal(a: string, b: string)
    ensures a == b || Less(a, b) || Less(b, a)
  {
    if a != "" && b != "" && a[0] == b[0] {
      LessTotal(a[1..], b[1..]);
      assert a == [a[0]] + a[1..] && b == [b[0]] + b[1..];
    }
  }

  /** strings.TrimRight(s, "/"). */
  function TrimSlashes(s: string): (t: string)
    ensures t == "" || t[|t| - 1] != '/'
    ensures t <= s
    ensures forall i :: |t| <= i < |s| ==> s[i] == '/'
  {
    if s != "" && s[|s| - 1] == '/' then TrimSlashes(s[..|s| - 1]) else s
  }

  /** Strictly increasing, hence duplicate-free. */
  ghost predicate Ascending(s: seq<string>) {
    forall i, j :: 0 <= i < j < |s| ==> Less(s[i], s[j])
  }

  /** sort.Strings on a list without duplicates. */
  function SortStrings(s: seq<string>): (t: seq<string>)
    ensures forall x :: x in t <==> x in s
    ensures |t| == |s|
  {
    if s == [] then []
    else
      assert forall x :: x in s <==> x == s[0] || x in s[1..];
      InsertString(s[0], SortStrings(s[1..]))
  }

  function InsertString(x: string, t: seq<string>): (u: seq<string>)
    ensures forall y :: y in u <==> y == x || y in t
    ensures |u| == |t| + 1
  {
    if t == [] || Less(x, t[0]) then [x] + t
    else
      assert forall y :: y in t <==> y == t[0] || y in t[1..];
      [t[0]] + InsertString(x, t[1..])
  }

  lemma {:induction false} InsertAscending(x: string, t: seq<string>)
    requires Ascending(t) && x !in t
    ensures Ascending(InsertString(x, t))
  {
    if t != [] {
      LessTotal(x, t[0]);
      if Less(x, t[0]) {
        forall j | 0 <= j < |t| ensures Less(x, t[j]) {
          if j > 0 { LessTransitive(x, t[0], t[j]); }
        }
      } else {
        InsertAscending(x, t[1..]);
        var rest := InsertString(x, t[1..]);
        forall j | 0 <= j < |rest| ensures Less(t[0], rest[j]) {
          assert rest[j] in rest;
          if rest[j] != x {
            var k :| 0 <= k < |t[1..]| && t[1..][k] == rest[j];
            assert t[k + 1] == rest[j];
          }
        }
      }
    }
  }

  ghost predicate Distinct<T(!new)>(s: seq<T>) {
    forall i, j :: 0 <= i < j < |s| ==> s[i] != s[j]
  }

  lemma {:induction false} SortAscending(s: seq<string>)
    requires Distinct(s)
    ensures Ascending(SortStrings(s))
  {
    if s != [] {
      assert s[0] !in s[1..];
      SortAscending(s[1..]);
      InsertAscending(s[0], SortStrings(s[1..]));
    }
  }

  /** A strictly increasing list is determined by its elements, which is why
      nothing downstream of a sort can depend on map or list order. */
  lemma {:induction false} AscendingUnique(s: seq<string>, t: seq<string>)
    requires Ascending(s) && Ascending(t)
    requires forall x :: x in s <==> x in t
    ensures s == t
  {
    if s != [] { assert s[0] in s; }
    if t != [] { assert t[0] in t; }
    if s != [] && t != [] {
      HeadIsLeast(s, t);
      HeadIsLeast(t, s);
      LessIrreflexive(s[0]);
      if s[0] != t[0] { LessTransitive(s[0], t[0], s[0]); }
      forall x ensures x in s[1..] <==> x in t[1..] {
        TailMembers(s, x);
        TailMembers(t, x);
      }
      AscendingUnique(s[1..], t[1..]);
      assert s == [s[0]] + s[1..] && t == [t[0]] + t[1..];
    }
  }

  lemma HeadIsLeast(s: seq<string>, t: seq<string>)
    requires Ascending(s) && s != [] && t != []
    requires forall x :: x in t ==> x in s
    ensures s[0] == t[0] || Less(s[0], t[0])
  {
    assert t[0] in s;
  }

  lemma TailMembers(s: seq<string>, x: string)
    requires Ascending(s) && s != []
    ensures x in s[1..] <==> x in s && x != s[0]
  {
    LessIrreflexive(s[0]);
    if x in s && x != s[0] {
      var k :| 0 <= k < |s| && s[k] == x;
      assert s[1..][k - 1] == x;
    }
  }
}
