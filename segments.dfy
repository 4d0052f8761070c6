/** Splitting a string on '/' and joining it back, as JavaScript's
    `s.split("/")` / `a.join("/")` and Python's `s.split("/")` /
    `"/".join(a)` do (both agree for a one-character separator). */
module Segments {

  /** The '/'-separated segments of `s`: never empty, and an empty string
      yields one empty segment (`"".split("/") == [""]`). */
  function Split(s: string): (parts: seq<string>)
    ensures |parts| >= 1
    ensures forall i :: 0 <= i < |parts| ==> '/' !in parts[i]
    ensures Join(parts) == s
    decreases |s|
  {
    if s == [] then
      [""]
    else if s[0] == '/' then
      [""] + Split(s[1..])
    else
      var rest := Split(s[1..]);
      assert Join(rest) == s[1..];
      [[s[0]] + rest[0]] + rest[1..]
  }

  /** The segments glued back together with '/' between neighbours. */
  function Join(parts: seq<string>): string
  {
    if |parts| == 0 then ""
    else if |parts| == 1 then parts[0]
    else parts[0] + "/" + Join(parts[1..])
  }

  /** The last segment: `s.split("/")[-1]`. */
  function Last(s: string): string
  {
    var parts := Split(s);
    parts[|parts| - 1]
  }

  /** Every segment but the last, joined again: `"/".join(s.split("/")[:-1])`. */
  function DropLast(s: string): string
  {
    var parts := Split(s);
    Join(parts[..|parts| - 1])
  }

  /** A string without '/' is a single segment. */
  lemma {:induction false} SplitNoSlash(s: string)
    requires '/' !in s
    ensures Split(s) == [s]
    decreases |s|
  {
    if s != [] {
      assert '/' !in s[1..] by {
        forall i | 0 <= i < |s[1..]| ensures s[1..][i] != '/' { assert s[1..][i] == s[i + 1]; }
      }
      SplitNoSlash(s[1..]);
      assert [s[0]] + s[1..] == s;
    }
  }

  /** A '/' between two strings separates their segments. */
  lemma {:induction false} SplitAround(a: string, b: string)
    ensures Split(a + "/" + b) == Split(a) + Split(b)
    decreases |a|
  {
    var s := a + "/" + b;
    if a == [] {
      assert s[0] == '/' && s[1..] == b;
    } else {
      assert s[0] == a[0];
      assert s[1..] == a[1..] + "/" + b;
      SplitAround(a[1..], b);
    }
  }

  /** Joining '/'-free segments and splitting again gives the segments back. */
  lemma {:induction false} SplitJoin(parts: seq<string>)
    requires |parts| >= 1
    requires forall i :: 0 <= i < |parts| ==> '/' !in parts[i]
    ensures Split(Join(parts)) == parts
    decreases |parts|
  {
    if |parts| == 1 {
      SplitNoSlash(parts[0]);
    } else {
      var rest := parts[1..];
      assert forall i :: 0 <= i < |rest| ==> '/' !in rest[i] by {
        forall i | 0 <= i < |rest| ensures '/' !in rest[i] { assert rest[i] == parts[i + 1]; }
      }
      SplitJoin(rest);
      SplitAround(parts[0], Join(rest));
      SplitNoSlash(parts[0]);
      assert [parts[0]] + rest == parts;
    }
  }

  /** The last separator of a join of two or more segments sits just before
      the last segment. */
  lemma {:induction false} JoinSnoc(parts: seq<string>)
    requires |parts| >= 2
    ensures Join(parts) == Join(parts[..|parts| - 1]) + "/" + parts[|parts| - 1]
    decreases |parts|
  {
    if |parts| > 2 {
      var rest := parts[1..];
      JoinSnoc(rest);
      assert rest[..|rest| - 1] == parts[..|parts| - 1][1..];
      assert rest[|rest| - 1] == parts[|parts| - 1];
    }
  }

  /** A string with a '/' is its part before the last '/', the '/', and its
      last segment; a string without one is its own last segment, with an
      empty part before it. */
  lemma SplitAtLastSlash(s: string)
    ensures '/' in s ==> s == DropLast(s) + "/" + Last(s)
    ensures '/' !in s ==> DropLast(s) == "" && Last(s) == s
    ensures '/' !in Last(s)
  {
    var parts := Split(s);
    if '/' in s {
      assert |parts| != 1;
      JoinSnoc(parts);
    } else {
      SplitNoSlash(s);
    }
  }

  /** What comes after the last '/' of `a + "/" + k` is `k`, and what comes
      before it is `a`, whenever `k` is '/'-free. */
  lemma LastOfSlashed(a: string, k: string)
    requires '/' !in k
    ensures Last(a + "/" + k) == k
    ensures DropLast(a + "/" + k) == a
  {
    SplitAround(a, k);
    SplitNoSlash(k);
    var parts := Split(a) + [k];
    assert parts[..|parts| - 1] == Split(a);
  }
}
