/**
 * Strings assembled from pieces, the way a Python f-string (or several
 * adjacent ones) assembles literal text and formatted fields.
 */
module Text {

  /** The pieces in order, run together. */
  function Concat(parts: seq<string>): (s: string)
    ensures |parts| == 1 ==> s == parts[0]
  {
    if parts == [] then "" else parts[0] + Concat(parts[1..])
  }

  predicate StartsWith(s: string, prefix: string) {
    |prefix| <= |s| && s[..|prefix|] == prefix
  }

  predicate EndsWith(s: string, suffix: string) {
    |suffix| <= |s| && s[|s| - |suffix|..] == suffix
  }

  lemma {:induction false} ConcatSplit(p: seq<string>, q: seq<string>)
    ensures Concat(p + q) == Concat(p) + Concat(q)
  {
    if p != [] {
      assert (p + q)[1..] == p[1..] + q;
      ConcatSplit(p[1..], q);
    } else {
      assert p + q == q;
    }
  }

  /** The first k pieces open the text and the rest close it. */
  lemma ConcatPrefixSuffix(parts: seq<string>, k: nat)
    requires k <= |parts|
    ensures StartsWith(Concat(parts), Concat(parts[..k]))
    ensures EndsWith(Concat(parts), Concat(parts[k..]))
  {
    assert parts == parts[..k] + parts[k..];
    ConcatSplit(parts[..k], parts[k..]);
  }

  lemma SplitEnds(parts: seq<string>)
    requires 2 <= |parts|
    ensures parts == [parts[0]] + parts[1..|parts| - 1] + [parts[|parts| - 1]]
  {
    assert parts == parts[..1] + parts[1..|parts| - 1] + parts[|parts| - 1..];
  }

  lemma MiddleAt(first: string, mid: seq<string>, last: string, i: int)
    requires 0 <= i < |mid|
    ensures ([first] + mid + [last])[i + 1] == mid[i]
  {
    assert [first] + mid + [last] == [first] + (mid + [last]);
  }

  /** Lines that agree with the pieces except for text before the first
      and after the last. */
  lemma WrappedLines(parts: seq<string>, lines: seq<string>, open: string, close: string)
    requires 2 <= |parts| == |lines|
    requires lines[0] == open + parts[0]
    requires forall i :: 0 < i < |parts| - 1 ==> lines[i] == parts[i]
    requires lines[|lines| - 1] == parts[|parts| - 1] + close
    ensures lines == [open + parts[0]] + parts[1..|parts| - 1] + [parts[|parts| - 1] + close]
  {
    var n := |parts|;
    var mid := parts[1..n - 1];
    var wrapped := [open + parts[0]] + mid + [parts[n - 1] + close];
    forall i | 0 <= i < n
      ensures lines[i] == wrapped[i]
    {
      if 0 < i < n - 1 {
        MiddleAt(open + parts[0], mid, parts[n - 1] + close, i - 1);
      }
    }
  }

  lemma ConcatAround(first: string, mid: seq<string>, last: string)
    ensures Concat([first] + mid + [last]) == first + (Concat(mid) + last)
  {
    assert [first] + mid + [last] == [first] + (mid + [last]);
    ConcatSplit([first], mid + [last]);
    ConcatSplit(mid, [last]);
  }

  /** Text put before and after a run of pieces joins the first and last piece. */
  lemma ConcatWrap(open: string, first: string, mid: seq<string>, last: string, close: string)
    ensures open + Concat([first] + mid + [last]) + close == Concat([open + first] + mid + [last + close])
  {
    ConcatAround(first, mid, last);
    ConcatAround(open + first, mid, last + close);
  }
}
