/**
 * The string operations the directive uses from JavaScript's `String.prototype`:
 * `includes` and `split` on a one-character separator, with `join` as the
 * inverse of `split`.
 */
module JsStrings {

  /** `t` occurs in `s` at index `i`. */
  predicate OccursAt(s: string, t: string, i: int)
  {
    0 <= i && i + |t| <= |s| && s[i..i + |t|] == t
  }

  /** `s.includes(t)`, by scanning `s` from the left. */
  predicate Includes(s: string, t: string)
    decreases |s|
  {
    t <= s || (|s| > 0 && Includes(s[1..], t))
  }

  /** An occurrence at index 0 is a prefix. */
  lemma OccursAtStart(s: string, t: string)
    ensures OccursAt(s, t, 0) <==> t <= s
  {
  }

  /** The scan finds `t` exactly when `t` occurs somewhere in `s`. */
  lemma {:induction false} IncludesIsOccurrence(s: string, t: string)
    ensures Includes(s, t) <==> exists i :: OccursAt(s, t, i)
    decreases |s|
  {
    OccursAtStart(s, t);
    if t <= s {
    } else if |s| > 0 {
      IncludesIsOccurrence(s[1..], t);
      forall j | OccursAt(s[1..], t, j) ensures OccursAt(s, t, j + 1) {
        assert s[1..][j..j + |t|] == s[j + 1..j + 1 + |t|];
      }
      forall i | OccursAt(s, t, i) && i > 0 ensures OccursAt(s[1..], t, i - 1) {
        assert s[1..][i - 1..i - 1 + |t|] == s[i..i + |t|];
      }
    }
  }

  /** A string includes every string it is built around. */
  lemma IncludesInfix(a: string, t: string, b: string)
    ensures Includes(a + t + b, t)
  {
    assert (a + t + b)[|a|..|a| + |t|] == t;
    assert OccursAt(a + t + b, t, |a|);
    IncludesIsOccurrence(a + t + b, t);
  }

  /** `s.split(sep)`: the maximal runs of `s` between separators, left to right. */
  function Split(s: string, sep: char): (parts: seq<string>)
    ensures |parts| >= 1
    decreases |s|
  {
    if |s| == 0 then [""]
    else
      var rest := Split(s[1..], sep);
      if s[0] == sep then [""] + rest
      else [[s[0]] + rest[0]] + rest[1..]
  }

  /** `parts.join(sep)`. */
  function Join(parts: seq<string>, sep: char): string
    requires |parts| >= 1
    decreases |parts|
  {
    if |parts| == 1 then parts[0] else parts[0] + [sep] + Join(parts[1..], sep)
  }

  /** No part of a split holds the separator. */
  lemma {:induction false} SplitPartsFree(s: string, sep: char)
    ensures forall i :: 0 <= i < |Split(s, sep)| ==> sep !in Split(s, sep)[i]
    decreases |s|
  {
    if |s| > 0 {
      SplitPartsFree(s[1..], sep);
    }
  }

  /** Joining the parts of a split gives back the string. */
  lemma {:induction false} JoinSplit(s: string, sep: char)
    ensures Join(Split(s, sep), sep) == s
    decreases |s|
  {
    if |s| > 0 {
      var rest := Split(s[1..], sep);
      JoinSplit(s[1..], sep);
      if s[0] == sep {
        assert Split(s, sep)[1..] == rest;
      } else {
        var parts := Split(s, sep);
        if |rest| == 1 {
          assert parts == [[s[0]] + rest[0]];
        } else {
          assert parts[1..] == rest[1..];
          assert Join(rest, sep) == rest[0] + [sep] + Join(rest[1..], sep);
        }
      }
    }
  }

  /** Splitting a separator-free string gives that string alone. */
  lemma {:induction false} SplitFree(p: string, sep: char)
    requires sep !in p
    ensures Split(p, sep) == [p]
    decreases |p|
  {
    if |p| > 0 {
      SplitFree(p[1..], sep);
      assert [p[0]] + p[1..] == p;
    }
  }

  /** A separator-free prefix followed by a separator is split off as the first part. */
  lemma {:induction false} SplitAtSeparator(p: string, sep: char, r: string)
    requires sep !in p
    ensures Split(p + [sep] + r, sep) == [p] + Split(r, sep)
    decreases |p|
  {
    if |p| == 0 {
      assert p + [sep] + r == [sep] + r;
      assert ([sep] + r)[1..] == r;
    } else {
      var s := p + [sep] + r;
      assert s[1..] == p[1..] + [sep] + r;
      SplitAtSeparator(p[1..], sep, r);
      assert [p[0]] + p[1..] == p;
    }
  }

  /** Splitting a join of separator-free parts gives back the parts. */
  lemma {:induction false} SplitJoin(parts: seq<string>, sep: char)
    requires |parts| >= 1
    requires forall i :: 0 <= i < |parts| ==> sep !in parts[i]
    ensures Split(Join(parts, sep), sep) == parts
    decreases |parts|
  {
    if |parts| == 1 {
      SplitFree(parts[0], sep);
    } else {
      SplitJoin(parts[1..], sep);
      SplitAtSeparator(parts[0], sep, Join(parts[1..], sep));
      assert [parts[0]] + parts[1..] == parts;
    }
  }

  /** `seg` is the text of `s` before its first `sep`, or all of `s` if it has none. */
  predicate LeadingSegment(s: string, sep: char, seg: string)
  {
    seg <= s && sep !in seg && (|seg| == |s| || s[|seg|] == sep)
  }

  /** At most one string is the leading segment. */
  lemma LeadingSegmentUnique(s: string, sep: char, a: string, b: string)
    requires LeadingSegment(s, sep, a) && LeadingSegment(s, sep, b)
    ensures a == b
  {
    assert forall i :: 0 <= i < |a| && i < |b| ==> a[i] == s[i] == b[i];
  }

  /**
   * The first part of a split is the leading segment; there is a second part
   * exactly when the separator occurs, and the remaining parts are the split of
   * what follows the first separator.
   */
  lemma {:induction false} SplitHead(s: string, sep: char)
    ensures LeadingSegment(s, sep, Split(s, sep)[0])
    ensures |Split(s, sep)| > 1 <==> sep in s
    ensures |Split(s, sep)| > 1 ==>
              |Split(s, sep)[0]| < |s| &&
              Split(s, sep)[1..] == Split(s[|Split(s, sep)[0]| + 1..], sep)
  {
    var parts := Split(s, sep);
    SplitPartsFree(s, sep);
    JoinSplit(s, sep);
    if |parts| == 1 {
      assert s == parts[0];
    } else {
      var tail := Join(parts[1..], sep);
      assert s == parts[0] + [sep] + tail;
      assert s[|parts[0]|] == sep;
      assert s[|parts[0]| + 1..] == tail;
      SplitJoin(parts[1..], sep);
    }
  }
}
