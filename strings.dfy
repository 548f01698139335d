/**
 * The JavaScript string operations the target-identifier rule relies on:
 * `String.prototype.includes`, the anchored test `/^https?:\/\//`, and
 * `String.prototype.split` with a one-character separator followed by
 * taking the last element.
 */
module Strings {

  /** `sub` occurs in `s` starting at index `i`. */
  ghost predicate OccursAt(s: string, sub: string, i: int) {
    0 <= i && i + |sub| <= |s| && s[i..i + |sub|] == sub
  }

  /** `s.includes(sub)`: scans `s` left to right for an occurrence of `sub`. */
  predicate Includes(s: string, sub: string)
    decreases |s|
  {
    if sub <= s then true
    else if s == [] then false
    else Includes(s[1..], sub)
  }

  /** `includes` answers exactly whether `sub` occurs somewhere in `s`. */
  lemma {:induction false} IncludesIffOccurs(s: string, sub: string)
    ensures Includes(s, sub) <==> exists i :: OccursAt(s, sub, i)
    decreases |s|
  {
    if sub <= s {
      assert s[0..|sub|] == sub;
      assert OccursAt(s, sub, 0);
    } else if s != [] {
      forall i | OccursAt(s, sub, i) ensures i > 0 && OccursAt(s[1..], sub, i - 1) {
        if i > 0 {
          assert s[1..][i - 1..i - 1 + |sub|] == s[i..i + |sub|];
        }
      }
      forall j | OccursAt(s[1..], sub, j) ensures OccursAt(s, sub, j + 1) {
        assert s[1..][j..j + |sub|] == s[j + 1..j + 1 + |sub|];
      }
      IncludesIffOccurs(s[1..], sub);
    }
  }

  /** `/^https?:\/\//.test(s)`: the value starts with `http://` or `https://`. */
  predicate HasHttpScheme(s: string) {
    "http://" <= s || "https://" <= s
  }

  /** `s.split(sep)` for a one-character separator: the maximal runs between
      separators, including empty runs at either end; never an empty list. */
  function Split(s: string, sep: char): (parts: seq<string>)
    ensures |parts| >= 1
    decreases |s|
  {
    if s == [] then [[]]
    else
      var rest := Split(s[1..], sep);
      if s[0] == sep then [[]] + rest
      else [[s[0]] + rest[0]] + rest[1..]
  }

  /** `parts.join(sep)`. */
  function Join(parts: seq<string>, sep: char): string
    requires |parts| >= 1
    decreases |parts|
  {
    if |parts| == 1 then parts[0]
    else parts[0] + [sep] + Join(parts[1..], sep)
  }

  /** No element of `parts` contains the separator. */
  ghost predicate SeparatorFree(parts: seq<string>, sep: char) {
    forall k :: 0 <= k < |parts| ==> sep !in parts[k]
  }

  /** Splitting never leaves a separator inside a piece. */
  lemma {:induction false} SplitPiecesAreSeparatorFree(s: string, sep: char)
    ensures SeparatorFree(Split(s, sep), sep)
    decreases |s|
  {
    if s != [] {
      SplitPiecesAreSeparatorFree(s[1..], sep);
      var rest := Split(s[1..], sep);
      if s[0] != sep {
        assert sep !in [s[0]] + rest[0];
        var parts := Split(s, sep);
        forall k | 0 <= k < |parts| ensures sep !in parts[k] {
          if k > 0 { assert parts[k] == rest[k]; }
        }
      }
    }
  }

  /** Joining the pieces of a split with the same separator restores the string. */
  lemma {:induction false} JoinSplit(s: string, sep: char)
    ensures Join(Split(s, sep), sep) == s
    decreases |s|
  {
    if s != [] {
      JoinSplit(s[1..], sep);
      var rest := Split(s[1..], sep);
      if s[0] == sep {
        assert ([[]] + rest)[1..] == rest;
      } else {
        var parts := [[s[0]] + rest[0]] + rest[1..];
        if |rest| > 1 {
          assert parts[1..] == rest[1..];
          assert Join(rest, sep) == rest[0] + [sep] + Join(rest[1..], sep);
        }
      }
    }
  }

  /** Splitting a separator-free prefix followed by a separator peels off one piece. */
  lemma {:induction false} SplitAtSeparator(a: string, sep: char, t: string)
    requires sep !in a
    ensures Split(a + [sep] + t, sep) == [a] + Split(t, sep)
    decreases |a|
  {
    if a == [] {
      assert a + [sep] + t == [sep] + t;
      assert ([sep] + t)[1..] == t;
    } else {
      var s := a + [sep] + t;
      assert s[0] == a[0];
      assert s[1..] == a[1..] + [sep] + t;
      SplitAtSeparator(a[1..], sep, t);
      assert [a[0]] + a[1..] == a;
    }
  }

  /** A separator-free string splits into itself alone. */
  lemma {:induction false} SplitSeparatorFree(a: string, sep: char)
    requires sep !in a
    ensures Split(a, sep) == [a]
    decreases |a|
  {
    if a != [] {
      SplitSeparatorFree(a[1..], sep);
      assert [a[0]] + a[1..] == a;
    }
  }

  /** Splitting a join of separator-free pieces gives the pieces back. */
  lemma {:induction false} SplitJoin(parts: seq<string>, sep: char)
    requires |parts| >= 1 && SeparatorFree(parts, sep)
    ensures Split(Join(parts, sep), sep) == parts
    decreases |parts|
  {
    assert sep !in parts[0];
    if |parts| == 1 {
      SplitSeparatorFree(parts[0], sep);
    } else {
      SplitJoin(parts[1..], sep);
      SplitAtSeparator(parts[0], sep, Join(parts[1..], sep));
    }
  }

  /** `pathElements[pathElements.length - 1]` after `s.split('/')`. */
  function LastSegment(s: string): string {
    var parts := Split(s, '/');
    parts[|parts| - 1]
  }

  /** `seg` is the final path segment of `s`: a suffix of `s` holding no `/`
      that is either all of `s` or starts right after a `/`. */
  ghost predicate IsFinalSegment(seg: string, s: string) {
    && |seg| <= |s|
    && s[|s| - |seg|..] == seg
    && '/' !in seg
    && (|seg| == |s| || s[|s| - |seg| - 1] == '/')
  }

  /** A split into more than one piece means the separator occurs. */
  lemma {:induction false} SplitManyHasSeparator(s: string, sep: char)
    requires |Split(s, sep)| > 1
    ensures sep in s
    decreases |s|
  {
    if s[0] != sep {
      SplitManyHasSeparator(s[1..], sep);
    }
  }

  /** One step of `LastSegment`: the first character joins the last segment
      only when no `/` follows it. */
  lemma LastSegmentStep(s: string)
    requires s != []
    ensures LastSegment(s) ==
      if s[0] != '/' && |Split(s[1..], '/')| == 1 then [s[0]] + LastSegment(s[1..])
      else LastSegment(s[1..])
  {
  }

  /** The last element of a split by `/` is the final path segment. */
  lemma {:induction false} LastSegmentIsFinalSegment(s: string)
    ensures IsFinalSegment(LastSegment(s), s)
    decreases |s|
  {
    if s != [] {
      LastSegmentIsFinalSegment(s[1..]);
      LastSegmentStep(s);
      var r := LastSegment(s[1..]);
      if s[0] != '/' && |Split(s[1..], '/')| == 1 {
        JoinSplit(s[1..], '/');
        FinalSegmentExtend(s, r);
      } else {
        if s[0] != '/' {
          SplitManyHasSeparator(s[1..], '/');
        }
        FinalSegmentOfTail(s, r);
      }
    }
  }

  /** A whole `/`-free tail, with a non-`/` character in front, is the whole string's final segment. */
  lemma FinalSegmentExtend(s: string, r: string)
    requires s != [] && s[0] != '/' && r == s[1..] && '/' !in r
    ensures IsFinalSegment([s[0]] + r, s)
  {
    assert [s[0]] + s[1..] == s;
  }

  /** The tail's final segment stays final in the whole string when the tail
      holds a `/` or the string starts with one. */
  lemma FinalSegmentOfTail(s: string, r: string)
    requires s != [] && IsFinalSegment(r, s[1..])
    requires s[0] == '/' || '/' in s[1..]
    ensures IsFinalSegment(r, s)
  {
    assert s[1..][|s| - 1 - |r|..] == s[|s| - |r|..];
    if |r| < |s| - 1 {
      assert s[1..][|s| - 1 - |r| - 1] == s[|s| - |r| - 1];
    }
  }

  /** At most one suffix of `s` is a final path segment. */
  lemma FinalSegmentUnique(s: string, a: string, b: string)
    requires IsFinalSegment(a, s) && IsFinalSegment(b, s)
    ensures a == b
  {
  }

  /** The last segment is the only final path segment: any suffix free of `/`
      that begins the string or follows a `/` is what `split('/')` ends with. */
  lemma LastSegmentCharacterized(s: string, seg: string)
    ensures seg == LastSegment(s) <==> IsFinalSegment(seg, s)
  {
    LastSegmentIsFinalSegment(s);
    if IsFinalSegment(seg, s) {
      FinalSegmentUnique(s, seg, LastSegment(s));
    }
  }
}
