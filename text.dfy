/** The JavaScript string built-ins the core relies on: `startsWith`, `endsWith`,
    `includes` and `split` with a one-character separator. Strings are sequences of
    characters; all comparisons are exact and case-sensitive, as in JavaScript. */
module Text {

  import opened Common

  /** `s.startsWith(prefix)` */
  predicate StartsWith(s: string, prefix: string) {
    |prefix| <= |s| && s[..|prefix|] == prefix
  }

  /** `s.endsWith(suffix)` */
  predicate EndsWith(s: string, suffix: string)
    ensures EndsWith(s, suffix) ==> |suffix| <= |s|
    ensures |suffix| == 0 ==> EndsWith(s, suffix)
  {
    |suffix| <= |s| && s[|s| - |suffix|..] == suffix
  }

  /** `endsWith` holds exactly when the string is some text followed by the suffix. */
  lemma EndsWithIff(s: string, suffix: string)
    ensures EndsWith(s, suffix) <==> exists p :: s == p + suffix
  {
    if EndsWith(s, suffix) {
      assert s == s[..|s| - |suffix|] + suffix;
    }
    if exists p :: s == p + suffix {
      var p :| s == p + suffix;
      assert s[|s| - |suffix|..] == suffix;
    }
  }

  /** `sub` occurs in `s` starting at index `i`. */
  ghost predicate OccursAt(s: string, sub: string, i: int) {
    0 <= i && i + |sub| <= |s| && s[i..i + |sub|] == sub
  }

  /** `s.includes(sub)`: scans the start positions from left to right. */
  function Includes(s: string, sub: string): (found: bool)
    ensures found ==> |sub| <= |s|
    ensures |sub| == 0 ==> found
    ensures StartsWith(s, sub) ==> found
    decreases |s|
  {
    if StartsWith(s, sub) then true
    else if |s| == 0 then false
    else Includes(s[1..], sub)
  }

  /** Past the first character, occurrences in `s` are the occurrences in `s[1..]`,
      shifted by one. */
  lemma OccursShift(s: string, sub: string, i: int)
    requires |s| > 0 && i >= 1
    ensures OccursAt(s, sub, i) <==> OccursAt(s[1..], sub, i - 1)
  {
    if i + |sub| <= |s| {
      assert s[1..][i - 1..i - 1 + |sub|] == s[i..i + |sub|];
    }
  }

  /** `includes` is exactly "occurs at some position". */
  lemma {:induction false} IncludesIff(s: string, sub: string)
    ensures Includes(s, sub) <==> exists i :: OccursAt(s, sub, i)
    decreases |s|
  {
    if StartsWith(s, sub) {
      assert OccursAt(s, sub, 0);
    } else if |s| == 0 {
      forall i ensures !OccursAt(s, sub, i) {
      }
    } else {
      assert !OccursAt(s, sub, 0);
      IncludesIff(s[1..], sub);
      if Includes(s[1..], sub) {
        var j :| OccursAt(s[1..], sub, j);
        OccursShift(s, sub, j + 1);
      } else {
        forall i | OccursAt(s, sub, i) ensures i >= 1 && OccursAt(s[1..], sub, i - 1) {
          OccursShift(s, sub, i);
        }
      }
    }
  }

  /** A string whose characters all differ from the first character of `sub` does not
      include `sub` (used to show that matching is case-sensitive). */
  lemma FirstCharAbsent(s: string, sub: string)
    requires |sub| > 0 && sub[0] !in s
    ensures !Includes(s, sub)
  {
    IncludesIff(s, sub);
    forall i | 0 <= i && i + |sub| <= |s| ensures !OccursAt(s, sub, i) {
      assert s[i..i + |sub|][0] == s[i];
    }
  }

  /** `s.split(sep)` for a one-character separator: the maximal separator-free pieces,
      always at least one (`"".split("@")` is `[""]`). */
  function Split(s: string, sep: char): (parts: seq<string>)
    ensures |parts| >= 1
    decreases |s|
  {
    if |s| == 0 then [""]
    else
      var rest := Split(s[1..], sep);
      if s[0] == sep then [""] + rest
      else [[s[0]] + rest[0]] + rest[1..]
  }

  /** `parts.join(sep)`, the inverse of `Split`. */
  function Join(parts: seq<string>, sep: char): string
    requires |parts| >= 1
    decreases |parts|
  {
    if |parts| == 1 then parts[0] else parts[0] + [sep] + Join(parts[1..], sep)
  }

  /** Splitting loses nothing: joining the pieces gives back the string, and no piece
      contains the separator. */
  lemma {:induction false} SplitJoin(s: string, sep: char)
    ensures Join(Split(s, sep), sep) == s
    ensures forall k :: 0 <= k < |Split(s, sep)| ==> sep !in Split(s, sep)[k]
    decreases |s|
  {
    if |s| > 0 {
      SplitJoin(s[1..], sep);
      var rest := Split(s[1..], sep);
      if s[0] == sep {
        assert Split(s, sep)[1..] == rest;
        assert s == [s[0]] + s[1..];
      } else {
        var parts := Split(s, sep);
        assert parts[1..] == rest[1..];
        if |rest| == 1 {
          assert s == [s[0]] + s[1..];
        } else {
          assert Join(rest, sep) == rest[0] + [sep] + Join(rest[1..], sep);
          assert s == [s[0]] + s[1..];
        }
        forall k | 0 <= k < |parts| ensures sep !in parts[k] {
          if k > 0 {
            assert parts[k] == rest[k];
          }
        }
      }
    }
  }

  /** A separator-free string is a single piece. */
  lemma {:induction false} SplitNoSep(a: string, sep: char)
    requires sep !in a
    ensures Split(a, sep) == [a]
    decreases |a|
  {
    if |a| > 0 {
      SplitNoSep(a[1..], sep);
      assert a == [a[0]] + a[1..];
    }
  }

  /** The first piece is everything before the first separator, and the remaining pieces
      are those of the text after it. */
  lemma {:induction false} SplitAtFirst(a: string, sep: char, b: string)
    requires sep !in a
    ensures Split(a + [sep] + b, sep) == [a] + Split(b, sep)
    decreases |a|
  {
    if |a| == 0 {
      assert a + [sep] + b == [sep] + b;
      assert ([sep] + b)[1..] == b;
    } else {
      SplitAtFirst(a[1..], sep, b);
      var s := a + [sep] + b;
      assert s[1..] == a[1..] + [sep] + b;
      assert a == [a[0]] + a[1..];
    }
  }

  /** `s.split(sep)[k]`, which is `undefined` past the last piece. */
  function Field(s: string, sep: char, k: nat): Option<string> {
    var parts := Split(s, sep);
    if k < |parts| then Some(parts[k]) else None
  }
}
