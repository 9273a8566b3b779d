/**
 * The few JavaScript string operations the components use, restricted to ASCII:
 * `toLowerCase`, `toUpperCase`, `includes`, `split(' ')`, `join('')` and `slice(0, n)`.
 */
module Text {
  import opened Wrappers

  /** `toLowerCase` on one character (ASCII letters only). */
  function LowerChar(c: char): char {
    if 'A' <= c <= 'Z' then (c as int + 32) as char else c
  }

  /** `toUpperCase` on one character (ASCII letters only). */
  function UpperChar(c: char): char {
    if 'a' <= c <= 'z' then (c as int - 32) as char else c
  }

  function Lower(s: string): (r: string)
    ensures |r| == |s|
    ensures forall i :: 0 <= i < |s| ==> r[i] == LowerChar(s[i])
  {
    if s == [] then [] else [LowerChar(s[0])] + Lower(s[1..])
  }

  function Upper(s: string): (r: string)
    ensures |r| == |s|
    ensures forall i :: 0 <= i < |s| ==> r[i] == UpperChar(s[i])
  {
    if s == [] then [] else [UpperChar(s[0])] + Upper(s[1..])
  }

  /** Two strings that differ at most in the case of ASCII letters. */
  predicate SameIgnoringCase(a: string, b: string) {
    |a| == |b| && forall i :: 0 <= i < |a| ==> LowerChar(a[i]) == LowerChar(b[i])
  }

  /** The characters of `s` at positions `i .. i + |p|` spell `p`. */
  predicate OccursAt(s: string, p: string, i: int) {
    0 <= i && i + |p| <= |s| && s[i..i + |p|] == p
  }

  /** `s.includes(p)`: scans the start positions of `s` from left to right. */
  function Includes(s: string, p: string): bool
    decreases |s|
  {
    if |p| > |s| then false
    else if s[..|p|] == p then true
    else Includes(s[1..], p)
  }

  /** `Includes` holds exactly when `p` occurs somewhere in `s`. */
  lemma {:induction false} IncludesIff(s: string, p: string)
    ensures Includes(s, p) <==> exists i :: OccursAt(s, p, i)
    decreases |s|
  {
    if |p| > |s| {
    } else if s[..|p|] == p {
      assert OccursAt(s, p, 0);
    } else {
      IncludesIff(s[1..], p);
      if Includes(s, p) {
        var i :| OccursAt(s[1..], p, i);
        assert s[i + 1..i + 1 + |p|] == s[1..][i..i + |p|];
        assert OccursAt(s, p, i + 1);
      } else {
        forall i | OccursAt(s, p, i) ensures false {
          assert i != 0;
          assert s[1..][i - 1..i - 1 + |p|] == s[i..i + |p|];
          assert OccursAt(s[1..], p, i - 1);
        }
      }
    }
  }

  /** `s.slice(0, n)`: JavaScript clamps the end to the length. */
  function Take(s: string, n: nat): (r: string)
    ensures |r| <= n && |r| <= |s|
    ensures |s| <= n ==> r == s
    ensures |s| > n ==> |r| == n
    ensures r == s[..|r|]
  {
    if |s| <= n then s else s[..n]
  }

  /**
   * `s.split(' ')`: the pieces between single spaces, in order. Two adjacent spaces, or a space
   * at either end, give an empty piece, and the empty string splits into one empty piece.
   */
  function SplitOnSpace(s: string): (words: seq<string>)
    ensures |words| >= 1
  {
    if s == [] then [""]
    else if s[0] == ' ' then [""] + SplitOnSpace(s[1..])
    else
      var rest := SplitOnSpace(s[1..]);
      [[s[0]] + rest[0]] + rest[1..]
  }

  /** Splitting loses exactly the separators: joining the pieces back with spaces gives `s`. */
  function JoinWithSpace(words: seq<string>): string
    requires |words| >= 1
  {
    if |words| == 1 then words[0] else words[0] + " " + JoinWithSpace(words[1..])
  }

  lemma {:induction false} SplitJoinRoundTrip(s: string)
    ensures JoinWithSpace(SplitOnSpace(s)) == s
  {
    if s == [] {
    } else if s[0] == ' ' {
      SplitJoinRoundTrip(s[1..]);
      assert s == " " + s[1..];
    } else {
      var rest := SplitOnSpace(s[1..]);
      SplitJoinRoundTrip(s[1..]);
      if |rest| == 1 {
        assert s == [s[0]] + rest[0];
      } else {
        assert JoinWithSpace(rest) == rest[0] + " " + JoinWithSpace(rest[1..]);
        assert rest[1..][1..] == rest[2..];
        assert s == [s[0]] + rest[0] + " " + JoinWithSpace(rest[1..]);
      }
    }
  }

  /** No piece of a split contains the separator. */
  lemma {:induction false} SplitPiecesHaveNoSpace(s: string)
    ensures forall w :: w in SplitOnSpace(s) ==> ' ' !in w
  {
    if s != [] {
      SplitPiecesHaveNoSpace(s[1..]);
      if s[0] != ' ' {
        var rest := SplitOnSpace(s[1..]);
        assert rest[0] in rest;
        forall w | w in SplitOnSpace(s) ensures ' ' !in w {
          if w != [s[0]] + rest[0] {
            assert w in rest[1..];
          }
        }
      }
    }
  }

  /**
   * `value && <shown>` in JSX: an optional string is rendered only when it is
   * present and not empty, since the empty string is falsy.
   */
  function ShownIfNonEmpty(value: Option<string>): (shown: Option<string>)
    ensures shown.Some? <==> value.Some? && value.value != ""
    ensures shown.Some? ==> shown == value
  {
    if value.Some? && value.value != "" then value else None
  }
}
