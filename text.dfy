/** The Python string operations the modelled code uses, on ASCII-cased text. */
module Text {

  /** `str.lower()` on one character; only the ASCII letters A-Z are folded. */
  function LowerChar(c: char): char {
    if 'A' <= c <= 'Z' then (c as int - 'A' as int + 'a' as int) as char else c
  }

  /** `str.lower()`: every capital folded to its small letter, every other character kept. */
  function Lower(s: string): (r: string)
    ensures |r| == |s|
    ensures IsLowerCase(r)
    ensures forall i :: 0 <= i < |s| && !('A' <= s[i] <= 'Z') ==> r[i] == s[i]
    ensures forall i :: 0 <= i < |s| && 'A' <= s[i] <= 'Z' ==> r[i] as int == s[i] as int + 32
    ensures forall i :: 0 <= i < |s| ==> r[i] == LowerChar(s[i])
  {
    seq(|s|, i requires 0 <= i < |s| => LowerChar(s[i]))
  }

  /** No ASCII capital letter occurs. */
  predicate IsLowerCase(s: string) {
    forall i :: 0 <= i < |s| ==> !('A' <= s[i] <= 'Z')
  }

  /** `p` occurs in `s` starting at position `i`. */
  predicate OccursAt(p: string, s: string, i: int) {
    0 <= i && i + |p| <= |s| && s[i..i + |p|] == p
  }

  /** Python's `p in s` for strings. */
  function IsSubstring(p: string, s: string): bool
    decreases |s|
  {
    |p| <= |s| && (s[..|p|] == p || (|s| > 0 && IsSubstring(p, s[1..])))
  }

  /** The scan above finds `p` exactly when some position of `s` starts an occurrence of `p`. */
  lemma {:induction false} SubstringWitness(p: string, s: string)
    ensures IsSubstring(p, s) <==> exists i :: OccursAt(p, s, i)
    decreases |s|
  {
    if |p| <= |s| {
      if s[..|p|] == p {
        assert OccursAt(p, s, 0);
      } else {
        assert !OccursAt(p, s, 0);
        if |s| > 0 {
          SubstringWitness(p, s[1..]);
          if IsSubstring(p, s[1..]) {
            var i :| OccursAt(p, s[1..], i);
            assert s[1..][i..i + |p|] == s[i + 1..i + 1 + |p|];
            assert OccursAt(p, s, i + 1);
          }
          if exists i :: OccursAt(p, s, i) {
            var i :| OccursAt(p, s, i);
            assert s[1..][i - 1..i - 1 + |p|] == s[i..i + |p|];
            assert OccursAt(p, s[1..], i - 1);
          }
        }
      }
    }
  }

  /** Lower-casing commutes with taking a slice. */
  lemma LowerSlice(s: string, i: nat, j: nat)
    requires i <= j <= |s|
    ensures Lower(s)[i..j] == Lower(s[i..j])
  {
  }

  /** Python's `sep.join(xs)`. */
  function Join(sep: string, xs: seq<string>): string
    decreases |xs|
  {
    if |xs| == 0 then "" else if |xs| == 1 then xs[0] else xs[0] + sep + Join(sep, xs[1..])
  }

  /** Joining one more piece appends the separator and that piece: `join` keeps the input order. */
  lemma {:induction false} JoinAppend(sep: string, xs: seq<string>, y: string)
    requires |xs| > 0
    ensures Join(sep, xs + [y]) == Join(sep, xs) + sep + y
    decreases |xs|
  {
    if |xs| > 1 {
      assert (xs + [y])[1..] == xs[1..] + [y];
      JoinAppend(sep, xs[1..], y);
    } else {
      assert (xs + [y])[1..] == [y];
    }
  }

  /** Python's `s.split("\n\n")`: the text between non-overlapping blank-line separators, scanning from the left. */
  function SplitBlankLines(s: string): seq<string> {
    SplitFrom(s, "")
  }

  /** Scanning `s` with `piece` already read into the current part. */
  function SplitFrom(s: string, piece: string): seq<string>
    decreases |s|
  {
    if |s| >= 2 && s[0] == '\n' && s[1] == '\n' then [piece] + SplitFrom(s[2..], "")
    else if |s| == 0 then [piece]
    else SplitFrom(s[1..], piece + [s[0]])
  }

  lemma {:induction false} SplitSkipsLine(x: string, rest: string, piece: string)
    requires '\n' !in x
    ensures SplitFrom(x + rest, piece) == SplitFrom(rest, piece + x)
    decreases |x|
  {
    if x == [] {
      assert x + rest == rest;
      assert piece + x == piece;
    } else {
      assert x[0] in x;
      assert (x + rest)[1..] == x[1..] + rest;
      assert '\n' !in x[1..] by {
        forall k | 0 <= k < |x[1..]| ensures x[1..][k] != '\n' {
          assert x[1..][k] == x[k + 1];
        }
      }
      SplitSkipsLine(x[1..], rest, piece + [x[0]]);
      assert piece + [x[0]] + x[1..] == piece + x;
    }
  }

  /** Joining with blank lines loses nothing when no piece contains a line break: splitting recovers the pieces. */
  lemma {:induction false} SplitJoinRoundTrip(xs: seq<string>)
    requires |xs| > 0
    requires forall i :: 0 <= i < |xs| ==> '\n' !in xs[i]
    ensures SplitBlankLines(Join("\n\n", xs)) == xs
    decreases |xs|
  {
    if |xs| == 1 {
      SplitSkipsLine(xs[0], "", "");
      assert xs[0] + "" == xs[0];
      assert "" + xs[0] == xs[0];
    } else {
      var rest := Join("\n\n", xs[1..]);
      assert Join("\n\n", xs) == xs[0] + ("\n\n" + rest);
      SplitSkipsLine(xs[0], "\n\n" + rest, "");
      assert "" + xs[0] == xs[0];
      assert ("\n\n" + rest)[2..] == rest;
      SplitJoinRoundTrip(xs[1..]);
      assert xs == [xs[0]] + xs[1..];
    }
  }
}
