/** The handful of Go `strings` functions the adapter relies on, over
    `seq<char>`: prefix and substring tests, ASCII lower-casing, white-space
    trimming, joining and replacing. Each is stated so that the properties the
    mail code needs (a prefix survives truncation, trimming keeps a slice of
    the input, ...) are available as contracts. */
module Text {

  /** `strings.HasPrefix`. */
  predicate HasPrefix(s: string, p: string)
  {
    |p| <= |s| && s[..|p|] == p
  }

  /** `sub` occurs in `s` starting at index `i`. */
  predicate OccursAt(s: string, sub: string, i: int)
  {
    0 <= i && i + |sub| <= |s| && s[i..i + |sub|] == sub
  }

  /** `strings.Contains`, by scanning from the left. */
  predicate Contains(s: string, sub: string)
    decreases |s|
  {
    HasPrefix(s, sub) || (|s| > 0 && Contains(s[1..], sub))
  }

  /** An occurrence at index `i` is found by the scan. */
  lemma {:induction false} OccursContains(s: string, sub: string, i: int)
    requires OccursAt(s, sub, i)
    ensures Contains(s, sub)
    decreases i
  {
    if i == 0 {
      assert s[..|sub|] == s[0..0 + |sub|];
    } else {
      assert s[1..][i - 1..i - 1 + |sub|] == s[i..i + |sub|];
      OccursContains(s[1..], sub, i - 1);
    }
  }

  /** The scanning definition agrees with "occurs at some index". */
  lemma {:induction false} ContainsIff(s: string, sub: string)
    ensures Contains(s, sub) <==> exists i :: OccursAt(s, sub, i)
    decreases |s|
  {
    if HasPrefix(s, sub) {
      assert OccursAt(s, sub, 0);
    } else if Contains(s, sub) {
      ContainsIff(s[1..], sub);
      var i :| OccursAt(s[1..], sub, i);
      assert s[1..][i..i + |sub|] == s[i + 1..i + 1 + |sub|];
      assert OccursAt(s, sub, i + 1);
    }
    forall i | OccursAt(s, sub, i) ensures Contains(s, sub) {
      OccursContains(s, sub, i);
    }
  }

  /** A substring test can only succeed when the first character of the
      pattern occurs in the text. */
  lemma {:induction false} ContainsNeedsFirstChar(s: string, sub: string)
    requires |sub| > 0 && sub[0] !in s
    ensures !Contains(s, sub)
    decreases |s|
  {
    if |s| > 0 {
      assert s[0] != sub[0];
      assert !HasPrefix(s, sub);
      assert sub[0] !in s[1..] by {
        forall k | 0 <= k < |s| - 1 ensures s[1..][k] != sub[0] {
          assert s[1..][k] == s[k + 1];
        }
      }
      ContainsNeedsFirstChar(s[1..], sub);
    }
  }

  /** ASCII lower-casing of one character. */
  function LowerChar(c: char): (r: char)
    ensures 'A' <= c <= 'Z' ==> 'a' <= r <= 'z'
    ensures !('A' <= c <= 'Z') ==> r == c
  {
    if 'A' <= c <= 'Z' then (c as int + 32) as char else c
  }

  /** `strings.ToLower`, restricted to ASCII letters. */
  function ToLower(s: string): (r: string)
    ensures |r| == |s|
    ensures forall i :: 0 <= i < |s| ==> r[i] == LowerChar(s[i])
    ensures forall i :: 0 <= i < |r| ==> !('A' <= r[i] <= 'Z')
  {
    seq(|s|, i requires 0 <= i < |s| => LowerChar(s[i]))
  }

  /** Lower-casing twice is lower-casing once. */
  lemma ToLowerIdempotent(s: string)
    ensures ToLower(ToLower(s)) == ToLower(s)
  {
    var l := ToLower(s);
    forall i | 0 <= i < |l| ensures ToLower(l)[i] == l[i] {
      assert !('A' <= l[i] <= 'Z');
    }
  }

  /** Replacing an upper-case letter by its lower-case form leaves the
      lower-cased string unchanged: case is ignored letter by letter. */
  lemma ToLowerFoldsCase(s: string, i: nat)
    requires i < |s| && 'A' <= s[i] <= 'Z'
    ensures ToLower(s) == ToLower(s[i := (s[i] as int + 32) as char])
  {
    var t := s[i := (s[i] as int + 32) as char];
    forall k | 0 <= k < |s| ensures ToLower(s)[k] == ToLower(t)[k] {
      if k == i {
        assert 'a' <= t[k] <= 'z';
      }
    }
  }

  /** Lower-casing commutes with taking a prefix. */
  lemma ToLowerPrefix(s: string, n: nat)
    requires n <= |s|
    ensures ToLower(s)[..n] == ToLower(s[..n])
  {
  }

  /** The white-space characters `strings.TrimSpace` removes (ASCII). */
  predicate IsSpace(c: char)
  {
    c == ' ' || '\t' <= c <= '\r'
  }

  function TrimLeft(s: string): (r: string)
    ensures |r| <= |s| && r == s[|s| - |r|..]
    ensures forall i :: 0 <= i < |s| - |r| ==> IsSpace(s[i])
    ensures r == [] || !IsSpace(r[0])
    decreases |s|
  {
    if |s| > 0 && IsSpace(s[0]) then TrimLeft(s[1..]) else s
  }

  function TrimRight(s: string): (r: string)
    ensures |r| <= |s| && r == s[..|r|]
    ensures forall i :: |r| <= i < |s| ==> IsSpace(s[i])
    ensures r == [] || !IsSpace(r[|r| - 1])
    decreases |s|
  {
    if |s| > 0 && IsSpace(s[|s| - 1]) then TrimRight(s[..|s| - 1]) else s
  }

  /** `r` is the contiguous piece of `s` that starts at index `a`. */
  predicate SliceAt(s: string, r: string, a: int)
  {
    0 <= a <= |s| - |r| && r == s[a..a + |r|]
  }

  /** `strings.TrimSpace`: the result is the slice of `s` left once the
      leading and trailing white space is removed. */
  function TrimSpace(s: string): (r: string)
    ensures |r| <= |s|
    ensures exists a :: SliceAt(s, r, a)
    ensures r == [] || (!IsSpace(r[0]) && !IsSpace(r[|r| - 1]))
    ensures (s == [] || (!IsSpace(s[0]) && !IsSpace(s[|s| - 1]))) ==> r == s
  {
    var l := TrimLeft(s);
    var r := TrimRight(l);
    SliceOfSuffix(s, l, r);
    r
  }

  /** A prefix of a suffix of `s` is a slice of `s`. */
  lemma SliceOfSuffix(s: string, l: string, r: string)
    requires |l| <= |s| && l == s[|s| - |l|..]
    requires |r| <= |l| && r == l[..|r|]
    ensures SliceAt(s, r, |s| - |l|)
  {
    assert r == s[|s| - |l|..|s| - |l| + |r|];
  }

  /** Every character of a trimmed string occurs in the original. */
  lemma TrimSpaceChars(s: string, c: char)
    requires c in TrimSpace(s)
    ensures c in s
  {
    var r := TrimSpace(s);
    var a :| SliceAt(s, r, a);
    SliceChars(s, r, a, c);
  }

  /** Every character of a slice occurs in the whole. */
  lemma SliceChars(s: string, r: string, a: int, c: char)
    requires SliceAt(s, r, a) && c in r
    ensures c in s
  {
    var k :| 0 <= k < |r| && r[k] == c;
    assert s[a + k] == c;
  }

  /** `strings.Join`. */
  function Join(xs: seq<string>, sep: string): (r: string)
    ensures |xs| == 0 ==> r == ""
    ensures |xs| == 1 ==> r == xs[0]
  {
    if |xs| == 0 then ""
    else if |xs| == 1 then xs[0]
    else xs[0] + sep + Join(xs[1..], sep)
  }

  /** `strings.ReplaceAll` for a non-empty pattern: non-overlapping
      occurrences, left to right. */
  function ReplaceAll(s: string, pattern: string, rep: string): (r: string)
    requires |pattern| > 0
    decreases |s|
  {
    if |s| < |pattern| then s
    else if s[..|pattern|] == pattern then rep + ReplaceAll(s[|pattern|..], pattern, rep)
    else [s[0]] + ReplaceAll(s[1..], pattern, rep)
  }

  /** A first character that does not begin an occurrence of the pattern
      is kept. */
  lemma {:induction false} ReplaceAllHead(c: char, rest: string, pattern: string, rep: string)
    requires |pattern| > 0
    requires |rest| + 1 >= |pattern| ==> ([c] + rest)[..|pattern|] != pattern
    ensures ReplaceAll([c] + rest, pattern, rep) == [c] + ReplaceAll(rest, pattern, rep)
  {
    var s := [c] + rest;
    assert s[1..] == rest;
    if |s| < |pattern| {
      assert ReplaceAll(rest, pattern, rep) == rest;
    }
  }

  /** Text without the pattern's first character is passed over as it is. */
  lemma {:induction false} ReplaceAllSkip(a: string, rest: string, pattern: string, rep: string)
    requires |pattern| > 0 && pattern[0] !in a
    ensures ReplaceAll(a + rest, pattern, rep) == a + ReplaceAll(rest, pattern, rep)
    decreases |a|
  {
    if a == [] {
      assert a + rest == rest;
    } else {
      assert pattern[0] !in a[1..] by {
        forall k | 0 <= k < |a| - 1 ensures a[1..][k] == a[k + 1] { }
      }
      assert a + rest == [a[0]] + (a[1..] + rest);
      assert |a[1..] + rest| + 1 >= |pattern| ==> ([a[0]] + (a[1..] + rest))[..|pattern|][0] != pattern[0];
      ReplaceAllHead(a[0], a[1..] + rest, pattern, rep);
      ReplaceAllSkip(a[1..], rest, pattern, rep);
      var x := ReplaceAll(rest, pattern, rep);
      assert a == [a[0]] + a[1..];
      assert [a[0]] + (a[1..] + x) == a + x;
    }
  }

  /** Text without the pattern's first character has nothing replaced. */
  lemma ReplaceAllAbsent(s: string, pattern: string, rep: string)
    requires |pattern| > 0 && pattern[0] !in s
    ensures ReplaceAll(s, pattern, rep) == s
  {
    ReplaceAllSkip(s, "", pattern, rep);
    assert s + "" == s;
  }

  /** An occurrence of the pattern at the front is replaced. */
  lemma {:induction false} ReplaceAllHit(rest: string, pattern: string, rep: string)
    requires |pattern| > 0
    ensures ReplaceAll(pattern + rest, pattern, rep) == rep + ReplaceAll(rest, pattern, rep)
  {
    var s := pattern + rest;
    assert s[..|pattern|] == pattern && s[|pattern|..] == rest;
  }

  /** A piece that starts like the pattern but differs from it at some
      position `k`, and has no other start of the pattern, is kept. */
  lemma {:induction false} ReplaceAllMiss(q: string, rest: string, pattern: string, rep: string, k: nat)
    requires |pattern| > 0 && |q| > 0 && pattern[0] !in q[1..]
    requires k < |q| && k < |pattern| && q[k] != pattern[k]
    ensures ReplaceAll(q + rest, pattern, rep) == q + ReplaceAll(rest, pattern, rep)
  {
    var tail := q[1..] + rest;
    var s := q + rest;
    assert s == [q[0]] + tail;
    if |s| >= |pattern| {
      assert s[..|pattern|][k] == q[k];
    }
    ReplaceAllHead(q[0], tail, pattern, rep);
    ReplaceAllSkip(q[1..], rest, pattern, rep);
    var x := ReplaceAll(rest, pattern, rep);
    assert q == [q[0]] + q[1..];
    assert [q[0]] + (q[1..] + x) == q + x;
  }

  /** After text without the pattern's first character, a piece that
      differs from the pattern at position `k` is kept. */
  lemma ReplaceAllKept(a: string, q: string, rest: string, pattern: string, rep: string, k: nat)
    requires |pattern| > 0 && pattern[0] !in a
    requires |q| > 0 && pattern[0] !in q[1..]
    requires k < |q| && k < |pattern| && q[k] != pattern[k]
    ensures ReplaceAll(a + q + rest, pattern, rep) == a + q + ReplaceAll(rest, pattern, rep)
  {
    assert a + q + rest == a + (q + rest);
    ReplaceAllSkip(a, q + rest, pattern, rep);
    ReplaceAllMiss(q, rest, pattern, rep, k);
  }

  /** After text without the pattern's first character, the next
      occurrence of the pattern is replaced. */
  lemma ReplaceAllReplaced(a: string, rest: string, pattern: string, rep: string)
    requires |pattern| > 0 && pattern[0] !in a
    ensures ReplaceAll(a + pattern + rest, pattern, rep) == a + rep + ReplaceAll(rest, pattern, rep)
  {
    assert a + pattern + rest == a + (pattern + rest);
    ReplaceAllSkip(a, pattern + rest, pattern, rep);
    ReplaceAllHit(rest, pattern, rep);
  }

  /** Joining one more element appends the separator and the element. */
  lemma {:induction false} JoinSnoc(xs: seq<string>, x: string, sep: string)
    requires |xs| > 0
    ensures Join(xs + [x], sep) == Join(xs, sep) + sep + x
    decreases |xs|
  {
    if |xs| == 1 {
      assert xs + [x] == [xs[0], x];
      assert [xs[0], x][1..] == [x];
    } else {
      assert (xs + [x])[1..] == xs[1..] + [x];
      JoinSnoc(xs[1..], x, sep);
    }
  }

  /** The 200-character cut applied to snippets and previews: a longer text
      keeps its first 197 characters followed by "...". */
  function Abbreviate(s: string): (r: string)
    ensures |r| <= 200
    ensures |s| <= 200 ==> r == s
    ensures |s| > 200 ==> |r| == 200 && HasPrefix(r, s[..197]) && r[197..] == "..."
  {
    if |s| > 200 then s[..197] + "..." else s
  }
}
