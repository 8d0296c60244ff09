/** The string primitives of JavaScript that the application relies on:
    `includes`, `toLowerCase` (ASCII letters only), `trim`, and `split` on
    runs of a character class (`/\s+/`, `/[.!?]+/`). Strings are sequences
    of characters; `length` is `|s|`. */
module Text {
  import opened Seqs

  /** ECMAScript WhiteSpace and LineTerminator: what `\s` matches and what
      `trim` removes. */
  predicate IsSpace(c: char)
  {
    c == ' ' || c == '\t' || c == '\n' || c == '\r' || c == '\U{000B}' || c == '\U{000C}' ||
    c == '\U{00A0}' || c == '\U{1680}' || ('\U{2000}' <= c <= '\U{200A}') ||
    c == '\U{2028}' || c == '\U{2029}' || c == '\U{202F}' || c == '\U{205F}' ||
    c == '\U{3000}' || c == '\U{FEFF}'
  }

  /** `[A-Z]` */
  predicate IsAsciiUpper(c: char) { 'A' <= c <= 'Z' }

  /** `[a-zA-Z]` */
  predicate IsAsciiLetter(c: char) { 'A' <= c <= 'Z' || 'a' <= c <= 'z' }

  /** `\w`, that is `[A-Za-z0-9_]` */
  predicate IsWordChar(c: char) { IsAsciiLetter(c) || '0' <= c <= '9' || c == '_' }

  /** `[.!?]` */
  predicate IsSentenceEnd(c: char) { c == '.' || c == '!' || c == '?' }

  function LowerChar(c: char): (r: char)
    ensures !IsAsciiUpper(r)
    ensures IsAsciiUpper(c) ==> r as int == c as int + 32
    ensures !IsAsciiUpper(c) ==> r == c
  {
    if IsAsciiUpper(c) then (c as int + 32) as char else c
  }

  /** `toLowerCase` restricted to ASCII letters. */
  function Lower(s: string): (r: string)
    ensures |r| == |s|
    ensures forall i :: 0 <= i < |s| ==> r[i] == LowerChar(s[i])
  {
    seq(|s|, i requires 0 <= i < |s| => LowerChar(s[i]))
  }

  // ---------------------------------------------------------------------
  // `s.includes(p)`

  /** The characters of `p` from index `k` on occur in `s` from `i + k` on. */
  predicate MatchFrom(s: string, p: string, i: nat, k: nat)
    requires i + |p| <= |s|
    decreases |p| - k
  {
    k >= |p| || (s[i + k] == p[k] && MatchFrom(s, p, i, k + 1))
  }

  /** `p` occurs in `s` at some position `i' >= i`. */
  predicate ContainsFrom(s: string, p: string, i: nat)
    decreases |s| - i
  {
    i + |p| <= |s| && (MatchFrom(s, p, i, 0) || ContainsFrom(s, p, i + 1))
  }

  /** `s.includes(p)` */
  predicate Contains(s: string, p: string)
  {
    ContainsFrom(s, p, 0)
  }

  lemma {:induction false} MatchFromIff(s: string, p: string, i: nat, k: nat)
    requires i + |p| <= |s| && k <= |p|
    ensures MatchFrom(s, p, i, k) <==> s[i + k..i + |p|] == p[k..]
    decreases |p| - k
  {
    if k < |p| {
      MatchFromIff(s, p, i, k + 1);
      assert s[i + k..i + |p|] == [s[i + k]] + s[i + k + 1..i + |p|];
      assert p[k..] == [p[k]] + p[k + 1..];
    }
  }

  /** `p` occurs in `s` at index `j`. */
  ghost predicate OccursAt(s: string, p: string, j: nat)
  {
    j + |p| <= |s| && s[j..j + |p|] == p
  }

  lemma {:induction false} ContainsFromIff(s: string, p: string, i: nat)
    ensures ContainsFrom(s, p, i) <==> exists j: nat :: i <= j && OccursAt(s, p, j)
    decreases |s| - i
  {
    if i + |p| <= |s| {
      MatchFromIff(s, p, i, 0);
      ContainsFromIff(s, p, i + 1);
      assert p[0..] == p;
      if MatchFrom(s, p, i, 0) {
        assert OccursAt(s, p, i);
      }
      if exists j: nat :: i <= j && OccursAt(s, p, j) {
        var j: nat :| i <= j && OccursAt(s, p, j);
        if j > i {
          assert i + 1 <= j;
        }
      }
    }
  }

  /** `includes` means: some window of `s` equals `p`. */
  lemma ContainsIff(s: string, p: string)
    ensures Contains(s, p) <==> exists j: nat :: OccursAt(s, p, j)
  {
    ContainsFromIff(s, p, 0);
  }

  lemma ContainsAt(s: string, p: string, j: nat)
    requires OccursAt(s, p, j)
    ensures Contains(s, p)
  {
    ContainsIff(s, p);
  }

  /** A character-wise match at `i` is an occurrence. */
  lemma ContainsWitness(s: string, p: string, i: nat)
    requires i + |p| <= |s| && MatchFrom(s, p, i, 0)
    ensures Contains(s, p)
  {
    MatchFromIff(s, p, i, 0);
    assert p[0..] == p;
    ContainsAt(s, p, i);
  }

  /** A pattern with a character that `s` lacks does not occur in `s`. */
  lemma MissingChar(s: string, p: string, c: char)
    requires c in p && c !in s
    ensures !Contains(s, p)
  {
    ContainsChars(s, p);
  }

  /** Every character of an occurring pattern is a character of `s`. */
  lemma ContainsChars(s: string, p: string)
    ensures Contains(s, p) ==> forall c :: c in p ==> c in s
  {
    ContainsIff(s, p);
    if Contains(s, p) {
      var j: nat :| OccursAt(s, p, j);
      forall c | c in p ensures c in s {
        var k :| 0 <= k < |p| && p[k] == c;
        assert s[j + k] == s[j..j + |p|][k];
      }
    }
  }

  /** An occurrence that straddles the boundary of `a + b` contains `b[0]`. */
  lemma StraddleHasFirst(a: string, b: string, p: string, j: nat)
    requires OccursAt(a + b, p, j)
    ensures j < |a| < j + |p| ==> b[0] in p
  {
    if j < |a| < j + |p| {
      assert p[|a| - j] == (a + b)[|a|];
    }
  }

  /** A pattern that does not contain the first character of `b` cannot
      straddle the boundary between `a` and `b`. */
  lemma ContainsAppend(a: string, b: string, p: string)
    requires |b| > 0 && b[0] !in p
    ensures Contains(a + b, p) <==> Contains(a, p) || Contains(b, p)
  {
    ContainsIff(a + b, p);
    ContainsIff(a, p);
    ContainsIff(b, p);
    var s := a + b;
    if Contains(s, p) {
      var j: nat :| OccursAt(s, p, j);
      StraddleHasFirst(a, b, p, j);
      if j + |p| <= |a| {
        assert a[j..j + |p|] == s[j..j + |p|];
        assert OccursAt(a, p, j);
      } else if j >= |a| {
        assert b[j - |a|..j - |a| + |p|] == s[j..j + |p|];
        assert OccursAt(b, p, j - |a|);
      }
    }
    if Contains(a, p) {
      var j: nat :| OccursAt(a, p, j);
      assert s[j..j + |p|] == a[j..j + |p|];
      assert OccursAt(s, p, j);
    }
    if Contains(b, p) {
      var j: nat :| OccursAt(b, p, j);
      assert s[|a| + j..|a| + j + |p|] == b[j..j + |p|];
      assert OccursAt(s, p, |a| + j);
    }
  }

  /** A pattern without the character `c` that occurs in `[c] + b`
      occurs in `b`. */
  lemma ContainsCons(c: char, b: string, p: string)
    requires c !in p
    ensures Contains([c] + b, p) ==> Contains(b, p)
  {
    if Contains([c] + b, p) {
      ContainsIff([c] + b, p);
      var j: nat :| OccursAt([c] + b, p, j);
      if |p| == 0 {
        ContainsAt(b, p, 0);
      } else {
        assert ([c] + b)[j] == p[0];
        assert j != 0;
        assert ([c] + b)[j..j + |p|] == b[j - 1..j - 1 + |p|];
        ContainsAt(b, p, j - 1);
      }
    }
  }

  /** `pieces.slice(i).join(sep)` */
  function JoinFrom(pieces: seq<string>, sep: string, i: nat): string
    requires i <= |pieces|
    decreases |pieces| - i
  {
    if i == |pieces| then ""
    else if i + 1 == |pieces| then pieces[i]
    else pieces[i] + sep + JoinFrom(pieces, sep, i + 1)
  }

  /** `pieces.join(sep)` */
  function Join(pieces: seq<string>, sep: string): string
  {
    JoinFrom(pieces, sep, 0)
  }

  /** A pattern without a space occurs in a space-joined text only if it
      occurs in one of the pieces. */
  lemma {:induction false} NotInJoin(pieces: seq<string>, i: nat, p: string)
    requires i <= |pieces|
    requires ' ' !in p && |p| > 0
    requires forall k :: i <= k < |pieces| ==> !Contains(pieces[k], p)
    ensures !Contains(JoinFrom(pieces, " ", i), p)
    decreases |pieces| - i
  {
    if i == |pieces| {
      EmptyContainsNothing(p);
    } else if i + 1 < |pieces| {
      var rest := JoinFrom(pieces, " ", i + 1);
      NotInJoin(pieces, i + 1, p);
      ContainsCons(' ', rest, p);
      assert pieces[i] + " " + rest == pieces[i] + ([' '] + rest);
      ContainsAppend(pieces[i], [' '] + rest, p);
    }
  }

  /** `NotInJoin` where each piece is shown to miss the pattern by a
      character `cs[k]` of the pattern that piece `k` lacks, or, when no
      such character exists, directly. */
  lemma NotInJoinMissing(pieces: seq<string>, p: string, cs: string)
    requires ' ' !in p && |p| > 0 && |cs| == |pieces|
    requires forall k :: 0 <= k < |pieces| ==> (cs[k] in p && cs[k] !in pieces[k]) || !Contains(pieces[k], p)
    ensures !Contains(Join(pieces, " "), p)
  {
    forall k | 0 <= k < |pieces| ensures !Contains(pieces[k], p) {
      if cs[k] in p && cs[k] !in pieces[k] {
        MissingChar(pieces[k], p, cs[k]);
      }
    }
    NotInJoin(pieces, 0, p);
  }

  /** What occurs in a part occurs in the whole. */
  lemma ContainsInConcat(a: string, b: string, p: string)
    ensures Contains(a, p) || Contains(b, p) ==> Contains(a + b, p)
  {
    if Contains(a, p) {
      ContainsIff(a, p);
      var j: nat :| OccursAt(a, p, j);
      assert (a + b)[j..j + |p|] == a[j..j + |p|];
      ContainsAt(a + b, p, j);
    } else if Contains(b, p) {
      ContainsIff(b, p);
      var j: nat :| OccursAt(b, p, j);
      assert (a + b)[|a| + j..|a| + j + |p|] == b[j..j + |p|];
      ContainsAt(a + b, p, |a| + j);
    }
  }

  /** No pattern of `pats` occurs in the space-joined `pieces`, shown for
      pattern `i` by the witnesses `css[i]` as in `NotInJoinMissing`. */
  lemma NoneInJoin(pieces: seq<string>, pats: seq<string>, css: seq<string>)
    requires |css| == |pats|
    requires forall i :: 0 <= i < |pats| ==> ' ' !in pats[i] && |pats[i]| > 0 && |css[i]| == |pieces|
    requires forall i, k :: 0 <= i < |pats| && 0 <= k < |pieces| ==>
      (css[i][k] in pats[i] && css[i][k] !in pieces[k]) || !Contains(pieces[k], pats[i])
    ensures !ContainsAny(Join(pieces, " "), pats)
  {
    forall i | 0 <= i < |pats| ensures !Contains(Join(pieces, " "), pats[i]) {
      NotInJoinMissing(pieces, pats[i], css[i]);
    }
    NoneContained(Join(pieces, " "), pats);
  }

  /** Nothing but the empty pattern occurs in the empty string. */
  lemma EmptyContainsNothing(p: string)
    requires |p| > 0
    ensures !Contains("", p)
  {
  }

  /** `pats.some(p => s.includes(p))` */
  predicate ContainsAny(s: string, pats: seq<string>)
  {
    |pats| > 0 && (Contains(s, pats[0]) || ContainsAny(s, pats[1..]))
  }

  /** `pats.filter(p => s.includes(p)).length` */
  function CountContained(s: string, pats: seq<string>): (n: nat)
    ensures n <= |pats|
    ensures n > 0 <==> ContainsAny(s, pats)
  {
    if pats == [] then 0
    else (if Contains(s, pats[0]) then 1 else 0) + CountContained(s, pats[1..])
  }

  lemma {:induction false} ContainsAnyIff(s: string, pats: seq<string>)
    ensures ContainsAny(s, pats) <==> exists p :: p in pats && Contains(s, p)
  {
    if pats != [] {
      ContainsAnyIff(s, pats[1..]);
      assert forall p :: p in pats <==> p == pats[0] || p in pats[1..];
    }
  }

  /** `some` fails when every pattern is absent. */
  lemma {:induction false} NoneContained(s: string, pats: seq<string>)
    requires forall k :: 0 <= k < |pats| ==> !Contains(s, pats[k])
    ensures !ContainsAny(s, pats)
  {
    if pats != [] {
      NoneContained(s, pats[1..]);
    }
  }

  /** No pattern of a slice is found: no pattern at those indices is. */
  lemma NoneInSlice(s: string, pats: seq<string>, lo: nat, hi: nat)
    requires lo <= hi <= |pats| && !ContainsAny(s, pats[lo..hi])
    ensures forall k :: lo <= k < hi ==> !Contains(s, pats[k])
  {
    ContainsAnyIff(s, pats[lo..hi]);
    forall k | lo <= k < hi ensures !Contains(s, pats[k]) {
      assert pats[k] == pats[lo..hi][k - lo];
    }
  }

  lemma {:induction false} ContainsAnyAppend(s: string, a: seq<string>, b: seq<string>)
    ensures ContainsAny(s, a + b) <==> ContainsAny(s, a) || ContainsAny(s, b)
  {
    if a != [] {
      assert (a + b)[0] == a[0] && (a + b)[1..] == a[1..] + b;
      ContainsAnyAppend(s, a[1..], b);
    } else {
      assert a + b == b;
    }
  }

  /** No non-empty pattern is found in the empty string. */
  lemma {:induction false} NothingInEmpty(s: string, pats: seq<string>)
    requires |s| == 0 && "" !in pats
    ensures CountContained(s, pats) == 0 && !ContainsAny(s, pats)
  {
    if pats != [] {
      assert |pats[0]| > 0;
      assert !Contains(s, pats[0]) by { ContainsIff(s, pats[0]); }
      NothingInEmpty(s, pats[1..]);
    }
  }

  // ---------------------------------------------------------------------
  // `trim`

  function TrimStart(s: string): (r: string)
    ensures |r| <= |s| && r == s[|s| - |r|..]
    ensures forall i :: 0 <= i < |s| - |r| ==> IsSpace(s[i])
    ensures |r| > 0 ==> !IsSpace(r[0])
  {
    if |s| > 0 && IsSpace(s[0]) then TrimStart(s[1..]) else s
  }

  function TrimEnd(s: string): (r: string)
    ensures |r| <= |s| && r == s[..|r|]
    ensures forall i :: |r| <= i < |s| ==> IsSpace(s[i])
    ensures |r| > 0 ==> !IsSpace(r[|r| - 1])
  {
    if |s| > 0 && IsSpace(s[|s| - 1]) then TrimEnd(s[..|s| - 1]) else s
  }

  /** `s.trim()` */
  function Trim(s: string): string
  {
    TrimEnd(TrimStart(s))
  }

  /** A prefix `r` of the suffix `s[lo..]` is the window `s[lo..lo + |r|]`,
      and what follows it in the suffix follows it in `s`. */
  lemma PrefixOfSuffix(s: string, lo: nat, r: string)
    requires lo <= |s| && |r| <= |s| - lo && r == s[lo..][..|r|]
    ensures r == s[lo..lo + |r|]
    ensures forall i :: lo + |r| <= i < |s| ==> s[i] == s[lo..][i - lo]
  {
  }

  /** `trim` removes white space at both ends and nothing else: the result is
      the window `s[lo..lo + |Trim(s)|]`, everything outside the window is
      white space, and the window neither starts nor ends with white space. */
  lemma TrimIsWindow(s: string) returns (lo: nat)
    ensures var r := Trim(s);
      lo + |r| <= |s| && r == s[lo..lo + |r|] &&
      (forall i :: 0 <= i < lo ==> IsSpace(s[i])) &&
      (forall i :: lo + |r| <= i < |s| ==> IsSpace(s[i])) &&
      (|r| > 0 ==> !IsSpace(r[0]) && !IsSpace(r[|r| - 1]))
  {
    var t := TrimStart(s);
    var r := TrimEnd(t);
    lo := |s| - |t|;
    PrefixOfSuffix(s, lo, r);
    if |r| > 0 {
      assert r[0] == t[0];
    }
  }

  /** A string trims to the empty string exactly when it is all white space. */
  lemma TrimEmptyIff(s: string)
    ensures Trim(s) == "" <==> forall i :: 0 <= i < |s| ==> IsSpace(s[i])
  {
    var lo := TrimIsWindow(s);
  }

  /** Trimming twice is trimming once. */
  lemma TrimIdempotent(s: string)
    ensures Trim(Trim(s)) == Trim(s)
  {
    var r := Trim(s);
    var lo := TrimIsWindow(s);
    if |r| > 0 {
      assert TrimStart(r) == r;
      assert TrimEnd(r) == r;
    }
  }

  // ---------------------------------------------------------------------
  // `s.split(/[C]+/)` for a character class C

  /** Index of the first character at or after `i` that is in the class, or `|s|`. */
  function NextIn(s: string, sep: char -> bool, i: nat): (r: nat)
    requires i <= |s|
    ensures i <= r <= |s|
    ensures r < |s| ==> sep(s[r])
    ensures forall j :: i <= j < r ==> !sep(s[j])
    decreases |s| - i
  {
    if i == |s| || sep(s[i]) then i else NextIn(s, sep, i + 1)
  }

  /** Index of the first character at or after `i` that is not in the class, or `|s|`. */
  function NextOutside(s: string, sep: char -> bool, i: nat): (r: nat)
    requires i <= |s|
    ensures i <= r <= |s|
    ensures r < |s| ==> !sep(s[r])
    ensures forall j :: i <= j < r ==> sep(s[j])
    decreases |s| - i
  {
    if i == |s| || !sep(s[i]) then i else NextOutside(s, sep, i + 1)
  }

  /** `s.split(/[C]+/)`: the pieces between maximal runs of class characters,
      including an empty first piece when `s` starts with a run and an empty
      last piece when it ends with one (`"".split(..)` is `[""]`). */
  function SplitRuns(s: string, sep: char -> bool): (r: seq<string>)
    ensures |r| > 0
    ensures forall k, c :: 0 <= k < |r| && c in r[k] ==> !sep(c)
    decreases |s|
  {
    var k := NextIn(s, sep, 0);
    if k == |s| then
      assert forall c :: c in s ==> !sep(c) by {
        forall c | c in s ensures !sep(c) {
          var j :| 0 <= j < |s| && s[j] == c;
        }
      }
      [s]
    else
      var rest := NextOutside(s, sep, k);
      assert forall c :: c in s[..k] ==> !sep(c) by {
        forall c | c in s[..k] ensures !sep(c) {
          var j :| 0 <= j < k && s[..k][j] == c;
          assert s[j] == c;
        }
      }
      [s[..k]] + SplitRuns(s[rest..], sep)
  }

  /** The decimal digits of a natural number, as `String(n)` prints it. */
  function Decimal(n: nat): (r: string)
    ensures |r| >= 1
    ensures n >= 10 ==> |r| >= 2
    ensures forall c :: c in r ==> '0' <= c <= '9'
  {
    if n < 10 then [DigitChar(n)] else Decimal(n / 10) + [DigitChar(n % 10)]
  }

  function DigitChar(d: nat): (c: char)
    requires d < 10
    ensures '0' <= c <= '9'
  {
    ('0' as int + d) as char
  }

  /** Different numbers print differently. */
  lemma {:induction false} DecimalInjective(m: nat, n: nat)
    requires Decimal(m) == Decimal(n)
    ensures m == n
  {
    var a, b := Decimal(m), Decimal(n);
    assert a[|a| - 1] == DigitChar(m % 10) && b[|b| - 1] == DigitChar(n % 10);
    if m >= 10 && n >= 10 {
      assert Decimal(m / 10) == a[..|a| - 1] == b[..|b| - 1] == Decimal(n / 10);
      DecimalInjective(m / 10, n / 10);
    }
  }
}
