/**
 * The fragment of JavaScript regular expressions used by the URL validator:
 * literal text, an optional group `(...)?`, an alternation `(a|b)`,
 * concatenation and the trailing `.+`, together with the meaning of
 * `RegExp.prototype.test` for a pattern anchored at the start with `^` and
 * not at the end (no `$`, no flags).
 */
module Patterns {
  import opened Strings

  /** Characters that `.` does not match in a JavaScript regular expression. */
  predicate IsLineTerminator(c: char) {
    c == '\n' || c == '\r' || c == '\U{2028}' || c == '\U{2029}'
  }

  datatype Regex =
    | Lit(text: string)                 // literal characters, e.g. `github\.com\/`
    | Opt(body: Regex)                  // `(body)?`
    | Alt(left: Regex, right: Regex)    // `(left|right)`
    | Cat(first: Regex, rest: Regex)    // `first` followed by `rest`
    | AnyPlus                           // `.+`

  /** `r` matches all of `s`. */
  predicate Matches(r: Regex, s: string)
    decreases r
  {
    match r
    case Lit(t) => s == t
    case Opt(b) => s == [] || Matches(b, s)
    case Alt(a, b) => Matches(a, s) || Matches(b, s)
    case Cat(a, b) => exists k :: 0 <= k <= |s| && Matches(a, s[..k]) && Matches(b, s[k..])
    case AnyPlus => |s| >= 1 && forall i :: 0 <= i < |s| ==> !IsLineTerminator(s[i])
  }

  /** `/^r/.test(s)`: some prefix of `s` is matched by `r`. */
  predicate Test(r: Regex, s: string) {
    exists k :: 0 <= k <= |s| && Matches(r, s[..k])
  }

  /** `s` begins with `prefix` and has one more character that `.` matches right after it. */
  predicate PrefixThenAny(s: string, prefix: string) {
    StartsWith(s, prefix) && |s| > |prefix| && !IsLineTerminator(s[|prefix|])
  }

  /** A leading literal is matched exactly; the rest of the pattern is tested on what follows it. */
  lemma TestCatLit(t: string, r: Regex, s: string)
    ensures Test(Cat(Lit(t), r), s) <==> StartsWith(s, t) && Test(r, s[|t|..])
  {
    if Test(Cat(Lit(t), r), s) {
      var k :| 0 <= k <= |s| && Matches(Cat(Lit(t), r), s[..k]);
      var j :| 0 <= j <= k && Matches(Lit(t), s[..k][..j]) && Matches(r, s[..k][j..]);
      assert s[..k][..j] == s[..j];
      assert j == |t|;
      assert s[..k][j..] == s[|t|..][..k - |t|];
    }
    if StartsWith(s, t) && Test(r, s[|t|..]) {
      var m :| 0 <= m <= |s[|t|..]| && Matches(r, s[|t|..][..m]);
      var k := |t| + m;
      assert s[..k][..|t|] == t;
      assert s[..k][|t|..] == s[|t|..][..m];
      assert Matches(Cat(Lit(t), r), s[..k]);
    }
  }

  /** An optional group in front either matches nothing or matches its body. */
  lemma MatchesCatOpt(a: Regex, r: Regex, s: string)
    ensures Matches(Cat(Opt(a), r), s) <==> Matches(r, s) || Matches(Cat(a, r), s)
  {
    if Matches(Cat(Opt(a), r), s) {
      var k :| 0 <= k <= |s| && Matches(Opt(a), s[..k]) && Matches(r, s[k..]);
      if s[..k] == [] {
        assert s[k..] == s;
      }
    }
    if Matches(r, s) {
      assert s[..0] == [] && s[0..] == s;
    }
  }

  /** An alternation in front distributes over the rest of the pattern. */
  lemma MatchesCatAlt(a: Regex, b: Regex, r: Regex, s: string)
    ensures Matches(Cat(Alt(a, b), r), s) <==> Matches(Cat(a, r), s) || Matches(Cat(b, r), s)
  {
    if Matches(Cat(Alt(a, b), r), s) {
      var k :| 0 <= k <= |s| && Matches(Alt(a, b), s[..k]) && Matches(r, s[k..]);
      assert Matches(a, s[..k]) || Matches(b, s[..k]);
    }
  }

  lemma TestCatOpt(a: Regex, r: Regex, s: string)
    ensures Test(Cat(Opt(a), r), s) <==> Test(r, s) || Test(Cat(a, r), s)
  {
    forall k | 0 <= k <= |s| {
      MatchesCatOpt(a, r, s[..k]);
    }
  }

  lemma TestCatAlt(a: Regex, b: Regex, r: Regex, s: string)
    ensures Test(Cat(Alt(a, b), r), s) <==> Test(Cat(a, r), s) || Test(Cat(b, r), s)
  {
    forall k | 0 <= k <= |s| {
      MatchesCatAlt(a, b, r, s[..k]);
    }
  }

  /** A trailing `.+` only needs one matching character. */
  lemma TestAnyPlus(s: string)
    ensures Test(AnyPlus, s) <==> |s| >= 1 && !IsLineTerminator(s[0])
  {
    if Test(AnyPlus, s) {
      var k :| 0 <= k <= |s| && Matches(AnyPlus, s[..k]);
      assert s[..k][0] == s[0];
    }
    if |s| >= 1 && !IsLineTerminator(s[0]) {
      assert Matches(AnyPlus, s[..1]);
    }
  }

  /** The common shape of the validator's patterns: a literal, then `.+`. */
  lemma TestLitAnyPlus(t: string, s: string)
    ensures Test(Cat(Lit(t), AnyPlus), s) <==> PrefixThenAny(s, t)
  {
    TestCatLit(t, AnyPlus, s);
    if |t| <= |s| {
      TestAnyPlus(s[|t|..]);
    }
  }

  /** Testing a literal and then `.+` on what follows a prefix `a` is testing `a + t` and then `.+`. */
  lemma PrefixThenAnyConcat(s: string, a: string, t: string)
    ensures (StartsWith(s, a) && PrefixThenAny(s[|a|..], t)) <==> PrefixThenAny(s, a + t)
  {
    StartsWithConcat(s, a, t);
    if StartsWith(s, a) && |s| >= |a| {
      assert |s[|a|..]| == |s| - |a|;
      if |s| > |a + t| {
        assert s[|a|..][|t|] == s[|a + t|];
      }
    }
  }
}
