/**
 The part of `fnmatch.fnmatch` that `FileOpt` relies on, for POSIX (no case
 folding): `*` matches any run of characters, every other character matches
 itself. `?` and `[...]` are not modelled.
 */
module Fnmatch {

  /** Whether `name` matches the glob `pat`. */
  predicate Match(name: string, pat: string)
  {
    MatchFrom(name, pat, 0, 0)
  }

  /** Whether the rest of the name from `i` matches the rest of the pattern from `j`. */
  predicate MatchFrom(name: string, pat: string, i: nat, j: nat)
    requires i <= |name| && j <= |pat|
    decreases |pat| - j + |name| - i
  {
    if j == |pat| then i == |name|
    else if pat[j] == '*' then MatchFrom(name, pat, i, j + 1) || (i < |name| && MatchFrom(name, pat, i + 1, j))
    else i < |name| && name[i] == pat[j] && MatchFrom(name, pat, i + 1, j + 1)
  }

  /** No `*` among the pattern positions `j` up to `k`. */
  predicate StarFree(pat: string, j: nat, k: nat)
    requires j <= k <= |pat|
  {
    forall t | j <= t < k :: pat[t] != '*'
  }

  /** `a` from `i` and `b` from `j` agree on `len` characters. */
  predicate Agree(a: string, i: nat, b: string, j: nat, len: nat)
    requires i + len <= |a| && j + len <= |b|
  {
    forall t | i <= t < i + len :: a[t] == b[j + (t - i)]
  }

  /** A literal stretch `pat[j..k]` must be matched character for character. */
  lemma {:induction false} LiteralHead(name: string, pat: string, i: nat, j: nat, k: nat)
    requires i <= |name| && j <= k <= |pat|
    requires StarFree(pat, j, k)
    ensures MatchFrom(name, pat, i, j) <==>
              && i + (k - j) <= |name|
              && Agree(name, i, pat, j, k - j)
              && MatchFrom(name, pat, i + (k - j), k)
    decreases k - j
  {
    if j < k {
      assert pat[j] != '*';
      if i < |name| {
        LiteralHead(name, pat, i + 1, j + 1, k);
        if i + (k - j) <= |name| {
          AgreeStep(name, i, pat, j, k - j);
        }
      }
    }
  }

  lemma AgreeStep(a: string, i: nat, b: string, j: nat, len: nat)
    requires 0 < len && i + len <= |a| && j + len <= |b|
    ensures Agree(a, i, b, j, len) <==> a[i] == b[j] && Agree(a, i + 1, b, j + 1, len - 1)
  {
    if Agree(a, i, b, j, len) {
      assert a[i] == b[j];
    }
  }

  /** Agreement from the start of `b` on all of `b` says `a` begins with `b`. */
  lemma AgreePrefix(a: string, b: string)
    requires |b| <= |a|
    ensures Agree(a, 0, b, 0, |b|) <==> a[..|b|] == b
  {
    if Agree(a, 0, b, 0, |b|) {
      forall t | 0 <= t < |b|
        ensures a[..|b|][t] == b[t]
      {
        assert a[t] == b[0 + (t - 0)];
      }
    }
  }

  /** Agreement of the last `|b|` characters of `a` with `b` says `a` ends with `b`. */
  lemma AgreeSuffix(a: string, b: string)
    requires |b| <= |a|
    ensures Agree(a, |a| - |b|, b, 0, |b|) <==> a[|a| - |b|..] == b
  {
    if Agree(a, |a| - |b|, b, 0, |b|) {
      forall t | 0 <= t < |b|
        ensures a[|a| - |b|..][t] == b[t]
      {
        assert a[|a| - |b| + t] == b[0 + (|a| - |b| + t - (|a| - |b|))];
      }
    }
  }

  /** Agreement with a stretch of `b` that equals a stretch of `c` is agreement with `c`. */
  lemma AgreeTransfer(a: string, i: nat, b: string, j: nat, c: string, l: nat, len: nat)
    requires i + len <= |a| && j + len <= |b| && l + len <= |c|
    requires Agree(b, j, c, l, len)
    ensures Agree(a, i, b, j, len) <==> Agree(a, i, c, l, len)
  {
  }

  /** A pattern without `*` matches exactly itself. */
  lemma LiteralMatch(name: string, lit: string)
    requires '*' !in lit
    ensures Match(name, lit) <==> name == lit
  {
    assert StarFree(lit, 0, |lit|) by {
      forall t | 0 <= t < |lit|
        ensures lit[t] != '*'
      {
        assert lit[t] in lit;
      }
    }
    LiteralHead(name, lit, 0, 0, |lit|);
    if |lit| <= |name| {
      assert MatchFrom(name, lit, |lit|, |lit|) <==> |lit| == |name|;
      AgreePrefix(name, lit);
    }
  }

  /** A `*` at `j` followed by a literal to the end of the pattern matches exactly
      the rests of the name that end in that literal. */
  lemma {:induction false} StarThenLiteral(name: string, pat: string, i: nat, j: nat)
    requires i <= |name| && j < |pat| && pat[j] == '*'
    requires StarFree(pat, j + 1, |pat|)
    ensures MatchFrom(name, pat, i, j) <==>
              |name| - i >= |pat| - j - 1 && Agree(name, |name| - (|pat| - j - 1), pat, j + 1, |pat| - j - 1)
    decreases |name| - i
  {
    var len := |pat| - j - 1;
    LiteralHead(name, pat, i, j + 1, |pat|);
    if i + len <= |name| {
      assert MatchFrom(name, pat, i + len, |pat|) <==> i + len == |name|;
    }
    if i < |name| {
      StarThenLiteral(name, pat, i + 1, j);
    }
  }

  /** `fnmatch(name, prefix + '*' + suffix)` for literal `prefix` and `suffix`:
      the name starts with the prefix, ends with the suffix, and is long enough
      for both not to overlap. */
  lemma WildcardMatch(name: string, prefix: string, suffix: string)
    requires '*' !in prefix && '*' !in suffix
    ensures Match(name, prefix + "*" + suffix) <==>
              && |name| >= |prefix| + |suffix|
              && name[..|prefix|] == prefix
              && name[|name| - |suffix|..] == suffix
  {
    var pat := prefix + "*" + suffix;
    var p, s := |prefix|, |suffix|;
    GlobParts(prefix, suffix);
    StarBetweenLiterals(name, pat, p);
    if p <= |name| {
      AgreeTransfer(name, 0, pat, 0, prefix, 0, p);
      AgreePrefix(name, prefix);
      if |name| - p >= s {
        AgreeTransfer(name, |name| - s, pat, p + 1, suffix, 0, s);
        AgreeSuffix(name, suffix);
      }
    }
  }

  /** A pattern with one `*`, at `p`: the name agrees with the literal before it
      at its start and with the literal after it at its end. */
  lemma StarBetweenLiterals(name: string, pat: string, p: nat)
    requires p < |pat| && pat[p] == '*'
    requires StarFree(pat, 0, p) && StarFree(pat, p + 1, |pat|)
    ensures MatchFrom(name, pat, 0, 0) <==>
              && |name| >= |pat| - 1
              && Agree(name, 0, pat, 0, p)
              && Agree(name, |name| - (|pat| - p - 1), pat, p + 1, |pat| - p - 1)
  {
    LiteralHead(name, pat, 0, 0, p);
    if p <= |name| {
      StarThenLiteral(name, pat, p, p);
    }
  }

  /** Where the literal parts and the star sit in `prefix + '*' + suffix`. */
  lemma GlobParts(prefix: string, suffix: string)
    requires '*' !in prefix && '*' !in suffix
    ensures var pat, p := prefix + "*" + suffix, |prefix|;
            && |pat| == p + 1 + |suffix|
            && pat[p] == '*'
            && Agree(pat, 0, prefix, 0, p)
            && Agree(pat, p + 1, suffix, 0, |suffix|)
            && StarFree(pat, 0, p)
            && StarFree(pat, p + 1, |pat|)
  {
    var pat := prefix + "*" + suffix;
    var p, s := |prefix|, |suffix|;
    assert pat[p] == '*';
    assert Agree(pat, 0, prefix, 0, p);
    assert Agree(pat, p + 1, suffix, 0, s) by {
      forall t | p + 1 <= t < p + 1 + s
        ensures pat[t] == suffix[0 + (t - (p + 1))]
      {
      }
    }
    forall t | 0 <= t < p
      ensures pat[t] != '*'
    {
      assert pat[t] == prefix[t] && prefix[t] in prefix;
    }
    forall t | p + 1 <= t < |pat|
      ensures pat[t] != '*'
    {
      assert pat[t] == suffix[t - p - 1] && suffix[t - p - 1] in suffix;
    }
  }

  /** The pattern `*` matches every name. */
  lemma StarMatchesAll(name: string)
    ensures Match(name, "*")
  {
    WildcardMatch(name, "", "");
    assert "" + "*" + "" == "*";
  }
}
