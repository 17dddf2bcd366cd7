/** The one string operation the lookup relies on: `strings.ReplaceAll(s, "-", "")`
    (main.go:28 and main.go:114). Go strings are byte strings; a '-' is one ASCII byte
    that never occurs inside a multi-byte character, so removing '-' characters and
    removing '-' bytes give the same text. */
module Text {

  const HYPHEN := '-'

  /** `s` with every hyphen removed, the other characters kept in order. */
  function StripHyphens(s: string): (r: string)
  {
    if s == [] then []
    else
      var rest := StripHyphens(s[1..]);
      if s[0] == HYPHEN then rest else [s[0]] + rest
  }

  /** Exactly the hyphens go: every other character keeps its number of occurrences,
      so the result is as much shorter as there were hyphens. */
  lemma {:induction false} StripHyphensCounts(s: string)
    ensures HYPHEN !in StripHyphens(s)
    ensures multiset(StripHyphens(s)) == multiset(s)[HYPHEN := 0]
    ensures |StripHyphens(s)| == |s| - multiset(s)[HYPHEN]
  {
    if s != [] {
      assert s == [s[0]] + s[1..];
      StripHyphensCounts(s[1..]);
    }
  }

  /** Removing hyphens works piecewise: it commutes with concatenation, so the order
      of the kept characters is the order they had in `a + b`. */
  lemma {:induction false} StripHyphensConcat(a: string, b: string)
    ensures StripHyphens(a + b) == StripHyphens(a) + StripHyphens(b)
  {
    if a == [] {
      assert a + b == b;
    } else {
      assert (a + b)[1..] == a[1..] + b;
      StripHyphensConcat(a[1..], b);
    }
  }

  /** A text without hyphens is left exactly as it is. */
  lemma {:induction false} StripHyphensNoHyphen(s: string)
    requires HYPHEN !in s
    ensures StripHyphens(s) == s
  {
    if s != [] {
      assert HYPHEN !in s[1..];
      StripHyphensNoHyphen(s[1..]);
    }
  }

  /** Stripping twice is stripping once. */
  lemma StripHyphensIdempotent(s: string)
    ensures StripHyphens(StripHyphens(s)) == StripHyphens(s)
  {
    StripHyphensCounts(s);
    StripHyphensNoHyphen(StripHyphens(s));
  }

  /** Inserting one hyphen anywhere does not change the stripped text. */
  lemma StripHyphensInsert(a: string, b: string)
    ensures StripHyphens(a + [HYPHEN] + b) == StripHyphens(a + b)
  {
    StripHyphensConcat(a + [HYPHEN], b);
    StripHyphensConcat(a, [HYPHEN]);
    StripHyphensConcat(a, b);
  }

  /** Every non-hyphen character of `s` occurs in the result. */
  lemma {:induction false} StripHyphensKeeps(s: string, i: nat)
    requires i < |s| && s[i] != HYPHEN
    ensures s[i] in StripHyphens(s)
  {
    if i > 0 {
      StripHyphensKeeps(s[1..], i - 1);
    }
  }
}
