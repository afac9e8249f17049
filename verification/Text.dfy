/** String functions the verifiers use on ids. */
module Text {

  /** `s.split(c)[0]` */
  function Head(s: string, c: char): string {
    if s == "" || s[0] == c then "" else [s[0]] + Head(s[1..], c)
  }

  /** `s.replace(pattern, '')` in JavaScript: only the first occurrence goes. */
  function RemoveFirst(s: string, pattern: string): string
    requires pattern != ""
  {
    if |s| < |pattern| then s
    else if pattern <= s then s[|pattern|..]
    else [s[0]] + RemoveFirst(s[1..], pattern)
  }

  /** `s.replace(pattern, "")` in Rust: all occurrences go. */
  function RemoveAll(s: string, pattern: string): string
    requires pattern != ""
  {
    if |s| < |pattern| then s
    else if pattern <= s then RemoveAll(s[|pattern|..], pattern)
    else [s[0]] + RemoveAll(s[1..], pattern)
  }

  predicate OccursAt(s: string, pattern: string, k: nat) {
    k + |pattern| <= |s| && s[k..k + |pattern|] == pattern
  }

  lemma OccursShifted(s: string, pattern: string, k: nat)
    requires s != ""
    ensures OccursAt(s[1..], pattern, k) <==> OccursAt(s, pattern, k + 1)
  {
    if k + 1 + |pattern| <= |s| {
      assert s[1..][k..k + |pattern|] == s[k + 1..k + 1 + |pattern|];
    }
  }

  lemma RemoveUnfolds(s: string, pattern: string)
    requires pattern != "" && |s| >= |pattern|
    ensures OccursAt(s, pattern, 0) ==>
      RemoveFirst(s, pattern) == s[|pattern|..] && RemoveAll(s, pattern) == RemoveAll(s[|pattern|..], pattern)
    ensures !OccursAt(s, pattern, 0) ==>
      RemoveFirst(s, pattern) == [s[0]] + RemoveFirst(s[1..], pattern) &&
      RemoveAll(s, pattern) == [s[0]] + RemoveAll(s[1..], pattern)
  {
    assert pattern <= s <==> OccursAt(s, pattern, 0);
  }

  /** Without an occurrence both leave the text as it is. */
  lemma {:induction false} NothingToRemove(s: string, pattern: string)
    requires pattern != "" && forall k: nat :: !OccursAt(s, pattern, k)
    ensures RemoveFirst(s, pattern) == s && RemoveAll(s, pattern) == s
    decreases |s|
  {
    if |s| >= |pattern| {
      RemoveUnfolds(s, pattern);
      forall k: nat ensures !OccursAt(s[1..], pattern, k) {
        OccursShifted(s, pattern, k);
      }
      NothingToRemove(s[1..], pattern);
    }
  }

  /** One removes the first occurrence; the other goes on with what follows it. */
  lemma {:induction false} FirstIsRemoved(s: string, pattern: string, n: nat)
    requires pattern != "" && OccursAt(s, pattern, n) && forall k: nat :: k < n ==> !OccursAt(s, pattern, k)
    ensures RemoveFirst(s, pattern) == s[..n] + s[n + |pattern|..]
    ensures RemoveAll(s, pattern) == s[..n] + RemoveAll(s[n + |pattern|..], pattern)
    decreases |s|
  {
    hide OccursAt, RemoveAll, RemoveFirst;
    OccursBounds(s, pattern, n);
    RemoveUnfolds(s, pattern);
    if n == 0 {
      assert s[..0] + s[|pattern|..] == s[|pattern|..];
      assert s[..0] + RemoveAll(s[|pattern|..], pattern) == RemoveAll(s[|pattern|..], pattern);
    } else {
      forall k: nat | k < n - 1 ensures !OccursAt(s[1..], pattern, k) {
        OccursShifted(s, pattern, k);
      }
      OccursShifted(s, pattern, n - 1);
      FirstIsRemoved(s[1..], pattern, n - 1);
      assert s[1..][n - 1 + |pattern|..] == s[n + |pattern|..];
      assert [s[0]] + s[1..][..n - 1] == s[..n];
    }
  }

  lemma OccursBounds(s: string, pattern: string, n: nat)
    requires OccursAt(s, pattern, n)
    ensures n + |pattern| <= |s|
  {
  }

  lemma {:induction false} RemoveAllShortens(s: string, pattern: string)
    requires pattern != ""
    ensures |RemoveAll(s, pattern)| <= |s|
    decreases |s|
  {
    if |s| >= |pattern| {
      RemoveAllShortens(if pattern <= s then s[|pattern|..] else s[1..], pattern);
    }
  }

  lemma {:induction false} PrefixGoes(prefix: string, text: string)
    requires prefix != ""
    ensures RemoveAll(prefix + text, prefix) == RemoveAll(text, prefix)
  {
    assert (prefix + text)[|prefix|..] == text;
  }

  /** The text behind a prefix comes back in JavaScript always, and in Rust exactly if it lacks the prefix itself. */
  lemma {:induction false} PrefixIsRemoved(prefix: string, id: string)
    requires prefix != ""
    ensures RemoveFirst(prefix + id, prefix) == id
    ensures RemoveAll(prefix + id, prefix) == id <==> forall k: nat :: !OccursAt(id, prefix, k)
  {
    hide RemoveFirst, RemoveAll;
    var text := prefix + id;
    assert text[..0] + text[|prefix|..] == id;
    assert text[..0] + RemoveAll(text[|prefix|..], prefix) == RemoveAll(id, prefix);
    FirstIsRemoved(text, prefix, 0);
    if forall k: nat :: !OccursAt(id, prefix, k) {
      NothingToRemove(id, prefix);
    } else {
      var n := FirstOccurrence(id, prefix);
      FirstIsRemoved(id, prefix, n);
      RemoveAllShortens(id[n + |prefix|..], prefix);
    }
  }

  lemma {:induction false} FirstOccurrence(s: string, pattern: string) returns (n: nat)
    requires exists k: nat :: OccursAt(s, pattern, k)
    ensures OccursAt(s, pattern, n) && forall k: nat :: k < n ==> !OccursAt(s, pattern, k)
  {
    n := 0;
    while !OccursAt(s, pattern, n)
      invariant n <= |s| && forall k: nat :: k < n ==> !OccursAt(s, pattern, k)
      decreases |s| - n
    {
      n := n + 1;
    }
  }

  predicate Lacks(s: string, c: char) {
    forall i :: 0 <= i < |s| ==> s[i] != c
  }

  lemma {:induction false} HeadLacks(s: string, c: char)
    ensures Lacks(Head(s, c), c)
  {
    if s != "" && s[0] != c {
      HeadLacks(s[1..], c);
    }
  }

  lemma FirstChar(a: string, c: char, u: string)
    ensures (a + [c] + u)[0] == if a == "" then c else a[0]
    ensures (a + [c] + u)[1..] == if a == "" then u else a[1..] + [c] + u
  {
  }

  /** The text before the first separator determines where it ends. */
  lemma {:induction false} SplitUnique(a: string, b: string, c: char, u: string, v: string)
    requires Lacks(a, c) && Lacks(b, c)
    requires a + [c] + u == b + [c] + v
    ensures a == b && u == v
  {
    FirstChar(a, c, u);
    FirstChar(b, c, v);
    if a != "" && b != "" {
      SplitUnique(a[1..], b[1..], c, u, v);
    }
  }
}
