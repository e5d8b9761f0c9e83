/**
 * The one piece of the emitted code's runtime behaviour kept in the model:
 * the `db.system` value is the connection URL's scheme passed through
 * `str::replace("postgres", "postgresql")`.
 */
module SchemeRewrite {

  /** `pat` occurs in `s` starting at index `i`. */
  predicate OccursAt(s: string, pat: string, i: int)
  {
    0 <= i && i + |pat| <= |s| && s[i..i + |pat|] == pat
  }

  predicate ContainsPattern(s: string, pat: string)
  {
    exists i :: 0 <= i <= |s| && OccursAt(s, pat, i)
  }

  /**
   * Rust's `str::replace`: every non-overlapping occurrence of `from`, found
   * scanning left to right, becomes `to`. An empty `from` matches before
   * every character and at the end.
   */
  function Replace(s: string, from: string, to: string): (r: string)
    ensures |from| > 0 && |s| < |from| ==> r == s
    ensures 0 < |from| <= |to| ==> |r| >= |s|
    ensures |from| == 0 ==> |r| == |s| + (|s| + 1) * |to|
    decreases |s|
  {
    if |from| == 0 then
      if |s| == 0 then to else to + [s[0]] + Replace(s[1..], from, to)
    else if |from| <= |s| && s[..|from|] == from then
      to + Replace(s[|from|..], from, to)
    else if |s| == 0 then []
    else [s[0]] + Replace(s[1..], from, to)
  }

  /** With an empty pattern, where copy `k` of `to` starts: after `k` copies of `to` and `k` characters of the input. */
  function Slot(k: nat, to: string): nat
  {
    k * (|to| + 1)
  }

  /** The next copy of `to` starts one copy and one character later. */
  lemma SlotStep(k: nat, to: string)
    requires k > 0
    ensures Slot(k, to) == Slot(k - 1, to) + |to| + 1
  {
    assert k * (|to| + 1) == (k - 1) * (|to| + 1) + (|to| + 1);
  }

  /** Copies `0` to `n` of `to` sit at their slots in `r`. */
  predicate CopiesAtSlots(r: string, n: nat, to: string)
  {
    forall k :: 0 <= k <= n ==> Slot(k, to) + |to| <= |r| && r[Slot(k, to)..Slot(k, to) + |to|] == to
  }

  /** Each character `s[k]` directly follows copy `k` of `to` in `r`. */
  predicate CharsAfterSlots(r: string, s: string, to: string)
  {
    forall k :: 0 <= k < |s| ==> Slot(k, to) + |to| < |r| && r[Slot(k, to) + |to|] == s[k]
  }

  /**
   * `r` is `s` with `to` before every character and at the end: copy `k`
   * of `to` sits at `Slot(k, to)`, directly followed by `s[k]`, and the
   * last copy closes `r`.
   */
  predicate InterleavedWith(r: string, s: string, to: string)
  {
    |r| == Slot(|s|, to) + |to| && CopiesAtSlots(r, |s|, to) && CharsAfterSlots(r, s, to)
  }

  lemma CopiesCons(to: string, c: char, n: nat, tail: string)
    requires CopiesAtSlots(tail, n, to)
    ensures CopiesAtSlots(to + [c] + tail, n + 1, to)
  {
    forall k | 0 <= k <= n + 1
      ensures Slot(k, to) + |to| <= |to + [c] + tail| && (to + [c] + tail)[Slot(k, to)..Slot(k, to) + |to|] == to
    {
      if k > 0 {
        CopyStep(to, c, tail, k);
      }
    }
  }

  /** Copy `k - 1` of `to` in `tail` is copy `k` once `to` and one character go in front. */
  lemma CopyStep(to: string, c: char, tail: string, k: nat)
    requires 0 < k
    requires Slot(k - 1, to) + |to| <= |tail| && tail[Slot(k - 1, to)..Slot(k - 1, to) + |to|] == to
    ensures Slot(k, to) + |to| <= |to + [c] + tail| && (to + [c] + tail)[Slot(k, to)..Slot(k, to) + |to|] == to
  {
    var j := Slot(k - 1, to);
    SlotStep(k, to);
    assert (to + [c] + tail)[j + |to| + 1..j + |to| + 1 + |to|] == tail[j..j + |to|];
  }

  lemma CharsCons(to: string, c: char, rest: string, tail: string)
    requires CharsAfterSlots(tail, rest, to) && |tail| >= |to|
    ensures CharsAfterSlots(to + [c] + tail, [c] + rest, to)
  {
    forall k | 0 <= k < |rest| + 1
      ensures Slot(k, to) + |to| < |to + [c] + tail| && (to + [c] + tail)[Slot(k, to) + |to|] == ([c] + rest)[k]
    {
      if k > 0 {
        CharStep(to, c, rest, tail, k);
      }
    }
  }

  /** Character `k - 1` of `rest` after its copy of `to` is character `k` of `[c] + rest` once `to` and `c` go in front. */
  lemma CharStep(to: string, c: char, rest: string, tail: string, k: nat)
    requires 0 < k <= |rest|
    requires Slot(k - 1, to) + |to| < |tail| && tail[Slot(k - 1, to) + |to|] == rest[k - 1]
    ensures Slot(k, to) + |to| < |to + [c] + tail| && (to + [c] + tail)[Slot(k, to) + |to|] == ([c] + rest)[k]
  {
    SlotStep(k, to);
  }

  /** Putting a copy of `to` and one more character in front keeps the interleaving. */
  lemma InterleavedCons(to: string, c: char, rest: string, tail: string)
    requires InterleavedWith(tail, rest, to)
    ensures InterleavedWith(to + [c] + tail, [c] + rest, to)
  {
    SlotStep(|rest| + 1, to);
    CopiesCons(to, c, |rest|, tail);
    CharsCons(to, c, rest, tail);
  }

  /** An empty pattern matches before every character and at the end, as `InterleavedWith` spells out. */
  lemma {:induction false} ReplaceEmptyPattern(s: string, to: string)
    ensures InterleavedWith(Replace(s, [], to), s, to)
    decreases |s|
  {
    if |s| == 0 {
      assert Replace(s, [], to) == to;
    } else {
      ReplaceEmptyPattern(s[1..], to);
      assert s == [s[0]] + s[1..];
      InterleavedCons(to, s[0], s[1..], Replace(s[1..], [], to));
    }
  }

  /** Dropping the first character moves every occurrence one place left. */
  lemma OccursShift(s: string, pat: string, j: int)
    requires |s| > 0 && j >= 0
    ensures OccursAt(s[1..], pat, j) <==> OccursAt(s, pat, j + 1)
  {
    if 0 <= j && j + |pat| <= |s| - 1 {
      assert s[1..][j..j + |pat|] == s[j + 1..j + 1 + |pat|];
    }
  }

  /** A string with no occurrence of a non-empty pattern comes back unchanged. */
  lemma {:induction false} ReplaceWithoutMatch(s: string, from: string, to: string)
    requires |from| > 0 && !ContainsPattern(s, from)
    ensures Replace(s, from, to) == s
    decreases |s|
  {
    assert !OccursAt(s, from, 0);
    if |s| > 0 {
      forall i | 0 <= i <= |s| - 1
        ensures !OccursAt(s[1..], from, i)
      {
        OccursShift(s, from, i);
      }
      ReplaceWithoutMatch(s[1..], from, to);
    }
  }

  /** Where the pattern does not start, the first character is kept and the scan moves on by one. */
  lemma ReplaceSkipsNonMatch(s: string, from: string, to: string)
    requires |from| > 0 && |s| > 0 && !OccursAt(s, from, 0)
    ensures Replace(s, from, to) == [s[0]] + Replace(s[1..], from, to)
  {
  }

  /** An occurrence at the very start is replaced and the scan resumes after it. */
  lemma ReplaceAtStart(u: string, from: string, to: string)
    requires 0 < |from| <= |u| && u[..|from|] == from
    ensures Replace(u, from, to) == to + Replace(u[|from|..], from, to)
  {
  }

  /** Text before the first possible occurrence is copied unchanged. */
  lemma {:induction false} ReplaceKeepsPrefix(s: string, from: string, to: string, k: nat)
    requires |from| > 0 && k <= |s|
    requires forall j :: 0 <= j < k ==> !OccursAt(s, from, j)
    ensures Replace(s, from, to) == s[..k] + Replace(s[k..], from, to)
    decreases k
  {
    if k > 0 {
      var t := s[1..];
      ReplaceSkipsNonMatch(s, from, to);
      forall j | 0 <= j < k - 1
        ensures !OccursAt(t, from, j)
      {
        OccursShift(s, from, j);
      }
      ReplaceKeepsPrefix(t, from, to, k - 1);
      PrefixStep(s, k, Replace(s[k..], from, to));
    }
  }

  /** Re-attaching the first character: `s[0]`, then `k - 1` more characters, then the rest. */
  lemma PrefixStep(s: string, k: nat, tail: string)
    requires 0 < k <= |s|
    ensures s[1..][k - 1..] == s[k..]
    ensures [s[0]] + (s[1..][..k - 1] + tail) == s[..k] + tail
  {
    assert s[..k] == [s[0]] + s[1..][..k - 1];
    assert [s[0]] + (s[1..][..k - 1] + tail) == ([s[0]] + s[1..][..k - 1]) + tail;
  }

  /** The scan that starts at an occurrence replaces it and resumes after it. */
  lemma ReplaceAtOccurrence(s: string, from: string, to: string, i: nat)
    requires |from| > 0 && OccursAt(s, from, i)
    ensures Replace(s[i..], from, to) == to + Replace(s[i + |from|..], from, to)
  {
    var u := s[i..];
    assert u[..|from|] == s[i..i + |from|];
    assert u[|from|..] == s[i + |from|..];
    ReplaceAtStart(u, from, to);
  }

  /** Leftmost match first: the text before the first occurrence is kept, that occurrence is replaced, and the scan resumes after it. */
  lemma {:induction false} ReplaceAtFirstMatch(s: string, from: string, to: string, i: nat)
    requires |from| > 0 && OccursAt(s, from, i)
    requires forall j :: 0 <= j < i ==> !OccursAt(s, from, j)
    ensures Replace(s, from, to) == s[..i] + to + Replace(s[i + |from|..], from, to)
  {
    ReplaceKeepsPrefix(s, from, to, i);
    ReplaceAtOccurrence(s, from, to, i);
    var rest := Replace(s[i + |from|..], from, to);
    assert s[..i] + (to + rest) == s[..i] + to + rest;
  }

  /** When `to` is longer than `from`, the result is at least as long, and strictly longer exactly when `from` occurs. */
  lemma {:induction false} ReplaceGrows(s: string, from: string, to: string)
    requires 0 < |from| < |to|
    ensures |Replace(s, from, to)| >= |s|
    ensures |Replace(s, from, to)| > |s| <==> ContainsPattern(s, from)
    decreases |s|
  {
    if !ContainsPattern(s, from) {
      ReplaceWithoutMatch(s, from, to);
    } else if |from| <= |s| && s[..|from|] == from {
      ReplaceGrows(s[|from|..], from, to);
    } else {
      var i :| 0 <= i <= |s| && OccursAt(s, from, i);
      assert i > 0;
      OccursShift(s, from, i - 1);
      ReplaceGrows(s[1..], from, to);
    }
  }

  /**
   * The value recorded as `db.system` for a connection URL scheme: never
   * shorter than the scheme, and equal to it exactly when the scheme has no
   * `postgres` in it.
   */
  function DbSystem(scheme: string): (r: string)
    ensures |r| >= |scheme|
    ensures r == scheme <==> !ContainsPattern(scheme, "postgres")
  {
    ReplaceGrows(scheme, "postgres", "postgresql");
    if !ContainsPattern(scheme, "postgres") then
      ReplaceWithoutMatch(scheme, "postgres", "postgresql");
      Replace(scheme, "postgres", "postgresql")
    else
      Replace(scheme, "postgres", "postgresql")
  }

  /** `postgres` is reported as `postgresql`, `mysql` as itself. */
  lemma DbSystemExamples()
    ensures DbSystem("postgres") == "postgresql"
    ensures DbSystem("mysql") == "mysql"
  {
    ReplaceAtFirstMatch("postgres", "postgres", "postgresql", 0);
    assert "postgres"[8..] == [];
    assert !ContainsPattern("mysql", "postgres");
    ReplaceWithoutMatch("mysql", "postgres", "postgresql");
  }

  /** The rewrite is not idempotent: a scheme already spelled `postgresql` gains another `ql`. */
  lemma DbSystemNotIdempotent()
    ensures DbSystem("postgresql") == "postgresqlql"
    ensures DbSystem(DbSystem("postgres")) != DbSystem("postgres")
  {
    DbSystemExamples();
    var s := "postgresql";
    ReplaceAtFirstMatch(s, "postgres", "postgresql", 0);
    var rest := s[8..];
    assert rest == "ql";
    assert !ContainsPattern(rest, "postgres");
    ReplaceWithoutMatch(rest, "postgres", "postgresql");
  }
}
