/**
 A model of Python's `str.replace(old, new)` for a non-empty `old`: the string
 is scanned from left to right, and every occurrence of `old` that does not
 overlap an occurrence already replaced is substituted by `new`.
 */
module PyStrings {

  /** `pat` occurs somewhere in `s` (an independent, non-scanning definition). */
  ghost predicate Occurs(s: string, pat: string) {
    exists i :: 0 <= i <= |s| && pat <= s[i..]
  }

  /** No proper suffix of `pat` starts with `pat`'s first character, so two
      occurrences of `pat` can never overlap. */
  ghost predicate BorderFree(pat: string) {
    pat != [] && forall k :: 0 < k < |pat| ==> pat[k] != pat[0]
  }

  /** `s.replace(pat, rep)` */
  function ReplaceAll(s: string, pat: string, rep: string): string
    requires pat != []
    decreases |s|
  {
    if s == [] then []
    else if pat <= s then rep + ReplaceAll(s[|pat|..], pat, rep)
    else [s[0]] + ReplaceAll(s[1..], pat, rep)
  }

  /** The number of occurrences `ReplaceAll` substitutes, i.e. `s.count(pat)`. */
  function Count(s: string, pat: string): nat
    requires pat != []
    decreases |s|
  {
    if s == [] then 0
    else if pat <= s then 1 + Count(s[|pat|..], pat)
    else Count(s[1..], pat)
  }

  /** Every substitution changes the length by `|rep| - |pat|` and nothing else does. */
  lemma {:induction false} ReplaceAllLength(s: string, pat: string, rep: string)
    requires pat != []
    ensures |ReplaceAll(s, pat, rep)| == |s| + Count(s, pat) * (|rep| - |pat|)
    decreases |s|
  {
    if s == [] {
    } else if pat <= s {
      var c, d := Count(s[|pat|..], pat), |rep| - |pat|;
      ReplaceAllLength(s[|pat|..], pat, rep);
      assert (1 + c) * d == d + c * d;
    } else {
      ReplaceAllLength(s[1..], pat, rep);
    }
  }

  /** A string without an occurrence of `pat` is returned unchanged. */
  lemma {:induction false} ReplaceAllNoOccurrence(s: string, pat: string, rep: string)
    requires pat != []
    requires !Occurs(s, pat)
    ensures ReplaceAll(s, pat, rep) == s
    decreases |s|
  {
    if s != [] {
      assert s[0..] == s;
      assert !(pat <= s);
      forall i | 0 <= i <= |s[1..]|
        ensures !(pat <= s[1..][i..])
      {
        assert s[1..][i..] == s[i + 1..];
      }
      ReplaceAllNoOccurrence(s[1..], pat, rep);
      assert [s[0]] + s[1..] == s;
    }
  }

  /** An occurrence of `pat` is always found by the scan. */
  lemma {:induction false} OccursCounted(s: string, pat: string)
    requires pat != []
    requires Occurs(s, pat)
    ensures Count(s, pat) > 0
    decreases |s|
  {
    var i :| 0 <= i <= |s| && pat <= s[i..];
    if !(pat <= s) {
      assert i != 0;
      assert s[1..][i - 1..] == s[i..];
      OccursCounted(s[1..], pat);
    }
  }

  /** The scan substitutes only real occurrences. */
  lemma {:induction false} CountedOccurs(s: string, pat: string)
    requires pat != []
    requires Count(s, pat) > 0
    ensures Occurs(s, pat)
    decreases |s|
  {
    if pat <= s {
      assert s[0..] == s;
    } else {
      CountedOccurs(s[1..], pat);
      var i :| 0 <= i <= |s[1..]| && pat <= s[1..][i..];
      assert s[1..][i..] == s[i + 1..];
    }
  }

  /** Removing occurrences never lengthens a string, and shortens it when
      something was removed. */
  lemma {:induction false} RemoveAllShrinks(s: string, pat: string)
    requires pat != []
    ensures |ReplaceAll(s, pat, "")| <= |s|
    ensures Count(s, pat) > 0 ==> |ReplaceAll(s, pat, "")| < |s|
    decreases |s|
  {
    if s == [] {
    } else if pat <= s {
      RemoveAllShrinks(s[|pat|..], pat);
    } else {
      RemoveAllShrinks(s[1..], pat);
    }
  }

  /** Removing every occurrence (`rep == ""`) leaves `s` unchanged exactly when
      `pat` does not occur in it, and otherwise makes it strictly shorter. */
  lemma RemoveAllUnchangedIff(s: string, pat: string)
    requires pat != []
    ensures ReplaceAll(s, pat, "") == s <==> !Occurs(s, pat)
    ensures Occurs(s, pat) ==> |ReplaceAll(s, pat, "")| < |s|
    ensures |ReplaceAll(s, pat, "")| <= |s|
  {
    RemoveAllShrinks(s, pat);
    if Occurs(s, pat) {
      OccursCounted(s, pat);
    } else {
      ReplaceAllNoOccurrence(s, pat, "");
    }
  }

  /** An occurrence of a border-free pattern splits the scan: no occurrence
      can straddle its start, and the scan resumes right after it. */
  lemma {:induction false} ReplaceAllSplit(a: string, pat: string, b: string, rep: string)
    requires BorderFree(pat)
    ensures ReplaceAll(a + pat + b, pat, rep) == ReplaceAll(a, pat, rep) + rep + ReplaceAll(b, pat, rep)
    decreases |a|
  {
    if a == [] {
      assert a + pat + b == pat + b;
      assert pat <= pat + b;
      assert (pat + b)[|pat|..] == b;
    } else if pat <= a {
      assert pat <= a + pat + b;
      assert (a + pat + b)[|pat|..] == a[|pat|..] + pat + b;
      ReplaceAllSplit(a[|pat|..], pat, b, rep);
    } else {
      assert !(pat <= a + pat + b) by {
        if |a| >= |pat| {
          assert (a + pat + b)[..|pat|] == a[..|pat|];
        } else {
          assert (a + pat + b)[|a|] == pat[0];
        }
      }
      assert (a + pat + b)[0] == a[0];
      assert (a + pat + b)[1..] == a[1..] + pat + b;
      ReplaceAllSplit(a[1..], pat, b, rep);
    }
  }
}
