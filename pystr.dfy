/**
 * The three Python string operations the tool relies on: the `in` substring
 * test, `str.replace` (every non-overlapping occurrence, scanned left to
 * right) and, as its independent reference, `sep.join(s.split(pat))`.
 */
module PyStr {

  predicate StartsWith(s: string, prefix: string) {
    |prefix| <= |s| && s[..|prefix|] == prefix
  }

  /** Python's `needle in s`. */
  predicate Contains(s: string, needle: string) {
    exists i :: 0 <= i <= |s| && StartsWith(s[i..], needle)
  }

  /** Python's `s.replace(pat, rep)` for a non-empty `pat`. */
  function ReplaceAll(s: string, pat: string, rep: string): string
    requires |pat| > 0
    decreases |s|
  {
    if |s| < |pat| then s
    else if s[..|pat|] == pat then rep + ReplaceAll(s[|pat|..], pat, rep)
    else [s[0]] + ReplaceAll(s[1..], pat, rep)
  }

  /** Python's `s.split(sep)` for a non-empty `sep`: the pieces between the occurrences. */
  function Split(s: string, sep: string): (parts: seq<string>)
    requires |sep| > 0
    ensures |parts| >= 1
    decreases |s|
  {
    if |s| < |sep| then [s]
    else if s[..|sep|] == sep then [""] + Split(s[|sep|..], sep)
    else
      var rest := Split(s[1..], sep);
      [[s[0]] + rest[0]] + rest[1..]
  }

  /** Python's `sep.join(parts)` for a non-empty list. */
  function Join(parts: seq<string>, sep: string): string
    requires |parts| >= 1
    decreases |parts|
  {
    if |parts| == 1 then parts[0] else parts[0] + sep + Join(parts[1..], sep)
  }

  lemma JoinConsFirst(c: string, parts: seq<string>, sep: string)
    requires |parts| >= 1
    ensures Join([c + parts[0]] + parts[1..], sep) == c + Join(parts, sep)
  {
    var whole := [c + parts[0]] + parts[1..];
    assert whole[1..] == parts[1..];
  }

  /** `s.replace(pat, rep) == rep.join(s.split(pat))`: replacement acts on every occurrence. */
  lemma {:induction false} ReplaceIsJoinOfSplit(s: string, pat: string, rep: string)
    requires |pat| > 0
    ensures ReplaceAll(s, pat, rep) == Join(Split(s, pat), rep)
    decreases |s|
  {
    if |s| < |pat| {
    } else if s[..|pat|] == pat {
      ReplaceIsJoinOfSplit(s[|pat|..], pat, rep);
      var parts := [""] + Split(s[|pat|..], pat);
      assert parts[1..] == Split(s[|pat|..], pat);
    } else {
      ReplaceIsJoinOfSplit(s[1..], pat, rep);
      JoinConsFirst([s[0]], Split(s[1..], pat), rep);
    }
  }

  /** A string without an occurrence of `pat` is left unchanged. */
  lemma {:induction false} ReplaceWithoutOccurrence(s: string, pat: string, rep: string)
    requires |pat| > 0
    requires !Contains(s, pat)
    ensures ReplaceAll(s, pat, rep) == s
    decreases |s|
  {
    if |s| >= |pat| {
      assert s[0..] == s;
      assert !StartsWith(s[0..], pat);
      assert !Contains(s[1..], pat) by {
        forall i | 0 <= i <= |s[1..]| ensures !StartsWith(s[1..][i..], pat) {
          assert s[1..][i..] == s[i + 1..];
        }
      }
      ReplaceWithoutOccurrence(s[1..], pat, rep);
    }
  }

  /** One step of the scan: a string that does not start with `pat` keeps its first character. */
  lemma ReplaceKeepsFirst(s: string, pat: string, rep: string)
    requires |pat| > 0 && |s| >= |pat| && s[0] != pat[0]
    ensures ReplaceAll(s, pat, rep) == [s[0]] + ReplaceAll(s[1..], pat, rep)
  {
    assert s[..|pat|][0] == s[0];
  }

  /**
   * An occurrence of `pat` preceded by text that cannot start one is replaced
   * where it stands, also in the middle of a longer string.
   */
  lemma {:induction false} ReplaceAfterPlainPrefix(a: string, pat: string, b: string, rep: string)
    requires |pat| > 0 && pat[0] !in a
    ensures ReplaceAll(a + pat + b, pat, rep) == a + rep + ReplaceAll(b, pat, rep)
    decreases |a|
  {
    var s := a + pat + b;
    var tail := ReplaceAll(b, pat, rep);
    if a == [] {
      assert s == pat + b;
      assert s[..|pat|] == pat && s[|pat|..] == b;
    } else {
      var a' := a[1..];
      assert s[0] == a[0] && a[0] in a;
      ReplaceKeepsFirst(s, pat, rep);
      assert s[1..] == a' + pat + b;
      assert pat[0] !in a' by {
        assert forall c :: c in a' ==> c in a;
      }
      ReplaceAfterPlainPrefix(a', pat, b, rep);
      var r' := a' + rep + tail;
      assert ReplaceAll(s, pat, rep) == [a[0]] + r';
      assert [a[0]] + r' == a + rep + tail by {
        assert [a[0]] + a' == a;
        assert [a[0]] + r' == ([a[0]] + a') + rep + tail;
      }
    }
  }

  /** A token that is exactly `pat` becomes exactly `rep`. */
  lemma ReplaceWholeToken(pat: string, rep: string)
    requires |pat| > 0
    ensures ReplaceAll(pat, pat, rep) == rep
  {
    assert pat[..|pat|] == pat && pat[|pat|..] == [];
  }
}
