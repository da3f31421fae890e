/** The hand-written e-mail shape check `/^[^\s@]+@[^\s@]+\.[^\s@]+$/`, used both by the
    contact route (src/app/api/contact/route.ts) and by the portfolio contact page. */
module EmailPattern {
  import opened Base

  /** A character of the class `[^\s@]`. */
  predicate IsRunChar(c: char) {
    !IsWhiteSpace(c) && c != '@'
  }

  /** A string matched by `[^\s@]+`. */
  predicate IsRun(s: string) {
    |s| > 0 && forall i :: 0 <= i < |s| ==> IsRunChar(s[i])
  }

  /** The pattern matches `s` with the `@` at index `at` and the literal `.` at index `dot`:
      `s[..at]`, `s[at+1..dot]` and `s[dot+1..]` are the three `[^\s@]+` runs. */
  predicate SplitsAt(s: string, at: int, dot: int) {
    && 0 < at < dot < |s| - 1
    && s[at] == '@' && s[dot] == '.'
    && IsRun(s[..at]) && IsRun(s[at + 1..dot]) && IsRun(s[dot + 1..])
  }

  /** `emailRegex.test(s)`: the anchored pattern matches the whole string for some choice
      of the `@` and of the `.` that separates the last two runs. */
  predicate Matches(s: string) {
    exists at, dot | 0 < at < |s| && at < dot < |s| :: SplitsAt(s, at, dot)
  }

  predicate NoWhiteSpace(s: string) {
    forall i :: 0 <= i < |s| ==> !IsWhiteSpace(s[i])
  }

  /** The shape a matching address has, stated without the regular expression: no white
      space, exactly one `@`, not in front, and a `.` in the domain with at least one
      character on either side of it. */
  predicate HasAddressShape(s: string) {
    && NoWhiteSpace(s)
    && multiset(s)['@'] == 1
    && exists at, dot | 0 < at < |s| && at < dot < |s| ::
         s[at] == '@' && at + 1 < dot < |s| - 1 && s[dot] == '.'
  }

  lemma RunHasNoAt(r: string)
    requires IsRun(r)
    ensures multiset(r)['@'] == 0
  {
    assert '@' !in r;
  }

  /** A character that occurs once in `s`, at index `i`, occurs nowhere else. */
  lemma OccursOnlyAt(s: string, c: char, i: int)
    requires multiset(s)[c] == 1
    requires 0 <= i < |s| && s[i] == c
    ensures forall j :: 0 <= j < |s| && j != i ==> s[j] != c
  {
    var before, after := s[..i], s[i + 1..];
    assert s == before + [c] + after;
    assert multiset(before)[c] + multiset(after)[c] == 0;
    assert c !in before && c !in after;
    forall j | 0 <= j < |s| && j != i ensures s[j] != c {
      if j < i {
        assert s[j] == before[j];
      } else {
        assert s[j] == after[j - i - 1];
      }
    }
  }

  /** Every string the pattern accepts has exactly one `@`, no white space, and at least
      five characters (`x@y.z`). */
  lemma MatchedAddressShape(s: string)
    requires Matches(s)
    ensures multiset(s)['@'] == 1
    ensures NoWhiteSpace(s)
    ensures |s| >= 5
  {
    var at, dot :| 0 < at < |s| && at < dot < |s| && SplitsAt(s, at, dot);
    SplitHasOneAt(s, at, dot);
    SplitHasNoWhiteSpace(s, at, dot);
  }

  lemma SplitHasOneAt(s: string, at: int, dot: int)
    requires SplitsAt(s, at, dot)
    ensures multiset(s)['@'] == 1
  {
    var local, host, tld := s[..at], s[at + 1..dot], s[dot + 1..];
    assert s == local + ['@'] + host + ['.'] + tld;
    RunHasNoAt(local);
    RunHasNoAt(host);
    RunHasNoAt(tld);
  }

  lemma SplitHasNoWhiteSpace(s: string, at: int, dot: int)
    requires SplitsAt(s, at, dot)
    ensures NoWhiteSpace(s)
  {
    forall i | 0 <= i < |s| ensures !IsWhiteSpace(s[i]) {
      if i < at {
        assert s[i] == s[..at][i];
      } else if at < i < dot {
        assert s[i] == s[at + 1..dot][i - at - 1];
      } else if dot < i {
        assert s[i] == s[dot + 1..][i - dot - 1];
      }
    }
  }

  /** The pattern accepts a string exactly when it has the address shape. */
  lemma MatchesIffAddressShape(s: string)
    ensures Matches(s) <==> HasAddressShape(s)
  {
    if Matches(s) {
      MatchedAddressShape(s);
      var at, dot :| 0 < at < |s| && at < dot < |s| && SplitsAt(s, at, dot);
      assert s[at] == '@' && at + 1 < dot < |s| - 1 && s[dot] == '.';
    }
    if HasAddressShape(s) {
      var at, dot :| 0 < at < |s| && at < dot < |s| && s[at] == '@' && at + 1 < dot < |s| - 1 && s[dot] == '.';
      OccursOnlyAt(s, '@', at);
      assert IsRun(s[..at]);
      assert IsRun(s[at + 1..dot]);
      assert IsRun(s[dot + 1..]);
      assert SplitsAt(s, at, dot);
    }
  }

  /** A string with white space anywhere is never accepted: the three runs, the `@` and
      the `.` leave no place for it. */
  lemma WhiteSpaceNeverMatches(s: string, i: int)
    requires 0 <= i < |s| && IsWhiteSpace(s[i])
    ensures !Matches(s)
  {
    forall at, dot | 0 < at < |s| && at < dot < |s| ensures !SplitsAt(s, at, dot) {
      if i < at {
        assert s[i] == s[..at][i];
      } else if at < i < dot {
        assert s[i] == s[at + 1..dot][i - at - 1];
      } else if dot < i {
        assert s[i] == s[dot + 1..][i - dot - 1];
      }
    }
  }
}
