// Project codes of the form `XX-YYYY-MM`: two to four upper-case letters,
// a four-digit year and a two-digit month.
module ProjectCodeValue {
  import opened Core
  import opened Text
  import opened Calendar
  import Guard

  datatype ProjectCode = ProjectCode(value: string)

  const PatternMessage: string := "Project code must follow pattern: XX-YYYY-MM (e.g., WEB-2024-01)"

  /** The body of `^[A-Z]{2,4}-\d{4}-\d{2}$`, read from the right end of `s`. */
  predicate CodeShape(s: string)
  {
    10 <= |s| <= 12
    && (forall i :: 0 <= i < |s| - 8 ==> IsAsciiUpper(s[i]))
    && s[|s| - 8] == '-'
    && (forall i :: |s| - 7 <= i < |s| - 3 ==> IsAsciiDigit(s[i]))
    && s[|s| - 3] == '-'
    && IsAsciiDigit(s[|s| - 2]) && IsAsciiDigit(s[|s| - 1])
  }

  /**
   * `IsMatch` of the code pattern.  Without `RegexOptions.Multiline`, .NET's
   * `$` also matches just before a final line feed, so a code followed by one
   * `\n` matches too.
   */
  predicate MatchesPattern(s: string)
  {
    CodeShape(s) || (|s| >= 1 && s[|s| - 1] == '\n' && CodeShape(s[..|s| - 1]))
  }

  /** `new ProjectCode(value)`: non-blank, matching the pattern; the value is stored upper-cased. */
  function Create(value: string): (r: Outcome<ProjectCode>)
    ensures r.Returned? <==> MatchesPattern(value)
    ensures IsBlank(value) ==> r == Threw(ArgumentException("value", "Value cannot be null or empty"))
    ensures !IsBlank(value) && !MatchesPattern(value) ==> r == Threw(DomainException(PatternMessage))
    ensures r.Returned? ==> r.value.value == value
  {
    var _ :- Guard.AgainstNullOrEmpty(Some(value), "value");
    var _ :- Guard.Against(!MatchesPattern(value), PatternMessage);
    MatchUpperCase(value);
    Returned(ProjectCode(ToUpper(value)))
  }

  /** A matching string is non-blank and already upper case. */
  lemma MatchUpperCase(s: string)
    ensures MatchesPattern(s) ==> !IsBlank(s) && ToUpper(s) == s
  {
    if MatchesPattern(s) {
      assert !IsWhiteSpace(s[0]);
      assert ToUpper(s) == s;
    }
  }

  /**
   * `ProjectCode.Generate(prefix, date)`: the prefix must be non-blank and two
   * to four characters long; the code is `PREFIX-YYYY-MM` with the prefix
   * upper-cased and the month padded to two digits.
   */
  function Generate(prefix: string, date: Instant): (r: Outcome<ProjectCode>)
    ensures IsBlank(prefix) ==> r == Threw(ArgumentException("prefix", "Value cannot be null or empty"))
    ensures !IsBlank(prefix) && (|prefix| < 2 || |prefix| > 4) ==> r == Threw(DomainException("Prefix must be 2-4 characters"))
  {
    var _ :- Guard.AgainstNullOrEmpty(Some(prefix), "prefix");
    var _ :- Guard.Against(|prefix| < 2 || |prefix| > 4, "Prefix must be 2-4 characters");
    Create(Candidate(prefix, date))
  }

  /** The string `Generate` passes to the constructor. */
  function Candidate(prefix: string, date: Instant): string
  {
    ToUpper(prefix) + "-" + NatToString(YearOf(DateOf(date))) + "-" + FormatD2(MonthOf(DateOf(date)))
  }

  predicate AllUpper(s: string)
  {
    forall i :: 0 <= i < |s| ==> IsAsciiUpper(s[i])
  }

  /**
   * `Generate` succeeds exactly when the upper-cased prefix is two to four
   * letters and the year has four digits; the code is then the candidate.
   * A prefix holding a non-letter, or a year below 1000, fails the pattern.
   */
  lemma GenerateSucceedsIff(prefix: string, date: Instant)
    ensures Generate(prefix, date).Returned? <==>
              2 <= |prefix| <= 4 && AllUpper(ToUpper(prefix)) && 1000 <= YearOf(DateOf(date)) <= 9999
    ensures Generate(prefix, date).Returned? ==> Generate(prefix, date).value.value == Candidate(prefix, date)
    ensures !IsBlank(prefix) && 2 <= |prefix| <= 4 && !(AllUpper(ToUpper(prefix)) && 1000 <= YearOf(DateOf(date)) <= 9999) ==>
              Generate(prefix, date) == Threw(DomainException(PatternMessage))
  {
    var y := YearOf(DateOf(date));
    FourDigits(y);
    if 2 <= |prefix| <= 4 {
      CandidateMatchesIff(ToUpper(prefix), NatToString(y), FormatD2(MonthOf(DateOf(date))));
      if AllUpper(ToUpper(prefix)) {
        assert !IsWhiteSpace(ToUpper(prefix)[0]);
        assert !IsWhiteSpace(prefix[0]);
      }
    }
  }

  /** `u-y-m` with a two-character `m` matches exactly when `u` is all letters and `y` has four digits. */
  lemma CandidateMatchesIff(u: string, y: string, m: string)
    requires 2 <= |u| <= 4 && |m| == 2 && |y| >= 1
    requires forall i :: 0 <= i < |y| ==> IsAsciiDigit(y[i])
    requires forall i :: 0 <= i < |m| ==> IsAsciiDigit(m[i])
    ensures MatchesPattern(u + "-" + y + "-" + m) <==> |y| == 4 && AllUpper(u)
  {
    var s := u + "-" + y + "-" + m;
    var n := |s|;
    assert s[n - 1] == m[1];
    if |y| < 4 {
      assert s[|u|] == '-';
    } else if |y| > 4 {
      assert s[n - 8] == y[|y| - 5];
    } else {
      if AllUpper(u) {
        assert s[n - 8] == '-';
        assert CodeShape(s);
      }
      if CodeShape(s) {
        forall i | 0 <= i < |u|
          ensures IsAsciiUpper(u[i])
        {
          assert s[i] == u[i];
        }
      }
    }
  }

  /** A string of the bare pattern holds exactly two hyphens. */
  lemma CodeShapeHyphens(s: string)
    requires CodeShape(s)
    ensures Count('-', s) == 2
  {
    var n := |s|;
    var a, b, c := s[..n - 8], s[n - 7..n - 3], s[n - 2..];
    assert s == a + [s[n - 8]] + b + [s[n - 3]] + c;
    CountAppend('-', a + [s[n - 8]] + b + [s[n - 3]], c);
    CountAppend('-', a + [s[n - 8]] + b, [s[n - 3]]);
    CountAppend('-', a + [s[n - 8]], b);
    CountAppend('-', a, [s[n - 8]]);
    CountAbsent('-', a);
    CountAbsent('-', b);
    CountAbsent('-', c);
  }

  /**
   * The candidate the unique-code generator tries after a collision,
   * `PREFIX-YYYY-MM-NN`, never matches the pattern: it holds at least three
   * hyphens and does not end in a line feed.
   */
  lemma SuffixedCodeNeverMatches(prefix: string, date: Instant, counter: nat)
    ensures !MatchesPattern(Candidate(prefix, date) + "-" + FormatD2(counter))
  {
    var u := ToUpper(prefix);
    var y := NatToString(YearOf(DateOf(date)));
    var m := FormatD2(MonthOf(DateOf(date)));
    var k := FormatD2(counter);
    var s := u + "-" + y + "-" + m + "-" + k;
    assert Candidate(prefix, date) + "-" + k == s;
    assert s[|s| - 1] == k[|k| - 1];
    CountAppend('-', u + "-" + y + "-" + m + "-", k);
    CountAppend('-', u + "-" + y + "-" + m, "-");
    CountAppend('-', u + "-" + y + "-", m);
    CountAppend('-', u + "-" + y, "-");
    CountAppend('-', u + "-", y);
    CountAppend('-', u, "-");
    if CodeShape(s) {
      CodeShapeHyphens(s);
    }
  }
}
