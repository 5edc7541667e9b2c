/**
 Consequences of the evaluator's rules for particular kinds of password, and
 worked examples that pin down its output for concrete inputs.
 */
module PasswordExamples {
  import opened Sequences
  import opened PasswordChecker

  /** The selected suggestions written out, one optional entry per rule in the fixed order. */
  lemma SelectedSuggestions(t: seq<bool>)
    requires |t| == |AllSuggestions|
    ensures Select(AllSuggestions, t) ==
      Opt(t[0], UseTwelve) + Opt(t[1], AddUpper) + Opt(t[2], AddLower) + Opt(t[3], AddDigit) +
      Opt(t[4], AddSpecial) + Opt(t[5], AvoidRepeat) + Opt(t[6], AvoidCommon)
  {
    AppendSeven(AllSuggestions, t);
    AppendFromSelect([], AllSuggestions, t, 0);
    assert AllSuggestions[0..] == AllSuggestions && t[0..] == t;
  }

  /** The suggestions for a password, written out in terms of the properties of the password. */
  lemma SuggestionsWrittenOut(pw: string)
    ensures ExpectedSuggestions(pw, Checks(pw)) ==
      Opt(|pw| < 12, UseTwelve) + Opt(!Occurs(Upper, pw), AddUpper) +
      Opt(!Occurs(Lower, pw), AddLower) + Opt(!Occurs(Digit, pw), AddDigit) +
      Opt(!Occurs(Special, pw), AddSpecial) + Opt(HasRun(pw), AvoidRepeat) +
      Opt(HasCommonWord(pw), AvoidCommon)
  {
    SelectedSuggestions(Triggers(pw, Checks(pw)));
  }

  /** The criteria are the length rule and the four class searches. */
  lemma ChecksAreOccurs(pw: string)
    ensures Checks(pw) ==
      Criteria(|pw| >= 8, Occurs(Upper, pw), Occurs(Lower, pw), Occurs(Digit, pw), Occurs(Special, pw))
  {
  }

  // ---------------------------------------------------------------------------
  // Passwords of one kind of character
  // ---------------------------------------------------------------------------

  /** Letters and digits are never special characters. */
  lemma AlnumNotSpecial(ch: char)
    requires InClass(Upper, ch) || InClass(Lower, ch) || InClass(Digit, ch)
    ensures ch !in Specials
  {
    SpecialsArePunctuation();
  }

  /** Only lower-case letters: the lower-case class (unless empty) and no other. */
  lemma LowerOnly(pw: string)
    requires forall i :: 0 <= i < |pw| ==> 'a' <= pw[i] <= 'z'
    ensures !Occurs(Upper, pw) && (Occurs(Lower, pw) <==> |pw| > 0)
    ensures !Occurs(Digit, pw) && !Occurs(Special, pw)
  {
    forall i | 0 <= i < |pw| ensures pw[i] !in Specials {
      AlnumNotSpecial(pw[i]);
    }
    if |pw| > 0 {
      assert 'a' <= pw[0] <= 'z';
    }
  }

  /**
   Only spaces: the space counts as a special character and no other class
   occurs; three spaces in a row are a repeat; no common word occurs.
   */
  lemma SpacesOnly(pw: string)
    requires forall i :: 0 <= i < |pw| ==> pw[i] == ' '
    ensures !Occurs(Upper, pw) && !Occurs(Lower, pw) && !Occurs(Digit, pw)
    ensures Occurs(Special, pw) <==> |pw| > 0
    ensures HasRun(pw) <==> |pw| >= 3
    ensures !HasCommonWord(pw)
  {
    if |pw| > 0 {
      assert pw[0] == Specials[0];
    }
    if |pw| >= 3 {
      assert RunAt(pw, 0);
    }
    NoCommonWordWithout(pw);
  }

  /**
   Only newlines: no class occurs, and there is no repeat, because the
   pattern's `.` does not match a newline.
   */
  lemma NewlinesOnly(pw: string)
    requires forall i :: 0 <= i < |pw| ==> pw[i] == '\n'
    ensures !Occurs(Upper, pw) && !Occurs(Lower, pw) && !Occurs(Digit, pw) && !Occurs(Special, pw)
    ensures !HasRun(pw)
    ensures !HasCommonWord(pw)
  {
    SpecialsArePunctuation();
    NoCommonWordWithout(pw);
  }

  /** A window matching `w` holds, lower-cased, every character of `w`. */
  lemma {:induction false} WordNeedsChar(w: string, s: string, j: int)
    requires 0 <= j < |w|
    requires forall i :: 0 <= i < |s| ==> LowerChar(s[i]) != w[j]
    ensures forall i :: !MatchesAt(w, s, i)
  {
    forall i | 0 <= i && i + |w| <= |s| ensures !MatchesAt(w, s, i) {
      assert LowerString(s[i..i + |w|])[j] == LowerChar(s[i + j]) != w[j];
    }
  }

  /** Without an `s`, a `q`, a `b` or a `2` in either case no common word can occur. */
  lemma NoCommonWordWithout(s: string)
    requires forall i :: 0 <= i < |s| ==> LowerChar(s[i]) !in "sqb2"
    ensures !HasCommonWord(s)
  {
    WordNeedsChar(CommonWords[0], s, 2);
    WordNeedsChar(CommonWords[1], s, 0);
    WordNeedsChar(CommonWords[2], s, 1);
    WordNeedsChar(CommonWords[3], s, 1);
  }

  // ---------------------------------------------------------------------------
  // Whole classes of passwords
  // ---------------------------------------------------------------------------

  /**
   A password of eight or more spaces meets the length and special criteria
   (score 2, weak), draws on the 33 specials, and is told to avoid repeats.
   */
  lemma SpacesOutcome(pw: string)
    requires |pw| >= 8 && forall i :: 0 <= i < |pw| ==> pw[i] == ' '
    ensures Checks(pw) == Criteria(true, false, false, false, true)
    ensures Score(Checks(pw)) == 2 && Label(Score(Checks(pw))) == "Weak"
    ensures CharsetSize(Checks(pw)) == 33
    ensures ExpectedSuggestions(pw, Checks(pw)) ==
      Opt(|pw| < 12, UseTwelve) + [AddUpper, AddLower, AddDigit, AvoidRepeat]
  {
    SpacesOnly(pw);
    SpacesCriteria(pw);
    SpacesSuggestions(pw);
  }

  /** What the class facts of a space-only password of eight or more give for the criteria. */
  lemma SpacesCriteria(pw: string)
    requires |pw| >= 8
    requires !Occurs(Upper, pw) && !Occurs(Lower, pw) && !Occurs(Digit, pw) && Occurs(Special, pw)
    ensures Checks(pw) == Criteria(true, false, false, false, true)
    ensures Score(Checks(pw)) == 2 && Label(Score(Checks(pw))) == "Weak"
    ensures CharsetSize(Checks(pw)) == 33
  {
    ChecksAreOccurs(pw);
  }

  /** What the class, repeat and common-word facts of a space-only password give for the suggestions. */
  lemma SpacesSuggestions(pw: string)
    requires !Occurs(Upper, pw) && !Occurs(Lower, pw) && !Occurs(Digit, pw) && Occurs(Special, pw)
    requires HasRun(pw) && !HasCommonWord(pw)
    ensures ExpectedSuggestions(pw, Checks(pw)) ==
      Opt(|pw| < 12, UseTwelve) + [AddUpper, AddLower, AddDigit, AvoidRepeat]
  {
    SuggestionsWrittenOut(pw);
    SpacesList(|pw| < 12);
  }

  /** The suggestion list of a space-only password, with the length hint left open. */
  lemma SpacesList(b: bool)
    ensures Opt(b, UseTwelve) + Opt(true, AddUpper) + Opt(true, AddLower) + Opt(true, AddDigit) +
      Opt(false, AddSpecial) + Opt(true, AvoidRepeat) + Opt(false, AvoidCommon) ==
      Opt(b, UseTwelve) + [AddUpper, AddLower, AddDigit, AvoidRepeat]
  {
  }

  /**
   A password of newlines meets no class criterion, falls back to a charset
   of 26, and is not told to avoid repeats.
   */
  lemma NewlinesOutcome(pw: string)
    requires forall i :: 0 <= i < |pw| ==> pw[i] == '\n'
    ensures Checks(pw) == Criteria(|pw| >= 8, false, false, false, false)
    ensures Score(Checks(pw)) == Bit(|pw| >= 8) && Label(Score(Checks(pw))) == "Weak"
    ensures CharsetSize(Checks(pw)) == 26
    ensures ExpectedSuggestions(pw, Checks(pw)) ==
      Opt(|pw| < 12, UseTwelve) + [AddUpper, AddLower, AddDigit, AddSpecial]
  {
    NewlinesOnly(pw);
    NewlinesCriteria(pw);
    NewlinesSuggestions(pw);
  }

  /** What the facts of a newline-only password give for the suggestions. */
  lemma NewlinesSuggestions(pw: string)
    requires !Occurs(Upper, pw) && !Occurs(Lower, pw) && !Occurs(Digit, pw) && !Occurs(Special, pw)
    requires !HasRun(pw) && !HasCommonWord(pw)
    ensures ExpectedSuggestions(pw, Checks(pw)) ==
      Opt(|pw| < 12, UseTwelve) + [AddUpper, AddLower, AddDigit, AddSpecial]
  {
    SuggestionsWrittenOut(pw);
    NewlinesList(|pw| < 12);
  }

  /** The suggestion list of a newline-only password, with the length hint left open. */
  lemma NewlinesList(b: bool)
    ensures Opt(b, UseTwelve) + Opt(true, AddUpper) + Opt(true, AddLower) + Opt(true, AddDigit) +
      Opt(true, AddSpecial) + Opt(false, AvoidRepeat) + Opt(false, AvoidCommon) ==
      Opt(b, UseTwelve) + [AddUpper, AddLower, AddDigit, AddSpecial]
  {
  }

  /** What the class facts of a newline-only password give for the criteria. */
  lemma NewlinesCriteria(pw: string)
    requires !Occurs(Upper, pw) && !Occurs(Lower, pw) && !Occurs(Digit, pw) && !Occurs(Special, pw)
    ensures Checks(pw) == Criteria(|pw| >= 8, false, false, false, false)
    ensures Score(Checks(pw)) == Bit(|pw| >= 8) && Label(Score(Checks(pw))) == "Weak"
    ensures CharsetSize(Checks(pw)) == 26
  {
    ChecksAreOccurs(pw);
  }

  /** The empty password meets nothing, scores 0, has 0 bits, and gets the first five suggestions. */
  lemma EmptyOutcome(pw: string)
    requires pw == []
    ensures Checks(pw) == Criteria(false, false, false, false, false)
    ensures Score(Checks(pw)) == 0 && Label(Score(Checks(pw))) == "Weak"
    ensures CharsetSize(Checks(pw)) == 26 && GuessSpace(Entropy(|pw|, 26)) == 1
    ensures ExpectedSuggestions(pw, Checks(pw)) == AllSuggestions[..5]
  {
    NewlinesOutcome(pw);
  }

  // ---------------------------------------------------------------------------
  // Worked examples: the facts about a concrete password, what follows from
  // those facts, and the two put together
  // ---------------------------------------------------------------------------

  /** `password` has only lower-case letters, no repeat, and is a common word. */
  lemma CommonWordFacts(pw: string)
    requires pw == "password"
    ensures !Occurs(Upper, pw) && Occurs(Lower, pw) && !Occurs(Digit, pw) && !Occurs(Special, pw)
    ensures !HasRun(pw) && HasCommonWord(pw)
  {
    LowerOnly(pw);
    assert !HasRun(pw);
    assert MatchesAt(CommonWords[0], pw, 0);
  }

  /** The criteria, score, label and charset of an 8-character password with the class facts of `password`. */
  lemma CommonWordCriteria(pw: string)
    requires |pw| == 8
    requires !Occurs(Upper, pw) && Occurs(Lower, pw) && !Occurs(Digit, pw) && !Occurs(Special, pw)
    ensures Checks(pw) == Criteria(true, false, true, false, false)
    ensures Score(Checks(pw)) == 2 && Label(Score(Checks(pw))) == "Weak"
    ensures CharsetSize(Checks(pw)) == 26
  {
    ChecksAreOccurs(pw);
  }

  /** The suggestions for an 8-character password with the facts of `password`. */
  lemma CommonWordSuggestions(pw: string)
    requires |pw| == 8
    requires !Occurs(Upper, pw) && Occurs(Lower, pw) && !Occurs(Digit, pw) && !Occurs(Special, pw)
    requires !HasRun(pw) && HasCommonWord(pw)
    ensures ExpectedSuggestions(pw, Checks(pw)) ==
      [UseTwelve, AddUpper, AddDigit, AddSpecial, AvoidCommon]
  {
    SuggestionsWrittenOut(pw);
    assert Opt(true, UseTwelve) + Opt(true, AddUpper) + Opt(false, AddLower) + Opt(true, AddDigit) +
      Opt(true, AddSpecial) + Opt(false, AvoidRepeat) + Opt(true, AvoidCommon) ==
      [UseTwelve, AddUpper, AddDigit, AddSpecial, AvoidCommon];
  }

  /** `password`: score 2, weak, charset 26, and five suggestions ending with the common-word one. */
  lemma CommonWordExample(pw: string)
    requires pw == "password"
    ensures Checks(pw) == Criteria(true, false, true, false, false)
    ensures Score(Checks(pw)) == 2 && Label(Score(Checks(pw))) == "Weak"
    ensures CharsetSize(Checks(pw)) == 26
    ensures ExpectedSuggestions(pw, Checks(pw)) ==
      [UseTwelve, AddUpper, AddDigit, AddSpecial, AvoidCommon]
  {
    CommonWordFacts(pw);
    CommonWordCriteria(pw);
    CommonWordSuggestions(pw);
  }

  /** `Aa1!aaaa` has every class and the run `aaa`, and no common word. */
  lemma AllClassesFacts(pw: string)
    requires pw == "Aa1!aaaa"
    ensures Occurs(Upper, pw) && Occurs(Lower, pw) && Occurs(Digit, pw) && Occurs(Special, pw)
    ensures HasRun(pw) && !HasCommonWord(pw)
  {
    assert InClass(Upper, pw[0]) && InClass(Lower, pw[1]) && InClass(Digit, pw[2]);
    assert pw[3] == Specials[1];
    assert RunAt(pw, 4);
    NoCommonWordWithout(pw);
  }

  /** The criteria, score, label and charset of an 8-character password with every class. */
  lemma AllClassesCriteria(pw: string)
    requires |pw| == 8
    requires Occurs(Upper, pw) && Occurs(Lower, pw) && Occurs(Digit, pw) && Occurs(Special, pw)
    ensures Checks(pw) == Criteria(true, true, true, true, true)
    ensures Score(Checks(pw)) == 5 && Label(Score(Checks(pw))) == "Very Strong"
    ensures CharsetSize(Checks(pw)) == 95
  {
    ChecksAreOccurs(pw);
  }

  /** The suggestions for an 8-character password with the facts of `Aa1!aaaa`. */
  lemma AllClassesSuggestions(pw: string)
    requires |pw| == 8
    requires Occurs(Upper, pw) && Occurs(Lower, pw) && Occurs(Digit, pw) && Occurs(Special, pw)
    requires HasRun(pw) && !HasCommonWord(pw)
    ensures ExpectedSuggestions(pw, Checks(pw)) == [UseTwelve, AvoidRepeat]
  {
    SuggestionsWrittenOut(pw);
    assert Opt(true, UseTwelve) + Opt(false, AddUpper) + Opt(false, AddLower) + Opt(false, AddDigit) +
      Opt(false, AddSpecial) + Opt(true, AvoidRepeat) + Opt(false, AvoidCommon) ==
      [UseTwelve, AvoidRepeat];
  }

  /**
   `Aa1!aaaa`: score 5, very strong, charset 95, yet told to use twelve
   characters and to avoid the repeat.
   */
  lemma AllClassesExample(pw: string)
    requires pw == "Aa1!aaaa"
    ensures Checks(pw) == Criteria(true, true, true, true, true)
    ensures Score(Checks(pw)) == 5 && Label(Score(Checks(pw))) == "Very Strong"
    ensures CharsetSize(Checks(pw)) == 95
    ensures ExpectedSuggestions(pw, Checks(pw)) == [UseTwelve, AvoidRepeat]
  {
    AllClassesFacts(pw);
    AllClassesCriteria(pw);
    AllClassesSuggestions(pw);
  }

  /** `aaa12345` has lower-case letters and digits, the run `aaa` and the sequence `1234`. */
  lemma RunAndSequenceFacts(pw: string)
    requires pw == "aaa12345"
    ensures !Occurs(Upper, pw) && Occurs(Lower, pw) && Occurs(Digit, pw) && !Occurs(Special, pw)
    ensures HasRun(pw) && HasCommonWord(pw)
  {
    forall i | 0 <= i < |pw| ensures pw[i] !in Specials {
      AlnumNotSpecial(pw[i]);
    }
    assert InClass(Lower, pw[0]) && InClass(Digit, pw[3]);
    assert RunAt(pw, 0);
    assert MatchesAt(CommonWords[3], pw, 3);
  }

  /** The criteria, score, label and charset of an 8-character password with the class facts of `aaa12345`. */
  lemma RunAndSequenceCriteria(pw: string)
    requires |pw| == 8
    requires !Occurs(Upper, pw) && Occurs(Lower, pw) && Occurs(Digit, pw) && !Occurs(Special, pw)
    ensures Checks(pw) == Criteria(true, false, true, true, false)
    ensures Score(Checks(pw)) == 3 && Label(Score(Checks(pw))) == "Moderate"
    ensures CharsetSize(Checks(pw)) == 36
  {
    ChecksAreOccurs(pw);
  }

  /** The suggestions for an 8-character password with the facts of `aaa12345`. */
  lemma RunAndSequenceSuggestions(pw: string)
    requires |pw| == 8
    requires !Occurs(Upper, pw) && Occurs(Lower, pw) && Occurs(Digit, pw) && !Occurs(Special, pw)
    requires HasRun(pw) && HasCommonWord(pw)
    ensures ExpectedSuggestions(pw, Checks(pw)) ==
      [UseTwelve, AddUpper, AddSpecial, AvoidRepeat, AvoidCommon]
  {
    SuggestionsWrittenOut(pw);
    assert Opt(true, UseTwelve) + Opt(true, AddUpper) + Opt(false, AddLower) + Opt(false, AddDigit) +
      Opt(true, AddSpecial) + Opt(true, AvoidRepeat) + Opt(true, AvoidCommon) ==
      [UseTwelve, AddUpper, AddSpecial, AvoidRepeat, AvoidCommon];
  }

  /** `aaa12345`: score 3, moderate, charset 36, with both the repeat and the common-pattern suggestion. */
  lemma RunAndSequenceExample(pw: string)
    requires pw == "aaa12345"
    ensures Checks(pw) == Criteria(true, false, true, true, false)
    ensures Score(Checks(pw)) == 3 && Label(Score(Checks(pw))) == "Moderate"
    ensures CharsetSize(Checks(pw)) == 36
    ensures ExpectedSuggestions(pw, Checks(pw)) ==
      [UseTwelve, AddUpper, AddSpecial, AvoidRepeat, AvoidCommon]
  {
    RunAndSequenceFacts(pw);
    RunAndSequenceCriteria(pw);
    RunAndSequenceSuggestions(pw);
  }
}
