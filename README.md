# Password strength evaluator in Dafny

This project models `evaluate_password` from `password_checker.py`. The function takes a password and returns five things:

- five boolean **criteria**: at least 8 characters, an upper-case letter, a lower-case letter, a digit, and a special character from `SPECIALS`;
- a **score** from 0 to 5, the number of criteria met;
- a strength **label**: Weak, Moderate, Strong or Very Strong;
- an **entropy estimate** of `length * log2(charset)` bits, where the charset size sums 26, 26, 10 and 33 over the classes present and falls back to 26 when none is present;
- an ordered list of **suggestions**. This list comes from the criteria, the password length, a run of three equal characters, and a case-insensitive common word (`password`, `qwerty`, `abc`, `1234`).

The project has three files:

- `Sequences.dfy` (module `Sequences`) holds generic facts.
  - Counting the true flags: how the score is summed.
  - Selecting the entries of a fixed list whose flag is set: what a fixed run of conditional `append`s produces.
  - `AppendFrom`, that run of appends written as a fold.
- `PasswordChecker.dfy` (module `PasswordChecker`) is the evaluator.
  - Each regular-expression search is a recursive scan proved equal to the predicate the pattern denotes.
  - The step-by-step parts of the source are methods proved against specification functions:
    - `BuildCharset`, the `charset +=` updates and the `or 26` fallback, against `CharsetSize`;
    - `Suggest`, the seven conditional appends, against `ExpectedSuggestions`.
  - `EvaluatePassword` assembles the result as an `Evaluation` datatype.
- `Examples.dfy` (module `PasswordExamples`) has three parts:
  - the suggestion list written out rule by rule;
  - whole classes of passwords: spaces only, newlines only, and the empty password;
  - worked examples: `password`, `Aa1!aaaa` and `aaa12345`.

The entropy is kept symbolic.
- `Entropy(length, charsetSize)` stands for `length * log2(charsetSize)` bits.
- `GuessSpace` is `charsetSize ^ length`, whose base-2 logarithm is that number of bits.
- The properties of the bits are proved on `GuessSpace` and carry over through the logarithm:
  - 0 bits for the empty password: the space is 1;
  - additive in the length: the space multiplies;
  - monotone in the length: the space grows.

All operations are functions, or methods whose results are pinned to functions, so evaluating the same password twice gives the same result.

## Behaviour worth noting

- **Space is special.** The space is the first character of `SPECIALS` (password_checker.py:10), and `.` in the repeat pattern matches it (password_checker.py:57).
  - A password of eight or more spaces meets the length and special criteria.
  - It scores 2 and is labelled Weak.
  - Its charset size is 33.
  - The repeat rule fires for it.

  `PasswordExamples.SpacesOutcome` states this.
- **`Aa1!aaaa` has a repeat.** The password contains `aaa`, so it gets the repeat suggestion (password_checker.py:57-58) after "Use 12+ characters". See `PasswordExamples.AllClassesExample`.
- **Label text.** The top label is the string `"Very Strong"`, with a space (password_checker.py:33).
- **`aaa12345` matches a common word.** It contains `1234`, so it gets "Avoid common patterns/words" (password_checker.py:59-60) after the repeat suggestion. See `PasswordExamples.RunAndSequenceExample`.

## Model

| member | source | states |
|---|---|---|
| PasswordChecker.Specials | password_checker.py:10 | The special characters, character for character: the space and the 32 ASCII punctuation marks. |
| PasswordChecker.InClass | password_checker.py:16-19 | The four character classes are `A`-`Z`, `a`-`z`, `0`-`9` and the characters of `SPECIALS`. Every class holds only printable ASCII characters. |
| PasswordChecker.HasRun | password_checker.py:57 | What `(.)\1\1` means: three equal adjacent characters, the first not a newline. Such a run needs at least 3 characters. |
| PasswordChecker.HasCommonWord | password_checker.py:59 | What the case-insensitive alternation means: one of `password`, `qwerty`, `abc`, `1234` occurs in the password after ASCII lower-casing. A match needs at least 3 characters. |
| PasswordChecker.Triggers | password_checker.py:47-59 | The seven append conditions, in order: fewer than 12 characters, each of the four missing classes, a run (`HasRun`), a common word (`HasCommonWord`). |
| PasswordChecker.SpecialsArePunctuation | password_checker.py:10 | `SPECIALS` has 33 characters. They are pairwise distinct, all printable ASCII, and include no letter or digit. |
| PasswordChecker.SearchClass | password_checker.py:16-19 | The one-class search finds something iff some character of the password lies in the class. |
| PasswordChecker.SearchRun | password_checker.py:57 | `(.)\1\1` matches iff some `i` has `s[i] == s[i+1] == s[i+2]` and `s[i]` is not a newline. |
| PasswordChecker.RunShift | password_checker.py:57 | A run lies at the front of the string or in its tail. |
| PasswordChecker.LowerChar | password_checker.py:59 | ASCII case folding: `A`-`Z` maps to `a`-`z`, and every other character is unchanged. |
| PasswordChecker.LowerString | password_checker.py:59 | Lower-casing keeps the length and folds each character. |
| PasswordChecker.SearchWord | password_checker.py:59 | One alternative is found iff some window of the password, lower-cased, equals it. |
| PasswordChecker.WordShift | password_checker.py:59 | A match lies at the front of the string or in its tail. |
| PasswordChecker.SearchWords | password_checker.py:59 | The alternation is found iff one of the alternatives matches at some position. |
| PasswordChecker.SearchCommon | password_checker.py:59 | The common-word search is found iff `password`, `qwerty`, `abc` or `1234` occurs case-insensitively. |
| PasswordChecker.Checks | password_checker.py:14-20 | Length holds iff the password has at least 8 characters. Each class flag holds iff some character lies in its range or in `SPECIALS`. |
| PasswordChecker.Score | password_checker.py:23 | The score is the number of true criteria and lies in 0..5. It is 0 iff no criterion holds and 5 iff all hold. |
| Sequences.CountTrue | password_checker.py:23 | The count is at most the length. It is 0 iff no flag is set, and the full length iff every flag is set. |
| PasswordChecker.Label | password_checker.py:26-33 | The label is one of the four names. Weak iff score ≤ 2, Moderate iff 3, Strong iff 4, Very Strong iff ≥ 5. |
| PasswordChecker.LabelMonotone | password_checker.py:26-33 | A higher score never gives a weaker label. |
| PasswordChecker.CharsetSize | password_checker.py:36-42 | The size is 26·lower + 26·upper + 10·digit + 33·special, or 26 when no class is present. It is always in 10..95, and 95 iff all four classes are present. |
| PasswordChecker.BuildCharset | password_checker.py:36-42 | The step-by-step additions with the fallback produce exactly `CharsetSize`. |
| PasswordChecker.GuessSpace | password_checker.py:43 | The counted space is at least 1 for a non-empty charset, so the bits are never negative. It is exactly 1 for the empty password, so the bits are 0. |
| PasswordChecker.EntropyAdditive | password_checker.py:43 | For a fixed charset, the bits for `m + n` characters are the bits for `m` plus the bits for `n`. So doubling the length doubles the bits. |
| PasswordChecker.EntropyMonotone | password_checker.py:43 | For a fixed charset, the bits never decrease as the length grows. |
| PasswordChecker.ExpectedSuggestions | password_checker.py:46-60 | At most seven suggestions. |
| PasswordChecker.Suggest | password_checker.py:46-60 | The seven conditional appends, in their order, produce exactly the selected entries of the fixed list. |
| PasswordChecker.AllSuggestionsDistinct | password_checker.py:46-60 | The seven suggestion texts differ from each other. |
| PasswordChecker.SuggestionConditions | password_checker.py:47-60 | Each suggestion appears iff its condition holds: fewer than 12 characters; one per missing class; a repeat run; a common word. |
| PasswordChecker.SuggestionsShape | password_checker.py:46-60 | The suggestions never repeat, number at most seven, and are a subsequence of the fixed list. |
| PasswordChecker.NoSuggestions | password_checker.py:14-60 | No suggestion iff the password has at least 12 characters, all four classes, no run and no common word. |
| PasswordChecker.EvaluatePassword | password_checker.py:12-62 | The result holds the criteria, a score equal to the count of true criteria (at most 5), the label of that score, the entropy of the length and the charset size (in 10..95), and the suggestions. |
| Sequences.SelectMembers | password_checker.py:46-60 | A text is selected iff it sits at a position whose flag is set. |
| Sequences.SelectLength | password_checker.py:46-60 | As many entries are selected as flags are set. Nothing is selected iff no flag is set. |
| Sequences.SelectDistinct | password_checker.py:46-60 | Selecting from a list without repeats gives a list without repeats. |
| Sequences.SelectSubsequence | password_checker.py:46-60 | What is selected keeps the order of the list. |
| Sequences.AppendFromStep | password_checker.py:47-48 | One conditional append adds the entry exactly when its flag is set. |
| Sequences.AppendFromSelect | password_checker.py:46-60 | A run of conditional appends adds exactly the selected entries, in order. |
| Sequences.AppendSeven | password_checker.py:46-60 | Seven conditional appends, starting from the empty list, give the seven optional entries concatenated in order. |
| PasswordExamples.SelectedSuggestions | password_checker.py:46-60 | The suggestion list is the seven optional texts concatenated in the fixed order. |
| PasswordExamples.SuggestionsWrittenOut | password_checker.py:46-60 | The suggestions, written out as one optional text per rule, each guarded by its condition on the password. |
| PasswordExamples.ChecksAreOccurs | password_checker.py:14-20 | The criteria are the length rule and the four class searches. |
| PasswordExamples.AlnumNotSpecial | password_checker.py:10 | A letter or a digit is never a special character. |
| PasswordExamples.LowerOnly | password_checker.py:16-19 | A password made only of lower-case letters has no other class. It has the lower-case class iff it is non-empty. |
| PasswordExamples.SpacesOnly | password_checker.py:16-19 | A password made only of spaces has the special class and no other. It has a run iff it has at least 3 characters, and it contains no common word. |
| PasswordExamples.NewlinesOnly | password_checker.py:16-19 | A password made only of newlines has no class, no run (`.` skips newlines) and no common word. |
| PasswordExamples.WordNeedsChar | password_checker.py:59 | A word cannot match where one of its characters is missing, after lower-casing. |
| PasswordExamples.NoCommonWordWithout | password_checker.py:59 | Without `s`, `q`, `b` or `2`, in either case, no common word occurs. |
| PasswordExamples.SpacesOutcome | password_checker.py:12-62 | Eight or more spaces give criteria (length, special), score 2, Weak and charset 33. The suggestions are the length hint if under 12, then upper, lower, digit and repeat. |
| PasswordExamples.SpacesCriteria | password_checker.py:14-42 | Criteria, score, label and charset from the class facts of a space-only password. |
| PasswordExamples.SpacesSuggestions | password_checker.py:46-60 | Suggestions from the facts of a space-only password. |
| PasswordExamples.NewlinesOutcome | password_checker.py:12-62 | Newlines only: no class criterion, charset fallback 26. The suggestions are the length hint if under 12, then the four class hints, with no repeat hint. |
| PasswordExamples.NewlinesCriteria | password_checker.py:14-42 | Criteria, score, label and charset of a password with no class. |
| PasswordExamples.NewlinesSuggestions | password_checker.py:46-60 | Suggestions of a password with no class, no run and no common word. |
| PasswordExamples.EmptyOutcome | password_checker.py:12-62 | The empty password: all criteria false, score 0, Weak, charset 26, 0 bits. The suggestions are exactly the first five texts. |
| PasswordExamples.CommonWordFacts | password_checker.py:14-60 | `password` has only lower-case letters, no run, and contains a common word. |
| PasswordExamples.CommonWordCriteria | password_checker.py:14-42 | An 8-character password with no upper-case letter, some lower-case letter, no digit and no special character has criteria (length, lower), score 2, Weak and charset 26. |
| PasswordExamples.CommonWordSuggestions | password_checker.py:46-60 | Its suggestions are: 12+, upper, digit, special, common. |
| PasswordExamples.CommonWordExample | password_checker.py:12-62 | The full result for `password`. |
| PasswordExamples.AllClassesFacts | password_checker.py:14-60 | `Aa1!aaaa` has every class and a run, and no common word. |
| PasswordExamples.AllClassesCriteria | password_checker.py:14-42 | An 8-character password with every class has score 5, Very Strong and charset 95. |
| PasswordExamples.AllClassesSuggestions | password_checker.py:46-60 | Its suggestions are: 12+, repeat. |
| PasswordExamples.AllClassesExample | password_checker.py:12-62 | The full result for `Aa1!aaaa`. |
| PasswordExamples.RunAndSequenceFacts | password_checker.py:14-60 | `aaa12345` has lower-case letters and digits, the run `aaa` and the sequence `1234`. |
| PasswordExamples.RunAndSequenceCriteria | password_checker.py:14-42 | An 8-character password with lower-case letters and digits has score 3, Moderate and charset 36. |
| PasswordExamples.RunAndSequenceSuggestions | password_checker.py:46-60 | Its suggestions are: 12+, upper, special, repeat, common. |
| PasswordExamples.RunAndSequenceExample | password_checker.py:12-62 | The full result for `aaa12345`. |
| PasswordExamples.SpacesList | password_checker.py:46-60 | The suggestion list of a space-only password, with the length hint left open. |
| PasswordExamples.NewlinesList | password_checker.py:46-60 | The suggestion list of a newline-only password, with the length hint left open. |

## Left out

Each line names something the evaluator or the file does that the model does not capture, with the reason.

- **GUI and entry point.** The Tkinter window class (password_checker.py:67-211) and the `__main__` block (password_checker.py:216-218) are not modelled. They are widgets, styling, key bindings and clipboard access, none of which affects the evaluation.
- **Floating-point entropy.** `math.log2` (password_checker.py:43) is not computed. The model returns the length and the charset size, and states the properties of the bits through `GuessSpace`, whose base-2 logarithm they are.
- **`\d` is ASCII.** Python's `\d` (password_checker.py:18) also matches non-ASCII decimal digits, for example Arabic-Indic digits. The model's digit class is `0`-`9` only.
- **Case folding is ASCII.** Python's `re.I` (password_checker.py:59) also folds some non-ASCII characters onto ASCII letters; for example the long s `ſ` matches `s`. The model folds only `A`-`Z`, so a password such as `paſsword` triggers the common-word hint in Python but not in the model.
- **The regex engine.** `re.search` and `re.escape` are replaced by the predicates their patterns denote: one character class, a run of three, an alternation of four words.
- **Return type.** Python returns a tuple of a dict, an int, a string, a float and a list. The model returns the `Evaluation` datatype with the same parts, with the entropy as an `Entropy` value.
