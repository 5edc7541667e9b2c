/**
 The password evaluator: five criteria, a score, a strength label, the charset
 size behind the entropy estimate, and an ordered list of suggestions.

 Each regular-expression search of the evaluator is a left-to-right scan
 (`SearchClass`, `SearchRun`, `SearchWords`) proved equal to the predicate the
 pattern denotes (`Occurs`, `HasRun`, `HasCommonWord`). Character classes are
 ASCII: `\d` is `0`-`9` and case-insensitive matching folds `A`-`Z` only.
 */
module PasswordChecker {
  import opened Sequences

  // ---------------------------------------------------------------------------
  // Character classes
  // ---------------------------------------------------------------------------

  /** The special characters: the space and the 32 ASCII punctuation marks. */
  const Specials: string := " !\"#$%&'()*+,-./:;<=>?@[\\]^_`{|}~"

  datatype CharClass = Upper | Lower | Digit | Special

  /**
   `ch` lies in `cls`. Every class holds only printable ASCII characters.
   */
  predicate InClass(cls: CharClass, ch: char): (r: bool)
    ensures r ==> ' ' <= ch <= '~'
  {
    match cls
    case Upper => 'A' <= ch <= 'Z'
    case Lower => 'a' <= ch <= 'z'
    case Digit => '0' <= ch <= '9'
    case Special => ch in Specials
  }

  /** The specials are 33 different printable ASCII characters, none a letter or a digit. */
  lemma SpecialsArePunctuation()
    ensures |Specials| == 33
    ensures forall i :: 0 <= i < |Specials| ==>
      ' ' <= Specials[i] <= '~' && !InClass(Upper, Specials[i]) &&
      !InClass(Lower, Specials[i]) && !InClass(Digit, Specials[i])
    ensures Distinct(Specials)
  {
    assert forall i :: 0 <= i < |Specials| - 1 ==> Specials[i] < Specials[i + 1];
    forall i, j | 0 <= i < j < |Specials| ensures Specials[i] < Specials[j] {
      var k := i;
      while k < j
        invariant i <= k <= j
        invariant Specials[i] <= Specials[k]
        invariant k > i ==> Specials[i] < Specials[k]
      {
        k := k + 1;
      }
    }
  }

  /** Some character of `s` lies in `cls`: what `re.search` with a one-class pattern finds. */
  ghost predicate Occurs(cls: CharClass, s: string)
  {
    exists i :: 0 <= i < |s| && InClass(cls, s[i])
  }

  /** Scans `s` from the left for a character of `cls`. */
  function SearchClass(cls: CharClass, s: string): (found: bool)
    ensures found <==> Occurs(cls, s)
  {
    if s == [] then false
    else if InClass(cls, s[0]) then true
    else
      assert forall i :: 1 <= i < |s| ==> s[i] == s[1..][i - 1];
      SearchClass(cls, s[1..])
  }

  // ---------------------------------------------------------------------------
  // The two pattern checks behind the last two suggestions
  // ---------------------------------------------------------------------------

  /** Three equal characters start at `i`; the first is not a newline, which `.` never matches. */
  predicate RunAt(s: string, i: int)
  {
    0 <= i && i + 2 < |s| && s[i] != '\n' && s[i] == s[i + 1] && s[i + 1] == s[i + 2]
  }

  /** What the pattern `(.)\1\1` finds somewhere in `s`. */
  ghost predicate HasRun(s: string): (r: bool)
    ensures r ==> |s| >= 3
  {
    exists i :: RunAt(s, i)
  }

  /** Scans `s` from the left for a run of three equal characters other than newline. */
  function SearchRun(s: string): (found: bool)
    ensures found <==> HasRun(s)
  {
    if |s| < 3 then
      assert forall i :: !RunAt(s, i);
      false
    else if RunAt(s, 0) then true
    else
      RunShift(s);
      SearchRun(s[1..])
  }

  /** A run lies at the front of `s` or in its tail. */
  lemma RunShift(s: string)
    requires s != []
    ensures HasRun(s) <==> RunAt(s, 0) || HasRun(s[1..])
  {
    if HasRun(s) {
      var i :| RunAt(s, i);
      if i > 0 {
        assert RunAt(s[1..], i - 1);
      }
    }
    if HasRun(s[1..]) {
      var j :| RunAt(s[1..], j);
      assert RunAt(s, j + 1);
    }
  }

  /** ASCII lower-casing of one character; every other character is left as it is. */
  function LowerChar(ch: char): (r: char)
    ensures 'A' <= ch <= 'Z' ==> 'a' <= r <= 'z' && r as int == ch as int + 32
    ensures !('A' <= ch <= 'Z') ==> r == ch
  {
    if 'A' <= ch <= 'Z' then (ch as int + 32) as char else ch
  }

  function LowerString(s: string): (r: string)
    ensures |r| == |s| && forall k :: 0 <= k < |s| ==> r[k] == LowerChar(s[k])
  {
    seq(|s|, k requires 0 <= k < |s| => LowerChar(s[k]))
  }

  /** The window of `s` starting at `i` equals `w` once lower-cased. */
  predicate MatchesAt(w: string, s: string, i: int)
  {
    0 <= i && i + |w| <= |s| && LowerString(s[i..i + |w|]) == w
  }

  /** The common words and sequences that the evaluator warns about. */
  const CommonWords: seq<string> := ["password", "qwerty", "abc", "1234"]

  /** What `(?:password|qwerty|abc|1234)` with case folding finds somewhere in `s`. */
  ghost predicate HasCommonWord(s: string): (r: bool)
    ensures r ==> |s| >= 3
  {
    exists k, i :: 0 <= k < |CommonWords| && MatchesAt(CommonWords[k], s, i)
  }

  /** Scans `s` from the left for a case-insensitive occurrence of `w`. */
  function SearchWord(w: string, s: string): (found: bool)
    ensures found <==> exists i :: MatchesAt(w, s, i)
  {
    if |s| < |w| then
      assert forall i :: !MatchesAt(w, s, i);
      false
    else if MatchesAt(w, s, 0) then true
    else
      WordShift(w, s);
      SearchWord(w, s[1..])
  }

  /** An occurrence of `w` lies at the front of `s` or in its tail. */
  lemma WordShift(w: string, s: string)
    requires s != []
    ensures (exists i :: MatchesAt(w, s, i)) <==> MatchesAt(w, s, 0) || exists j :: MatchesAt(w, s[1..], j)
  {
    if exists i :: MatchesAt(w, s, i) {
      var i :| MatchesAt(w, s, i);
      if i > 0 {
        assert s[1..][i - 1..i - 1 + |w|] == s[i..i + |w|];
        assert MatchesAt(w, s[1..], i - 1);
      }
    }
    if exists j :: MatchesAt(w, s[1..], j) {
      var j :| MatchesAt(w, s[1..], j);
      assert s[1..][j..j + |w|] == s[j + 1..j + 1 + |w|];
      assert MatchesAt(w, s, j + 1);
    }
  }

  /** Tries the alternatives `ws` in turn. */
  function SearchWords(ws: seq<string>, s: string): (found: bool)
    ensures found <==> exists k, i :: 0 <= k < |ws| && MatchesAt(ws[k], s, i)
  {
    if ws == [] then false
    else if SearchWord(ws[0], s) then true
    else
      assert forall k :: 0 < k < |ws| ==> ws[k] == ws[1..][k - 1];
      SearchWords(ws[1..], s)
  }

  /** The search for the common words: a case-insensitive occurrence of any of them. */
  function SearchCommon(s: string): (found: bool)
    ensures found <==> HasCommonWord(s)
  {
    SearchWords(CommonWords, s)
  }

  // ---------------------------------------------------------------------------
  // Criteria, score and label
  // ---------------------------------------------------------------------------

  datatype Criteria = Criteria(length: bool, upper: bool, lower: bool, digit: bool, special: bool)
  {
    /** The criteria in the order the evaluator lists them. */
    function AsSeq(): (bs: seq<bool>)
    {
      [length, upper, lower, digit, special]
    }
  }

  /** The five criteria of `pw`. */
  function Checks(pw: string): (c: Criteria)
    ensures c.length <==> |pw| >= 8
    ensures c.upper <==> exists i :: 0 <= i < |pw| && 'A' <= pw[i] <= 'Z'
    ensures c.lower <==> exists i :: 0 <= i < |pw| && 'a' <= pw[i] <= 'z'
    ensures c.digit <==> exists i :: 0 <= i < |pw| && '0' <= pw[i] <= '9'
    ensures c.special <==> exists i :: 0 <= i < |pw| && pw[i] in Specials
  {
    Criteria(|pw| >= 8, SearchClass(Upper, pw), SearchClass(Lower, pw),
             SearchClass(Digit, pw), SearchClass(Special, pw))
  }

  /** One point for a satisfied criterion. */
  function Bit(b: bool): (point: nat)
  {
    if b then 1 else 0
  }

  /** One point per satisfied criterion. */
  function Score(c: Criteria): (score: nat)
    ensures score == CountTrue(c.AsSeq())
    ensures score <= 5
    ensures score == 0 <==> c == Criteria(false, false, false, false, false)
    ensures score == 5 <==> c == Criteria(true, true, true, true, true)
  {
    var bs := c.AsSeq();
    assert CountTrue(bs[4..]) == Bit(c.special) by { assert bs[4..][1..] == []; }
    assert CountTrue(bs[3..]) == Bit(c.digit) + CountTrue(bs[4..]) by { assert bs[3..][1..] == bs[4..]; }
    assert CountTrue(bs[2..]) == Bit(c.lower) + CountTrue(bs[3..]) by { assert bs[2..][1..] == bs[3..]; }
    assert CountTrue(bs[1..]) == Bit(c.upper) + CountTrue(bs[2..]) by { assert bs[1..][1..] == bs[2..]; }
    Bit(c.length) + Bit(c.upper) + Bit(c.lower) + Bit(c.digit) + Bit(c.special)
  }

  /** The strength labels from weakest to strongest. */
  const Labels: seq<string> := ["Weak", "Moderate", "Strong", "Very Strong"]

  /** The strength label of a score. */
  function Label(score: int): (name: string)
    ensures name in Labels
    ensures name == "Weak" <==> score <= 2
    ensures name == "Moderate" <==> score == 3
    ensures name == "Strong" <==> score == 4
    ensures name == "Very Strong" <==> score >= 5
  {
    if score <= 2 then "Weak"
    else if score == 3 then "Moderate"
    else if score == 4 then "Strong"
    else "Very Strong"
  }

  /** The position of a label in `Labels`. */
  function Rank(name: string): (rank: nat)
  {
    if name == "Weak" then 0
    else if name == "Moderate" then 1
    else if name == "Strong" then 2
    else 3
  }

  /** A higher score never gives a weaker label. */
  lemma LabelMonotone(a: int, b: int)
    requires a <= b
    ensures Rank(Label(a)) <= Rank(Label(b))
    ensures Labels[Rank(Label(a))] == Label(a)
  {
  }

  // ---------------------------------------------------------------------------
  // Charset size and the entropy estimate
  // ---------------------------------------------------------------------------

  /** The charset size of the entropy estimate: the sizes of the classes the password uses, or 26 when it uses none. */
  function CharsetSize(c: Criteria): (size: nat)
    ensures 10 <= size <= 95
    ensures !(c.lower || c.upper || c.digit || c.special) ==> size == 26
    ensures (c.lower || c.upper || c.digit || c.special) ==>
      size == 26 * Bit(c.lower) + 26 * Bit(c.upper) + 10 * Bit(c.digit) + 33 * Bit(c.special)
    ensures size == 95 <==> c.lower && c.upper && c.digit && c.special
  {
    var pool := 26 * Bit(c.lower) + 26 * Bit(c.upper) + 10 * Bit(c.digit) + |Specials| * Bit(c.special);
    if pool == 0 then 26 else pool
  }

  /** Builds the charset size by adding each present class in turn, falling back to 26. */
  method BuildCharset(c: Criteria) returns (charset: nat)
    ensures charset == CharsetSize(c)
  {
    charset := 0;
    if c.lower { charset := charset + 26; }
    if c.upper { charset := charset + 26; }
    if c.digit { charset := charset + 10; }
    if c.special { charset := charset + |Specials|; }
    if charset == 0 { charset := 26; }
  }

  /**
   The entropy estimate `length * log2(charsetSize)` bits, kept symbolic: it is
   the base-2 logarithm of `GuessSpace(e)`, the number of strings of that length
   over that charset.
   */
  datatype Entropy = Entropy(length: nat, charsetSize: nat)

  function Pow(b: nat, n: nat): (r: nat)
    ensures b >= 1 ==> r >= 1
  {
    if n == 0 then 1 else b * Pow(b, n - 1)
  }

  /** The number of strings the estimate counts; its logarithm is the entropy in bits, never negative for a charset of at least one character. */
  function GuessSpace(e: Entropy): (space: nat)
    ensures e.charsetSize >= 1 ==> space >= 1
    ensures e.length == 0 ==> space == 1
  {
    Pow(e.charsetSize, e.length)
  }

  /** Lengths add: the bits for `m + n` characters are the bits for `m` plus the bits for `n`; doubling the length doubles the bits. */
  lemma {:induction false} EntropyAdditive(size: nat, m: nat, n: nat)
    ensures GuessSpace(Entropy(m + n, size)) == GuessSpace(Entropy(m, size)) * GuessSpace(Entropy(n, size))
  {
    if m > 0 {
      EntropyAdditive(size, m - 1, n);
      var a, b := Pow(size, m - 1), Pow(size, n);
      assert Pow(size, m + n) == size * (a * b);
      assert size * (a * b) == (size * a) * b;
    }
  }

  /** For a fixed charset the entropy never decreases with the length. */
  lemma {:induction false} EntropyMonotone(size: nat, m: nat, n: nat)
    requires size >= 1 && m <= n
    ensures GuessSpace(Entropy(m, size)) <= GuessSpace(Entropy(n, size))
  {
    if m < n {
      EntropyMonotone(size, m, n - 1);
      var p := Pow(size, n - 1);
      assert Pow(size, n) == p + (size - 1) * p;
    }
  }

  // ---------------------------------------------------------------------------
  // Suggestions
  // ---------------------------------------------------------------------------

  const UseTwelve: string := "Use 12+ characters"
  const AddUpper: string := "Add uppercase letters (A\U{2013}Z)"
  const AddLower: string := "Add lowercase letters (a\U{2013}z)"
  const AddDigit: string := "Add numbers (0\U{2013}9)"
  const AddSpecial: string := "Add special characters (!@#...)"
  const AvoidRepeat: string := "Avoid repeating the same character 3+ times"
  const AvoidCommon: string := "Avoid common patterns/words"

  /** Every suggestion, in the order the evaluator appends them. */
  const AllSuggestions: seq<string> :=
    [UseTwelve, AddUpper, AddLower, AddDigit, AddSpecial, AvoidRepeat, AvoidCommon]

  /** Which of `AllSuggestions` apply to `pw`, whose criteria are `c`. */
  function Triggers(pw: string, c: Criteria): (t: seq<bool>)
    ensures |t| == |AllSuggestions|
    ensures t[0] <==> |pw| < 12
    ensures t[1] <==> !c.upper
    ensures t[2] <==> !c.lower
    ensures t[3] <==> !c.digit
    ensures t[4] <==> !c.special
    ensures t[5] <==> HasRun(pw)
    ensures t[6] <==> HasCommonWord(pw)
  {
    [|pw| < 12, !c.upper, !c.lower, !c.digit, !c.special, SearchRun(pw), SearchCommon(pw)]
  }

  /** The suggestions for `pw`: the applicable entries of `AllSuggestions`, in order. */
  function ExpectedSuggestions(pw: string, c: Criteria): (s: seq<string>)
    ensures |s| <= |AllSuggestions|
  {
    SelectLength(AllSuggestions, Triggers(pw, c));
    Select(AllSuggestions, Triggers(pw, c))
  }

  /** Appends the applicable suggestions one by one, in the fixed order. */
  method Suggest(pw: string, c: Criteria) returns (suggestions: seq<string>)
    ensures suggestions == ExpectedSuggestions(pw, c)
  {
    ghost var t := [|pw| < 12, !c.upper, !c.lower, !c.digit, !c.special, SearchRun(pw), SearchCommon(pw)];
    ghost var all := AllSuggestions;
    ghost var done: seq<string>;
    suggestions := [];
    done := suggestions;
    if |pw| < 12 { suggestions := suggestions + [UseTwelve]; }
    assert AppendFrom(done, all, t, 0) == AppendFrom(suggestions, all, t, 1);
    done := suggestions;
    if !c.upper { suggestions := suggestions + [AddUpper]; }
    assert AppendFrom(done, all, t, 1) == AppendFrom(suggestions, all, t, 2);
    done := suggestions;
    if !c.lower { suggestions := suggestions + [AddLower]; }
    assert AppendFrom(done, all, t, 2) == AppendFrom(suggestions, all, t, 3);
    done := suggestions;
    if !c.digit { suggestions := suggestions + [AddDigit]; }
    assert AppendFrom(done, all, t, 3) == AppendFrom(suggestions, all, t, 4);
    done := suggestions;
    if !c.special { suggestions := suggestions + [AddSpecial]; }
    assert AppendFrom(done, all, t, 4) == AppendFrom(suggestions, all, t, 5);
    done := suggestions;
    if SearchRun(pw) { suggestions := suggestions + [AvoidRepeat]; }
    assert AppendFrom(done, all, t, 5) == AppendFrom(suggestions, all, t, 6);
    done := suggestions;
    if SearchCommon(pw) { suggestions := suggestions + [AvoidCommon]; }
    assert AppendFrom(done, all, t, 6) == AppendFrom(suggestions, all, t, 7);
    AppendFromSelect([], all, t, 0);
    assert all[0..] == all && t[0..] == t;
  }

  /** The seven suggestion texts are pairwise different. */
  lemma AllSuggestionsDistinct()
    ensures Distinct(AllSuggestions)
  {
  }

  /** Each suggestion appears exactly when its condition holds. */
  lemma {:induction false} SuggestionConditions(pw: string)
    ensures var s := ExpectedSuggestions(pw, Checks(pw));
      && (UseTwelve in s <==> |pw| < 12)
      && (AddUpper in s <==> !Occurs(Upper, pw))
      && (AddLower in s <==> !Occurs(Lower, pw))
      && (AddDigit in s <==> !Occurs(Digit, pw))
      && (AddSpecial in s <==> !Occurs(Special, pw))
      && (AvoidRepeat in s <==> HasRun(pw))
      && (AvoidCommon in s <==> HasCommonWord(pw))
  {
    var t := Triggers(pw, Checks(pw));
    AllSuggestionsDistinct();
    forall k | 0 <= k < 7 ensures AllSuggestions[k] in Select(AllSuggestions, t) <==> t[k] {
      SelectMembers(AllSuggestions, t, AllSuggestions[k]);
    }
    assert AllSuggestions[0] == UseTwelve && AllSuggestions[1] == AddUpper;
    assert AllSuggestions[2] == AddLower && AllSuggestions[3] == AddDigit;
    assert AllSuggestions[4] == AddSpecial && AllSuggestions[5] == AvoidRepeat;
    assert AllSuggestions[6] == AvoidCommon;
  }

  /** The suggestions never repeat, number at most seven and keep the fixed order. */
  lemma {:induction false} SuggestionsShape(pw: string, c: Criteria)
    ensures var s := ExpectedSuggestions(pw, c);
      Distinct(s) && |s| <= 7 && SubsequenceOf(s, AllSuggestions)
  {
    AllSuggestionsDistinct();
    SelectDistinct(AllSuggestions, Triggers(pw, c));
    SelectSubsequence(AllSuggestions, Triggers(pw, c));
  }

  /** No suggestion is made exactly when the password meets every rule. */
  lemma {:induction false} NoSuggestions(pw: string)
    ensures ExpectedSuggestions(pw, Checks(pw)) == [] <==>
      |pw| >= 12 && Occurs(Upper, pw) && Occurs(Lower, pw) && Occurs(Digit, pw) &&
      Occurs(Special, pw) && !HasRun(pw) && !HasCommonWord(pw)
  {
    var t := Triggers(pw, Checks(pw));
    SelectLength(AllSuggestions, t);
    if !t[0] && !t[1] && !t[2] && !t[3] && !t[4] && !t[5] && !t[6] {
      forall k | 0 <= k < |t| ensures !t[k] {
        if k == 0 {} else if k == 1 {} else if k == 2 {} else if k == 3 {}
        else if k == 4 {} else if k == 5 {} else {}
      }
    }
  }

  // ---------------------------------------------------------------------------
  // The evaluator
  // ---------------------------------------------------------------------------

  /**
   The evaluator's five results: the criteria, the score, the strength label
   (`strength`, since `label` is a reserved word here), the entropy estimate
   and the suggestions.
   */
  datatype Evaluation = Evaluation(
    checks: Criteria, score: nat, strength: string, entropy: Entropy, suggestions: seq<string>)

  /** Evaluates `pw`: criteria, score, label, entropy estimate and suggestions. */
  method EvaluatePassword(pw: string) returns (r: Evaluation)
    ensures r.checks == Checks(pw)
    ensures r.score == CountTrue(r.checks.AsSeq()) && r.score <= 5
    ensures r.strength == Label(r.score)
    ensures r.entropy == Entropy(|pw|, CharsetSize(r.checks))
    ensures 10 <= r.entropy.charsetSize <= 95
    ensures r.suggestions == ExpectedSuggestions(pw, r.checks)
  {
    var checks := Checks(pw);
    var score := Score(checks);
    var strength := Label(score);
    var charset := BuildCharset(checks);
    var suggestions := Suggest(pw, checks);
    r := Evaluation(checks, score, strength, Entropy(|pw|, charset), suggestions);
  }
}
