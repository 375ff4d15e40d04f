/**
 The functional specification of the `/bfhl` token classifier. Each token is
 routed to exactly one branch (pure letters, integer, other) and contributes a
 `Tally`; the classification of a token list is the combination, in input
 order, of the tallies of its tokens.
 */
module Classifier {
  import opened Ascii
  import opened Seqs
  import opened Integers

  /** `/^[A-Za-z]+$/`: one or more ASCII letters and nothing else. */
  predicate IsLetterToken(t: string) {
    |t| > 0 && forall i :: 0 <= i < |t| ==> IsLetter(t[i])
  }

  datatype Branch = PureLetters | Integer | Other

  /** The branch a token takes; the letter test is tried first, then the integer test. */
  function BranchOf(t: string): (b: Branch)
    ensures b == PureLetters <==> IsLetterToken(t)
    ensures b == Integer <==> IsIntegerString(t)
    ensures b == Other <==> !IsLetterToken(t) && !IsIntegerString(t)
  {
    if IsLetterToken(t) then
      assert IsLetter(t[0]) && Magnitude(t) == t;
      PureLetters
    else if IsIntegerString(t) then Integer
    else Other
  }

  predicate IsIntegerToken(t: string) {
    BranchOf(t) == Integer
  }

  predicate IsOtherToken(t: string) {
    BranchOf(t) == Other
  }

  /** An integer token whose value has even magnitude (so `-4` and `0` qualify). */
  predicate IsEvenIntegerToken(t: string) {
    IsIntegerToken(t) && Abs(ParseInt(t)) % 2 == 0
  }

  /** Every other integer token: its magnitude is odd. */
  predicate IsOddIntegerToken(t: string) {
    IsIntegerToken(t) && Abs(ParseInt(t)) % 2 != 0
  }

  /**
   The five accumulators of the handler and the running sum: `odd_numbers`,
   `even_numbers`, `alphabets`, `special_characters`, `lettersForConcat`, `sum`.
   */
  datatype Tally = Tally(
    oddNumbers: seq<string>,
    evenNumbers: seq<string>,
    alphabets: seq<string>,
    specialCharacters: seq<char>,
    letters: seq<char>,
    sum: int)

  const Empty := Tally([], [], [], [], [], 0)

  /** Appending the work of `b` after that of `a`. */
  function Combine(a: Tally, b: Tally): Tally {
    Tally(a.oddNumbers + b.oddNumbers, a.evenNumbers + b.evenNumbers,
          a.alphabets + b.alphabets, a.specialCharacters + b.specialCharacters,
          a.letters + b.letters, a.sum + b.sum)
  }

  lemma CombineAssociative(a: Tally, b: Tally, c: Tally)
    ensures Combine(Combine(a, b), c) == Combine(a, Combine(b, c))
  {
  }

  /** What one token adds to the accumulators. */
  function TokenTally(t: string): Tally {
    match BranchOf(t)
    case PureLetters =>
      Tally([], [], [UpperString(t)], [], t, 0)
    case Integer =>
      var n := ParseInt(t);
      if Abs(n) % 2 == 0 then Tally([], [t], [], [], [], n) else Tally([t], [], [], [], [], n)
    case Other =>
      Tally([], [], [], Filter(t, IsSpecial), Filter(t, IsLetter), 0)
  }

  /** The accumulators after the loop has run over all of `ts`, in order. */
  function Classify(ts: seq<string>): Tally {
    if ts == [] then Empty
    else Combine(Classify(ts[..|ts| - 1]), TokenTally(ts[|ts| - 1]))
  }

  /** The total of the parsed values of the integer strings in `ts` (anything else counts for nothing). */
  function SumOf(ts: seq<string>): int {
    if ts == [] then 0
    else
      var t := ts[|ts| - 1];
      SumOf(ts[..|ts| - 1]) + if IsIntegerString(t) then ParseInt(t) else 0
  }

  /** One more token: its tally comes after that of the tokens before it. */
  lemma ClassifyStep(ts: seq<string>, i: nat)
    requires i < |ts|
    ensures Classify(ts[..i + 1]) == Combine(Classify(ts[..i]), TokenTally(ts[i]))
  {
    assert ts[..i + 1][..i] == ts[..i];
  }

  /** One more token at the end of the list. */
  lemma ClassifySnoc(ts: seq<string>, t: string)
    ensures Classify(ts + [t]) == Combine(Classify(ts), TokenTally(t))
  {
    assert (ts + [t])[..|ts|] == ts;
  }

  /** A pure-letter token adds its upper-cased form to `alphabets` and its characters to the letter buffer. */
  lemma ClassifyLetterToken(ts: seq<string>, i: nat)
    requires i < |ts| && IsLetterToken(ts[i])
    ensures var c, t := Classify(ts[..i]), ts[i];
      Classify(ts[..i + 1]) == c.(alphabets := c.alphabets + [UpperString(t)], letters := c.letters + t)
  {
    ClassifyStep(ts, i);
  }

  /** An integer token is added to `sum` and kept, as written, in the list of its magnitude's parity. */
  lemma ClassifyIntegerToken(ts: seq<string>, i: nat)
    requires i < |ts| && IsIntegerString(ts[i])
    ensures var c, t := Classify(ts[..i]), ts[i];
      Classify(ts[..i + 1]) ==
        if Abs(ParseInt(t)) % 2 == 0 then c.(evenNumbers := c.evenNumbers + [t], sum := c.sum + ParseInt(t))
        else c.(oddNumbers := c.oddNumbers + [t], sum := c.sum + ParseInt(t))
  {
    ClassifyStep(ts, i);
  }

  /** Any other token gives its letters to the letter buffer and its specials to `special_characters`. */
  lemma ClassifyOtherToken(ts: seq<string>, i: nat)
    requires i < |ts| && !IsLetterToken(ts[i]) && !IsIntegerString(ts[i])
    ensures var c, t := Classify(ts[..i]), ts[i];
      Classify(ts[..i + 1]) ==
        c.(specialCharacters := c.specialCharacters + Filter(t, IsSpecial), letters := c.letters + Filter(t, IsLetter))
  {
    ClassifyStep(ts, i);
  }

  // ---------------------------------------------------------------------------
  // Properties of the specification
  // ---------------------------------------------------------------------------

  /**
   What one token adds, accumulator by accumulator: each token feeds only the
   accumulators of the one branch it takes.
   */
  lemma TokenTallyFields(t: string)
    ensures TokenTally(t).alphabets == if IsLetterToken(t) then [UpperString(t)] else []
    ensures TokenTally(t).evenNumbers == if IsEvenIntegerToken(t) then [t] else []
    ensures TokenTally(t).oddNumbers == if IsOddIntegerToken(t) then [t] else []
    ensures TokenTally(t).sum == if IsIntegerToken(t) then ParseInt(t) else 0
    ensures TokenTally(t).specialCharacters == if IsOtherToken(t) then Filter(t, IsSpecial) else []
    ensures TokenTally(t).letters ==
      if IsLetterToken(t) then t else if IsOtherToken(t) then Filter(t, IsLetter) else []
  {
  }

  // ---------------------------------------------------------------------------

  /** Classifying a concatenation is combining the two classifications: order is kept. */
  lemma {:induction false} ClassifyAppend(a: seq<string>, b: seq<string>)
    ensures Classify(a + b) == Combine(Classify(a), Classify(b))
  {
    if b == [] {
      assert a + b == a;
    } else {
      var b' := b[..|b| - 1];
      assert (a + b)[..|a + b| - 1] == a + b';
      assert (a + b)[|a + b| - 1] == b[|b| - 1];
      var t := b[|b| - 1];
      calc {
        Classify(a + b);
        Combine(Classify(a + b'), TokenTally(t));
        { ClassifyAppend(a, b'); }
        Combine(Combine(Classify(a), Classify(b')), TokenTally(t));
        { CombineAssociative(Classify(a), Classify(b'), TokenTally(t)); }
        Combine(Classify(a), Classify(b));
      }
    }
  }

  /** The empty token takes the "other" branch and leaves every accumulator as it was, wherever it stands. */
  lemma EmptyTokenIsInert(a: seq<string>, b: seq<string>)
    ensures BranchOf("") == Other
    ensures Classify(a + [""] + b) == Classify(a + b)
  {
    assert !IsIntegerString("") by { assert Magnitude("") == ""; }
    assert TokenTally("") == Empty;
    assert (a + [""])[..|a|] == a;
    assert Classify(a + [""]) == Classify(a);
    ClassifyAppend(a + [""], b);
    ClassifyAppend(a, b);
  }

  /** "-" has no digits, so it is not an integer; its one character is special. */
  lemma LoneMinusFacts()
    ensures !IsLetterToken("-") && !IsIntegerString("-")
    ensures Filter("-", IsSpecial) == ['-'] && Filter("-", IsLetter) == []
  {
    assert Magnitude("-") == "";
    assert "-"[..0] == [];
  }

  /** A lone "-" is not an integer: it takes the "other" branch and is reported as a special character. */
  lemma LoneMinusIsSpecial(a: seq<string>)
    ensures BranchOf("-") == Other
    ensures Classify(a + ["-"]) == Classify(a).(specialCharacters := Classify(a).specialCharacters + ['-'])
  {
    LoneMinusFacts();
    TokenTallyFields("-");
    ClassifySnoc(a, "-");
  }

  /** Every token takes exactly one branch: the three branch counts add up to the number of tokens. */
  lemma {:induction false} BranchesPartition(ts: seq<string>)
    ensures |Filter(ts, IsLetterToken)| + |Filter(ts, IsIntegerToken)| + |Filter(ts, IsOtherToken)| == |ts|
    ensures |Classify(ts).alphabets| == |Filter(ts, IsLetterToken)|
    ensures |Classify(ts).oddNumbers| + |Classify(ts).evenNumbers| == |Filter(ts, IsIntegerToken)|
  {
    if ts != [] {
      BranchesPartition(ts[..|ts| - 1]);
      TokenTallyFields(ts[|ts| - 1]);
    }
  }

  /** `alphabets` is exactly the pure-letter tokens, upper-cased, in input order. */
  lemma {:induction false} AlphabetsAreUpperCasedLetterTokens(ts: seq<string>)
    ensures var words := Filter(ts, IsLetterToken);
      && |Classify(ts).alphabets| == |words|
      && forall i :: 0 <= i < |words| ==> Classify(ts).alphabets[i] == UpperString(words[i])
  {
    if ts != [] {
      AlphabetsAreUpperCasedLetterTokens(ts[..|ts| - 1]);
      TokenTallyFields(ts[|ts| - 1]);
    }
  }

  /** Each entry of `alphabets` is a nonempty run of upper-case letters. */
  lemma AlphabetsAreUpperCase(ts: seq<string>)
    ensures forall w :: w in Classify(ts).alphabets ==>
      |w| > 0 && forall k :: 0 <= k < |w| ==> IsUpper(w[k])
  {
    var words := Filter(ts, IsLetterToken);
    AlphabetsAreUpperCasedLetterTokens(ts);
    forall w | w in Classify(ts).alphabets
      ensures |w| > 0 && forall k :: 0 <= k < |w| ==> IsUpper(w[k])
    {
      var i :| 0 <= i < |Classify(ts).alphabets| && Classify(ts).alphabets[i] == w;
      assert IsLetterToken(words[i]);
    }
  }

  /**
   `even_numbers` and `odd_numbers` are the integer tokens with even and with odd
   magnitude, kept as their original text and in input order.
   */
  lemma {:induction false} NumbersByParity(ts: seq<string>)
    ensures Classify(ts).evenNumbers == Filter(ts, IsEvenIntegerToken)
    ensures Classify(ts).oddNumbers == Filter(ts, IsOddIntegerToken)
  {
    if ts != [] {
      NumbersByParity(ts[..|ts| - 1]);
      TokenTallyFields(ts[|ts| - 1]);
    }
  }

  /** The parity of each reported number is that of its magnitude, seen in its last digit. */
  lemma NumberEntriesHaveTheirParity(ts: seq<string>)
    ensures forall x :: x in Classify(ts).evenNumbers ==>
      IsIntegerString(x) && Abs(ParseInt(x)) % 2 == 0 && DigitValue(x[|x| - 1]) % 2 == 0
    ensures forall x :: x in Classify(ts).oddNumbers ==>
      IsIntegerString(x) && Abs(ParseInt(x)) % 2 == 1 && DigitValue(x[|x| - 1]) % 2 == 1
  {
    NumbersByParity(ts);
    var ev := Filter(ts, IsEvenIntegerToken);
    var od := Filter(ts, IsOddIntegerToken);
    assert forall x :: x in ev ==> IsEvenIntegerToken(x);
    assert forall x :: x in od ==> IsOddIntegerToken(x);
  }

  /** `sum` is the total of the parsed values of the integer tokens. */
  lemma {:induction false} SumOfIntegerTokens(ts: seq<string>)
    ensures Classify(ts).sum == SumOf(Filter(ts, IsIntegerToken))
  {
    if ts != [] {
      var p := ts[..|ts| - 1];
      var t := ts[|ts| - 1];
      SumOfIntegerTokens(p);
      TokenTallyFields(t);
      var ints := Filter(ts, IsIntegerToken);
      assert Classify(ts).sum == Classify(p).sum + TokenTally(t).sum;
      if IsIntegerToken(t) {
        assert ints == Filter(p, IsIntegerToken) + [t];
        assert ints[..|ints| - 1] == Filter(p, IsIntegerToken);
      } else {
        assert ints == Filter(p, IsIntegerToken);
      }
    }
  }

  /** Splitting the integer tokens by parity splits their total. */
  lemma {:induction false} SumSplitsByParity(ts: seq<string>)
    ensures SumOf(Filter(ts, IsIntegerToken)) ==
      SumOf(Filter(ts, IsOddIntegerToken)) + SumOf(Filter(ts, IsEvenIntegerToken))
  {
    if ts != [] {
      var p := ts[..|ts| - 1];
      var t := ts[|ts| - 1];
      SumSplitsByParity(p);
      var ints, odds, evens := Filter(p, IsIntegerToken), Filter(p, IsOddIntegerToken), Filter(p, IsEvenIntegerToken);
      if IsIntegerToken(t) {
        assert Filter(ts, IsIntegerToken) == ints + [t];
        SumOfSnoc(ints, t);
        if Abs(ParseInt(t)) % 2 == 0 {
          assert Filter(ts, IsEvenIntegerToken) == evens + [t];
          assert Filter(ts, IsOddIntegerToken) == odds;
          SumOfSnoc(evens, t);
        } else {
          assert Filter(ts, IsOddIntegerToken) == odds + [t];
          assert Filter(ts, IsEvenIntegerToken) == evens;
          SumOfSnoc(odds, t);
        }
      } else {
        assert Filter(ts, IsIntegerToken) == ints;
        assert Filter(ts, IsOddIntegerToken) == odds;
        assert Filter(ts, IsEvenIntegerToken) == evens;
      }
    }
  }

  /** `sum` is also the total of the two number lists together. */
  lemma SumOfNumberLists(ts: seq<string>)
    ensures forall i :: 0 <= i < |Classify(ts).oddNumbers| ==> IsIntegerString(Classify(ts).oddNumbers[i])
    ensures forall i :: 0 <= i < |Classify(ts).evenNumbers| ==> IsIntegerString(Classify(ts).evenNumbers[i])
    ensures Classify(ts).sum == SumOf(Classify(ts).oddNumbers) + SumOf(Classify(ts).evenNumbers)
  {
    NumbersByParity(ts);
    SumOfIntegerTokens(ts);
    SumSplitsByParity(ts);
  }

  lemma SumOfSnoc(ts: seq<string>, t: string)
    requires IsIntegerString(t)
    ensures SumOf(ts + [t]) == SumOf(ts) + ParseInt(t)
  {
    assert (ts + [t])[..|ts|] == ts;
  }

  /**
   The letter buffer is every ASCII letter of every token, in encounter order:
   all of a pure-letter token, the letters of an "other" token, and nothing of an
   integer token (which has no letters).
   */
  lemma {:induction false} LettersInEncounterOrder(ts: seq<string>)
    ensures Classify(ts).letters == Filter(Flatten(ts), IsLetter)
  {
    if ts != [] {
      var p := ts[..|ts| - 1];
      var t := ts[|ts| - 1];
      LettersInEncounterOrder(p);
      TokenTallyFields(t);
      FilterAppend(Flatten(p), t, IsLetter);
      match BranchOf(t)
      case PureLetters => FilterAll(t, IsLetter);
      case Integer =>
        forall k | 0 <= k < |t| ensures !IsLetter(t[k]) {
          if t[0] == '-' {
            if k > 0 { assert t[k] == Magnitude(t)[k - 1]; }
          } else {
            assert t[k] == Magnitude(t)[k];
          }
        }
        FilterNone(t, IsLetter);
      case Other =>
    }
  }

  /**
   `special_characters` is every character that is neither an ASCII letter nor an
   ASCII digit, taken from the "other" tokens only, in encounter order.
   */
  lemma {:induction false} SpecialsFromOtherTokens(ts: seq<string>)
    ensures Classify(ts).specialCharacters == Filter(Flatten(Filter(ts, IsOtherToken)), IsSpecial)
  {
    if ts != [] {
      var p := ts[..|ts| - 1];
      var t := ts[|ts| - 1];
      SpecialsFromOtherTokens(p);
      TokenTallyFields(t);
      var others, others' := Filter(ts, IsOtherToken), Filter(p, IsOtherToken);
      assert Classify(ts).specialCharacters == Classify(p).specialCharacters + TokenTally(t).specialCharacters;
      if IsOtherToken(t) {
        assert others == others' + [t];
        assert others[..|others| - 1] == others';
        assert Flatten(others) == Flatten(others') + t;
        FilterAppend(Flatten(others'), t, IsSpecial);
      } else {
        assert others == others';
      }
    }
  }

  /** Digits never reach the letter buffer or `special_characters`, nor (outside integer tokens) `sum`. */
  lemma DigitsOfOtherTokensAreDropped(ts: seq<string>)
    ensures forall c :: c in Classify(ts).letters ==> !IsDigit(c)
    ensures forall c :: c in Classify(ts).specialCharacters ==> !IsDigit(c)
    ensures Classify(ts).sum == Classify(Filter(ts, IsIntegerToken)).sum
  {
    LettersInEncounterOrder(ts);
    SpecialsFromOtherTokens(ts);
    var ints := Filter(ts, IsIntegerToken);
    SumOfIntegerTokens(ts);
    SumOfIntegerTokens(ints);
    FilterAll(ints, IsIntegerToken);
  }
}
