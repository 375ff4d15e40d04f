/**
 The classification step of the `POST /bfhl` handler: one pass over the tokens
 that pushes into five accumulators and updates a running sum, followed by the
 derivation of `concat_string` and the rendering of `sum` as text.
 */
module Bfhl {
  import opened Ascii
  import opened Seqs
  import opened Integers
  import opened AlternatingCaps
  import opened Classifier

  /** The classification fields of a successful response. */
  datatype Response = Response(
    oddNumbers: seq<string>,
    evenNumbers: seq<string>,
    alphabets: seq<string>,
    specialCharacters: seq<char>,
    sum: string,
    concatString: string)

  /** `for (const ch of token) lettersForConcat.push(ch)`: a pure-letter token's characters, in order. */
  method PushAllLetters(letters: seq<char>, token: string) returns (letters': seq<char>)
    ensures letters' == letters + token
  {
    letters' := letters;
    for j := 0 to |token|
      invariant letters' == letters + token[..j]
    {
      letters' := letters' + [token[j]];
    }
    assert token[..|token|] == token;
  }

  /** Scanning one more character of a token: it is a letter, a special character, or neither. */
  lemma ScanStep(token: string, j: nat)
    requires j < |token|
    ensures Filter(token[..j + 1], IsLetter) ==
      Filter(token[..j], IsLetter) + (if IsLetter(token[j]) then [token[j]] else [])
    ensures Filter(token[..j + 1], IsSpecial) ==
      Filter(token[..j], IsSpecial) + (if IsSpecial(token[j]) then [token[j]] else [])
  {
    FilterPrefixStep(token, j, IsLetter);
    FilterPrefixStep(token, j, IsSpecial);
  }

  /**
   The per-character scan of an "other" token: a letter goes to the letter
   buffer, a character that is neither letter nor digit to the special
   characters, and a digit nowhere. Returns what the scan pushes onto each.
   */
  method ScanMixedToken(token: string) returns (letters: seq<char>, specialCharacters: seq<char>)
    ensures letters == Filter(token, IsLetter)
    ensures specialCharacters == Filter(token, IsSpecial)
  {
    letters, specialCharacters := [], [];
    for j := 0 to |token|
      invariant letters == Filter(token[..j], IsLetter)
      invariant specialCharacters == Filter(token[..j], IsSpecial)
    {
      var ch := token[j];
      ScanStep(token, j);
      if IsLetter(ch) {
        letters := letters + [ch];
      } else if !IsDigit(ch) {
        specialCharacters := specialCharacters + [ch];
      }
    }
    assert token[..|token|] == token;
  }

  /** The response fields drawn from the accumulators after the loop. */
  function Respond(t: Tally): (r: Response)
    ensures r.oddNumbers == t.oddNumbers && r.evenNumbers == t.evenNumbers
    ensures r.alphabets == t.alphabets && r.specialCharacters == t.specialCharacters
    ensures IsIntegerString(r.sum) && ParseInt(r.sum) == t.sum
    ensures (r.sum[0] == '-' <==> t.sum < 0) && (|Magnitude(r.sum)| > 1 ==> Magnitude(r.sum)[0] != '0')
    ensures |r.concatString| == |t.letters|
    ensures forall i :: 0 <= i < |r.concatString| ==>
      r.concatString[i] == if i % 2 == 0 then ToUpper(t.letters[|t.letters| - 1 - i])
                           else ToLower(t.letters[|t.letters| - 1 - i])
  {
    Response(t.oddNumbers, t.evenNumbers, t.alphabets, t.specialCharacters,
             RenderInt(t.sum), BuildAlternatingCaps(t.letters))
  }

  /** No tokens: every list empty, `sum` rendered "0", `concat_string` empty. */
  lemma RespondToNoTokens()
    ensures Respond(Classify([])) == Response([], [], [], [], "0", "")
  {
    assert RenderNat(0) == "0";
  }

  /**
   `concat_string` read against the request: every ASCII letter of every
   token, last one first, upper case at even positions and lower case at odd.
   */
  lemma ConcatStringAlternates(data: seq<string>)
    ensures var c, letters := Respond(Classify(data)).concatString, Filter(Flatten(data), IsLetter);
      |c| == |letters| &&
      forall i :: 0 <= i < |c| ==>
        (if i % 2 == 0 then IsUpper(c[i]) else IsLower(c[i])) &&
        SameLetterIgnoringCase(c[i], letters[|letters| - 1 - i])
  {
    var letters := Filter(Flatten(data), IsLetter);
    LettersInEncounterOrder(data);
    AlternatingCapsOfLetters(letters);
    ReverseAll(letters);
  }

  /**
   The `/bfhl` classification: every token goes to exactly one branch, then the
   letter buffer becomes `concat_string` and `sum` is rendered as text.
   */
  method ClassifyTokens(data: seq<string>) returns (r: Response)
    ensures r == Respond(Classify(data))
  {
    var oddNumbers: seq<string> := [];
    var evenNumbers: seq<string> := [];
    var alphabets: seq<string> := [];
    var specialCharacters: seq<char> := [];
    var letters: seq<char> := [];
    var sum := 0;

    for i := 0 to |data|
      invariant Tally(oddNumbers, evenNumbers, alphabets, specialCharacters, letters, sum) == Classify(data[..i])
    {
      var token := data[i];
      if IsLetterToken(token) {
        ClassifyLetterToken(data, i);
        alphabets := alphabets + [UpperString(token)];
        letters := PushAllLetters(letters, token);
      } else if IsIntegerString(token) {
        ClassifyIntegerToken(data, i);
        var n := ParseInt(token);
        sum := sum + n;
        if Abs(n) % 2 == 0 {
          evenNumbers := evenNumbers + [token];
        } else {
          oddNumbers := oddNumbers + [token];
        }
      } else {
        ClassifyOtherToken(data, i);
        var tokenLetters, tokenSpecials := ScanMixedToken(token);
        letters := letters + tokenLetters;
        specialCharacters := specialCharacters + tokenSpecials;
      }
    }
    assert data[..|data|] == data;

    r := Respond(Tally(oddNumbers, evenNumbers, alphabets, specialCharacters, letters, sum));
  }
}
