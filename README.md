# BFHL token classifier in Dafny

This project models the classification core of the `POST /bfhl` handler in
`src/index.js`. The handler receives a list of tokens, already turned into strings.
It puts each token into exactly one of three branches:

- **Pure letters.** A token matching `^[A-Za-z]+$` is pushed, upper-cased, onto
  `alphabets`. Its characters go to the letter buffer.
- **Integer.** A token matching `^-?\d+$` is read with `parseInt`. Its value is added to
  `sum`. The token itself, unchanged, goes to `even_numbers` or `odd_numbers`, chosen
  by the parity of its absolute value.
- **Other.** For any other token, each ASCII letter goes to the letter buffer. Each
  character that is neither a letter nor a digit goes to `special_characters`. Digits
  are dropped.

After the loop, the letter buffer is reversed and rendered with alternating caps as
`concat_string`. `sum` is rendered as base-10 text.

The project has two layers:

- **Specification.** The functional specification is in `classifier.dfy`:
  - `TokenTally` gives one token's contribution.
  - `Classify` folds `TokenTally` over the list.
  - The lemmas about `Classify` state what the handler promises.
- **Loop.** The handler's loop itself is the method `Bfhl.ClassifyTokens`, in
  `bfhl.dfy`. It has five accumulators and a running sum. It is proved to produce
  `Respond(Classify(data))`.

Supporting modules:

- `ascii.dfy`: character classes and ASCII case mapping.
- `integers.dfy`: the integer test, `parseInt`, and `String(n)`.
- `caps.dfy`: `buildAlternatingCaps`.
- `seqs.dfy`: filter, flatten and reverse.

A lone `"-"` matches neither the letter pattern nor the integer pattern. It therefore
takes the "other" branch, and its `-` is reported in `special_characters`
(`Classifier.LoneMinusIsSpecial`). The empty string also takes the "other" branch, and
it contributes nothing (`Classifier.EmptyTokenIsInert`).

## Model

| member | source | states |
|---|---|---|
| Integers.IsIntegerString | src/index.js:18-20 | `isIntegerString`: after an optional leading "-", what remains is nonempty and all ASCII digits |
| Integers.IsIntegerStringMatchesPattern | src/index.js:18-20 | a string is an integer token exactly when it is an optional "-" followed by a nonempty run of decimal digits (both directions) |
| Integers.ParseInt | src/index.js:54 | the value of an integer token: its sign follows the leading "-", its absolute value is the digits' base-10 value, and its parity is the last digit's parity |
| Integers.RenderNat | src/index.js:86 | `String(n)` of a natural number is a nonempty digit string whose value is n, with no leading zero unless it is "0" |
| Integers.RenderInt | src/index.js:86 | `String(sum)` is itself an integer token that parses back to sum. It starts with "-" exactly when sum is negative, and its digits have no leading zero, so it is the canonical base-10 text (never "00" or "-0") |
| Ascii.ToUpper | src/index.js:25 | a letter becomes the upper-case form of the same letter; anything that is not a lower-case letter is unchanged |
| Ascii.ToLower | src/index.js:25 | a letter becomes the lower-case form of the same letter; anything that is not an upper-case letter is unchanged |
| Ascii.UpperString | src/index.js:50 | `toUpperCase` keeps the length, makes every letter position the upper-case form of the same letter, and leaves the other positions unchanged |
| AlternatingCaps.BuildAlternatingCaps | src/index.js:23-26 | the result has the input's length; position i holds the upper-case form (even i) or the lower-case form (odd i) of the input's character counted from the end |
| AlternatingCaps.AlternatingCapsOfLetters | src/index.js:23-25 | for a buffer of letters, the result alternates upper and lower case starting with upper, and position i is the same letter as position i of the reversed buffer |
| Classifier.IsLetterToken | src/index.js:48 | the test `^[A-Za-z]+$`: nonempty and every character an ASCII letter |
| Classifier.BranchOf | src/index.js:48-58 | each token takes exactly one branch: letters exactly when it matches `^[A-Za-z]+$`, integer exactly when it matches `^-?\d+$`, other exactly when it matches neither |
| Classifier.TokenTally | src/index.js:47-64 | one token's contribution to the five accumulators and the sum, by the branch it takes |
| Classifier.Classify | src/index.js:47-65 | the accumulators after the loop: the contributions of the tokens, joined in list order |
| Classifier.TokenTallyFields | src/index.js:47-64 | one token's contribution, field by field: the upper-cased word for a letter token; the token in the list of its parity plus its value in the sum for an integer token; the letters and specials of an other token |
| Classifier.ClassifyStep | src/index.js:47-65 | processing token i appends that token's contribution to the state reached after the first i tokens |
| Classifier.ClassifyLetterToken | src/index.js:48-51 | a letter token adds its upper-cased form to alphabets and all its characters to the letter buffer, and changes nothing else |
| Classifier.ClassifyIntegerToken | src/index.js:52-57 | an integer token adds its parsed value to sum and goes, unchanged, to even_numbers or odd_numbers by the parity of its absolute value, and changes nothing else |
| Classifier.ClassifyOtherToken | src/index.js:58-63 | any other token adds its letters to the letter buffer and its non-alphanumeric characters to special_characters, and changes nothing else |
| Classifier.ClassifyAppend | src/index.js:47-65 | classifying a concatenated list is classifying each part and joining the results in order |
| Classifier.EmptyTokenIsInert | src/index.js:47-64 | the empty string takes the "other" branch and removing it anywhere in the list changes nothing |
| Classifier.LoneMinusIsSpecial | src/index.js:58-63 | a trailing "-" takes the "other" branch and only appends '-' to special_characters |
| Classifier.BranchesPartition | src/index.js:47-65 | letter, integer and other tokens together account for every token; alphabets has one entry per letter token and the two number lists one entry per integer token |
| Classifier.AlphabetsAreUpperCasedLetterTokens | src/index.js:48-50 | alphabets is exactly the letter tokens, in order, each upper-cased |
| Classifier.AlphabetsAreUpperCase | src/index.js:50 | every alphabets entry is a nonempty all-upper-case word |
| Classifier.NumbersByParity | src/index.js:56-57 | even_numbers is exactly the integer tokens with an even absolute value, in order, and odd_numbers those with an odd one |
| Classifier.NumberEntriesHaveTheirParity | src/index.js:56-57 | every number-list entry is an integer token whose value and last digit have that list's parity |
| Classifier.SumOfIntegerTokens | src/index.js:45-55 | sum is the total of the values of the integer tokens |
| Classifier.SumSplitsByParity | src/index.js:54-57 | the total over integer tokens is the total over the even ones plus the total over the odd ones |
| Classifier.SumOfNumberLists | src/index.js:54-57 | every entry in the two number lists is an integer token, and sum equals the total of odd_numbers plus the total of even_numbers |
| Classifier.LettersInEncounterOrder | src/index.js:47-64 | the letter buffer is every ASCII letter of every token, in encounter order |
| Classifier.SpecialsFromOtherTokens | src/index.js:58-63 | special_characters is every non-alphanumeric character of the other-branch tokens, in order |
| Classifier.DigitsOfOtherTokensAreDropped | src/index.js:60-62 | no digit reaches the letter buffer or special_characters, and only integer tokens contribute to sum |
| Bfhl.PushAllLetters | src/index.js:51 | pushing a letter token's characters one at a time appends the whole token to the buffer |
| Bfhl.ScanStep | src/index.js:60-63 | scanning one more character adds it to the letters if it is a letter, and to the specials if it is neither a letter nor a digit |
| Bfhl.ScanMixedToken | src/index.js:60-63 | the per-character scan of an other token yields exactly its letters and exactly its special characters, each in order |
| Bfhl.Respond | src/index.js:67-86 | the four lists pass through unchanged. The sum text is canonical base-10 text that parses back to the accumulated sum, with "-" exactly for negatives. concat_string has the letter buffer's length, and position i is the upper-case (even i) or lower-case (odd i) form of the buffer's character counted from the end |
| Bfhl.RespondToNoTokens | src/index.js:39-45 | an empty token list gives empty lists, sum "0" and an empty concat_string |
| Bfhl.ConcatStringAlternates | src/index.js:47-67 | concat_string holds every ASCII letter of the request, last first, upper case at even positions and lower case at odd ones |
| Bfhl.ClassifyTokens | src/index.js:37-67 | the loop with its five accumulators and running sum produces exactly the response of the per-token specification folded over the list |

## Left out

- The Express application, its middleware, `/health` and `listen` are left out: they are I/O.
- Body validation, the 400 response for a missing `data` array, and the 500 response are left out. The model starts from an already validated token list.
- The identity fields (`user_id`, `email`, `roll_number`) are left out: they come from environment variables.
- The `map(String)` conversion of arbitrary JSON values to strings is left out. Tokens are given as strings.
- Bfhl.ClassifyTokens and Integers.ParseInt do not model JavaScript number semantics. Values are unbounded integers. `parseInt` loses precision past 2^53, the running sum is a double, and `String` switches to exponent notation at 1e21; none of these is modelled.
- Ascii.ToUpper and Ascii.ToLower map ASCII letters only. Unicode case mapping is not modelled. It is never needed: the source only changes the case of characters that passed an `[A-Za-z]` test.
- Strings are sequences of Unicode scalar values, so the per-character loops walk code points as `for...of` does. A JavaScript string holding a lone surrogate has no counterpart here and is not modelled.
- `special_characters` holds characters. In the source it holds one-character strings.
- Bfhl.ScanMixedToken returns what one token adds to each buffer, and the loop appends those parts. In the source, the per-character loop pushes directly onto the shared arrays. The resulting buffers are the same.
