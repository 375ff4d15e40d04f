/**
 `buildAlternatingCaps`: reverse the collected letters, then upper-case the
 characters at even positions and lower-case those at odd positions.
 */
module AlternatingCaps {
  import opened Ascii
  import opened Seqs

  function BuildAlternatingCaps(letters: seq<char>): (r: string)
    ensures |r| == |letters|
    ensures forall i :: 0 <= i < |r| && i % 2 == 0 ==> r[i] == ToUpper(letters[|letters| - 1 - i])
    ensures forall i :: 0 <= i < |r| && i % 2 == 1 ==> r[i] == ToLower(letters[|letters| - 1 - i])
  {
    var rev := Reverse(letters);
    ReverseAll(letters);
    seq(|rev|, i requires 0 <= i < |rev| => if i % 2 == 0 then ToUpper(rev[i]) else ToLower(rev[i]))
  }

  lemma ReverseAll(s: seq<char>)
    ensures forall k :: 0 <= k < |s| ==> Reverse(s)[k] == s[|s| - 1 - k]
  {
    forall k | 0 <= k < |s| ensures Reverse(s)[k] == s[|s| - 1 - k] {
      ReverseAt(s, k);
    }
  }

  /**
   On a buffer of ASCII letters the result alternates strictly, upper case first,
   and is the reversed buffer up to case.
   */
  lemma AlternatingCapsOfLetters(letters: seq<char>)
    requires forall k :: 0 <= k < |letters| ==> IsLetter(letters[k])
    ensures var r := BuildAlternatingCaps(letters);
      && (forall i :: 0 <= i < |r| ==> (if i % 2 == 0 then IsUpper(r[i]) else IsLower(r[i])))
      && (forall i :: 0 <= i < |r| ==> SameLetterIgnoringCase(r[i], Reverse(letters)[i]))
  {
    ReverseAll(letters);
  }
}
