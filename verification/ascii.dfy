/**
 ASCII case mapping, the part of Python's `str.lower` that option names use.
 Only the letters `A`..`Z` are mapped (non-ASCII keys are out of scope);
 every other character is left as it is.
 */
module Ascii {

  predicate IsUpper(c: char) {
    'A' <= c <= 'Z'
  }

  /** Maps one upper-case ASCII letter to its lower-case partner. */
  function LowerChar(c: char): (r: char)
    ensures !IsUpper(r)
    ensures IsUpper(c) ==> r as int == c as int + 32
    ensures !IsUpper(c) ==> r == c
  {
    if IsUpper(c) then (c as int + 32) as char else c
  }

  /** `key.lower()` restricted to ASCII. */
  function Lower(s: string): (r: string)
    ensures |r| == |s|
    ensures forall i | 0 <= i < |s| :: !IsUpper(r[i])
    ensures forall i | 0 <= i < |s| && !IsUpper(s[i]) :: r[i] == s[i]
    ensures forall i | 0 <= i < |s| && IsUpper(s[i]) :: r[i] as int == s[i] as int + 32
  {
    seq(|s|, i requires 0 <= i < |s| => LowerChar(s[i]))
  }

  /** A string is its own lower-case form exactly when it holds no upper-case letter. */
  lemma LowerFixedPoint(s: string)
    ensures Lower(s) == s <==> forall i | 0 <= i < |s| :: !IsUpper(s[i])
  {
    if forall i | 0 <= i < |s| :: !IsUpper(s[i]) {
      assert forall i | 0 <= i < |s| :: Lower(s)[i] == s[i];
    }
  }

  /** Lowering twice is lowering once. */
  lemma LowerIdempotent(s: string)
    ensures Lower(Lower(s)) == Lower(s)
  {
    LowerFixedPoint(Lower(s));
  }
}
