/** rice/util.py: the string predicate is_ascii. */
module Util {

  /** is_ascii: every character of `s` has a code point below 128. */
  function IsAscii(s: string): (b: bool)
    ensures b <==> forall i :: 0 <= i < |s| ==> s[i] as int < 128
  {
    |s| == 0 || (s[0] as int < 128 && IsAscii(s[1..]))
  }

  /** The empty string is ASCII (all() over nothing is true). */
  lemma EmptyIsAscii()
    ensures IsAscii("")
  {
  }

  /** A single character at or above 128 anywhere in `s` makes it non-ASCII. */
  lemma NonAsciiCharRejects(s: string, i: nat)
    requires i < |s| && s[i] as int >= 128
    ensures !IsAscii(s)
  {
  }

  /** ASCII-ness of a concatenation is the conjunction of both parts', proved
      by walking down the left part. */
  lemma {:induction false} ConcatAscii(a: string, b: string)
    ensures IsAscii(a + b) == (IsAscii(a) && IsAscii(b))
  {
    if a == [] {
      assert a + b == b;
    } else {
      assert (a + b)[1..] == a[1..] + b;
      ConcatAscii(a[1..], b);
    }
  }
}
