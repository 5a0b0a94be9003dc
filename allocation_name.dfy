/** The name rule of a subscription allocation, the regular expression
    `^[a-zA-Z0-9\_\-\.]{1,100}$` both SDK generations validate `name`
    against. */
module AllocationName {

  /** The bracketed class: an ASCII letter or digit, `_`, `-` or `.`. */
  predicate IsNameChar(c: char) {
    ('a' <= c <= 'z') || ('A' <= c <= 'Z') || ('0' <= c <= '9') || c == '_' || c == '-' || c == '.'
  }

  /** Whether all of `s` matches `[class]{min,max}`, consuming one
      character of the class per repetition, as the anchored expression
      does. */
  function MatchRepeat(s: string, min: nat, max: nat): bool
    decreases |s|
  {
    if s == [] then min == 0
    else max > 0 && IsNameChar(s[0]) && MatchRepeat(s[1..], if min > 0 then min - 1 else 0, max - 1)
  }

  const MinNameLength: nat := 1
  const MaxNameLength: nat := 100

  /** The validator: the anchored expression matches the whole name. */
  predicate NameMatches(name: string) {
    MatchRepeat(name, MinNameLength, MaxNameLength)
  }

  /** The bounded repetition accepts exactly the strings of the class
      whose length lies between the bounds. */
  lemma {:induction false} MatchRepeatIff(s: string, min: nat, max: nat)
    ensures MatchRepeat(s, min, max) <==> min <= |s| <= max && forall i :: 0 <= i < |s| ==> IsNameChar(s[i])
    decreases |s|
  {
    if s != [] && max > 0 {
      MatchRepeatIff(s[1..], if min > 0 then min - 1 else 0, max - 1);
      assert forall i :: 1 <= i < |s| ==> s[i] == s[1..][i - 1];
    }
  }

  /** A name is accepted iff it has 1 to 100 characters, each an ASCII
      letter or digit, `_`, `-` or `.`. */
  lemma NameMatchesIff(name: string)
    ensures NameMatches(name) <==>
      1 <= |name| <= 100 && forall i :: 0 <= i < |name| ==> IsNameChar(name[i])
  {
    MatchRepeatIff(name, MinNameLength, MaxNameLength);
  }

  /** A name of exactly 100 characters is accepted, although the
      validator's message asks for fewer than 100; one more character is
      rejected, and so is the empty name. */
  lemma LengthBoundary(c: char)
    requires IsNameChar(c)
    ensures NameMatches(seq(100, _ => c))
    ensures !NameMatches(seq(101, _ => c))
    ensures !NameMatches("")
  {
    NameMatchesIff(seq(100, _ => c));
    NameMatchesIff(seq(101, _ => c));
  }

  /** A character outside the class anywhere in the name rejects it. */
  lemma ForeignCharRejected(prefix: string, c: char, suffix: string)
    requires !IsNameChar(c)
    ensures !NameMatches(prefix + [c] + suffix)
  {
    var name := prefix + [c] + suffix;
    NameMatchesIff(name);
    assert name[|prefix|] == c;
  }
}
