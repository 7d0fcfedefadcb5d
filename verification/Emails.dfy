/** The canonical form of an e-mail address: lower case, without surrounding blanks (ASCII letters and blanks). */
module Emails {

  predicate IsBlank(c: char) {
    c == ' ' || '\t' <= c <= '\r' || '\U{1C}' <= c <= '\U{1F}'
  }

  function LowerChar(c: char): char {
    if 'A' <= c <= 'Z' then c - 'A' + 'a' else c
  }

  function Lower(s: string): (r: string)
    ensures |r| == |s|
    ensures forall i :: 0 <= i < |s| ==> r[i] == LowerChar(s[i])
  {
    if s == "" then "" else [LowerChar(s[0])] + Lower(s[1..])
  }

  function StripLeft(s: string): string {
    if s != "" && IsBlank(s[0]) then StripLeft(s[1..]) else s
  }

  function StripRight(s: string): string {
    if s != "" && IsBlank(s[|s| - 1]) then StripRight(s[..|s| - 1]) else s
  }

  function Normalise(email: string): string {
    StripRight(StripLeft(Lower(email)))
  }

  predicate Canonical(s: string) {
    && AllLower(s)
    && (s != "" ==> !IsBlank(s[0]) && !IsBlank(s[|s| - 1]))
  }

  lemma {:induction false} StripLeftIsSuffix(s: string)
    ensures exists k :: 0 <= k <= |s| && StripLeft(s) == s[k..]
    ensures StripLeft(s) != "" ==> !IsBlank(StripLeft(s)[0])
  {
    if s != "" && IsBlank(s[0]) {
      StripLeftIsSuffix(s[1..]);
      var k :| 0 <= k <= |s[1..]| && StripLeft(s[1..]) == s[1..][k..];
      assert s[1..][k..] == s[k + 1..];
    } else {
      assert s == s[0..];
    }
  }

  lemma {:induction false} StripRightIsPrefix(s: string)
    ensures StripRight(s) <= s
    ensures StripRight(s) != "" ==> !IsBlank(StripRight(s)[|StripRight(s)| - 1])
  {
    if s != "" && IsBlank(s[|s| - 1]) {
      StripRightIsPrefix(s[..|s| - 1]);
    }
  }

  predicate AllLower(s: string) {
    forall i :: 0 <= i < |s| ==> LowerChar(s[i]) == s[i]
  }

  lemma LowerIsLower(s: string)
    ensures AllLower(Lower(s))
  {
  }

  lemma NormaliseIsCanonical(email: string)
    ensures Canonical(Normalise(email))
  {
    var lower := Lower(email);
    LowerIsLower(email);
    StripLeftIsSuffix(lower);
    var left := StripLeft(lower);
    assert AllLower(left);
    StripRightIsPrefix(left);
    assert AllLower(StripRight(left));
  }

  /** A canonical address is its own canonical form, so a key may be normalised again without harm. */
  lemma CanonicalIsFixed(s: string)
    requires Canonical(s)
    ensures Normalise(s) == s
  {
  }

  lemma NormaliseTwice(email: string)
    ensures Normalise(Normalise(email)) == Normalise(email)
  {
    NormaliseIsCanonical(email);
    CanonicalIsFixed(Normalise(email));
  }

  // ---------- which addresses are the same customer ----------

  /** The same letter, written large or small. */
  predicate SameLetter(c: char, d: char) {
    || c == d
    || ('A' <= c <= 'Z' && d as int == c as int + 32)
    || ('A' <= d <= 'Z' && c as int == d as int + 32)
  }

  lemma SameLetterIff(c: char, d: char)
    ensures LowerChar(c) == LowerChar(d) <==> SameLetter(c, d)
    ensures IsBlank(LowerChar(c)) <==> IsBlank(c)
  {
  }

  /** The ASCII codes of what str.strip takes for white space. */
  const BLANKS := {9, 10, 11, 12, 13, 28, 29, 30, 31, 32}

  /** s without its surrounding blanks is s[i..j]. */
  ghost predicate IsCore(s: string, i: nat, j: nat) {
    && i <= j <= |s|
    && (forall k :: 0 <= k < i || j <= k < |s| ==> s[k] as int in BLANKS)
    && (i < j ==> s[i] as int !in BLANKS && s[j - 1] as int !in BLANKS)
  }

  lemma BlankIff(c: char)
    ensures IsBlank(c) <==> c as int in BLANKS
  {
  }

  lemma {:induction false} StripLeftBlanks(s: string, i: nat)
    requires i <= |s| && forall k :: 0 <= k < i ==> IsBlank(s[k])
    requires i < |s| ==> !IsBlank(s[i])
    ensures StripLeft(s) == s[i..]
  {
    if i > 0 {
      forall k | 0 <= k < i - 1 ensures IsBlank(s[1..][k]) {
        assert s[1..][k] == s[k + 1];
      }
      StripLeftBlanks(s[1..], i - 1);
      assert s[1..][i - 1..] == s[i..];
    }
  }

  lemma {:induction false} StripRightBlanks(s: string, j: nat)
    requires j <= |s| && forall k :: j <= k < |s| ==> IsBlank(s[k])
    requires 0 < j ==> !IsBlank(s[j - 1])
    ensures StripRight(s) == s[..j]
    decreases |s|
  {
    if j < |s| {
      StripRightBlanks(s[..|s| - 1], j);
      assert s[..|s| - 1][..j] == s[..j];
    } else {
      assert s[..j] == s;
    }
  }

  /** The canonical form is the core in small letters. */
  lemma NormaliseIsCore(s: string, i: nat, j: nat)
    requires IsCore(s, i, j)
    ensures Normalise(s) == Lower(s[i..j])
  {
    var lower := Lower(s);
    forall k | 0 <= k < |s| ensures IsBlank(lower[k]) <==> s[k] as int in BLANKS {
      SameLetterIff(s[k], s[k]);
      BlankIff(s[k]);
    }
    if i < j {
      StripLeftBlanks(lower, i);
      StripRightBlanks(lower[i..], j - i);
      assert lower[i..][..j - i] == Lower(s[i..j]);
    } else {
      StripLeftBlanks(lower, |s|);
      assert s[i..j] == "" && lower[|s|..] == "";
    }
  }

  predicate SameLetters(x: string, y: string) {
    |x| == |y| && forall n :: 0 <= n < |x| ==> SameLetter(x[n], y[n])
  }

  lemma LowerSameIff(x: string, y: string)
    ensures Lower(x) == Lower(y) <==> SameLetters(x, y)
  {
    if |x| == |y| {
      forall n | 0 <= n < |x| ensures Lower(x)[n] == Lower(y)[n] <==> SameLetter(x[n], y[n]) {
        SameLetterIff(x[n], y[n]);
      }
      if SameLetters(x, y) {
        assert Lower(x) == Lower(y);
      } else {
        var n :| 0 <= n < |x| && !SameLetter(x[n], y[n]);
        assert Lower(x)[n] != Lower(y)[n];
      }
    } else {
      assert |Lower(x)| != |Lower(y)|;
    }
  }

  /** Two addresses are the same customer exactly if they are equal up to surrounding blanks and the size of letters, so no
      two different addresses are ever merged. */
  lemma SameCustomerIff(a: string, i: nat, j: nat, b: string, k: nat, l: nat)
    requires IsCore(a, i, j) && IsCore(b, k, l)
    ensures Normalise(a) == Normalise(b) <==> SameLetters(a[i..j], b[k..l])
  {
    NormaliseIsCore(a, i, j);
    NormaliseIsCore(b, k, l);
    LowerSameIff(a[i..j], b[k..l]);
  }

  /** Every address has a core. */
  lemma {:induction false} CoreExists(s: string) returns (i: nat, j: nat)
    ensures IsCore(s, i, j)
  {
    if s == "" {
      i, j := 0, 0;
    } else if IsBlank(s[0]) {
      i, j := CoreExists(s[1..]);
      i, j := i + 1, j + 1;
      BlankIff(s[0]);
      assert forall k :: 1 <= k < |s| ==> s[k] == s[1..][k - 1];
    } else {
      i, j := 0, |s|;
      BlankIff(s[0]);
      while s[j - 1] as int in BLANKS
        invariant 1 <= j <= |s| && forall k :: j <= k < |s| ==> s[k] as int in BLANKS
        decreases j
      {
        j := j - 1;
      }
    }
  }
}
