/**
 * The string helpers of the JUnit example (StringUtils.java). A Java
 * `String` that may be null is an `Option<string>`; case mapping is ASCII
 * case mapping, every other character keeping its case.
 */
module StringUtils {
  import opened Errors

  /** The characters of `s` in reverse order. */
  function Reverse(s: string): (r: string)
    ensures |r| == |s|
    ensures forall i :: 0 <= i < |s| ==> r[i] == s[|s| - 1 - i]
  {
    if s == [] then [] else Reverse(s[1..]) + [s[0]]
  }

  /** Reversing twice gives the string back. */
  lemma ReverseInvolutive(s: string)
    ensures Reverse(Reverse(s)) == s
  {
    assert forall i :: 0 <= i < |s| ==> Reverse(Reverse(s))[i] == s[i];
  }

  /** `reverse`: null stays null; anything else is reversed. */
  function ReverseOrNull(input: Option<string>): (r: Option<string>)
    ensures r.None? <==> input.None?
    ensures r.Some? ==>
      |r.value| == |input.value| &&
      forall i :: 0 <= i < |input.value| ==> r.value[i] == input.value[|input.value| - 1 - i]
  {
    if input.None? then None else Some(Reverse(input.value))
  }

  /** `reverse` undoes itself, null included. */
  lemma ReverseOrNullInvolutive(input: Option<string>)
    ensures ReverseOrNull(ReverseOrNull(input)) == input
  {
    if input.Some? {
      ReverseInvolutive(input.value);
    }
  }

  /** The reversals the tests expect. */
  lemma ReverseExamples()
    ensures ReverseOrNull(Some("hello")) == Some("olleh")
    ensures ReverseOrNull(Some("12345")) == Some("54321")
    ensures ReverseOrNull(Some("")) == Some("")
    ensures ReverseOrNull(None) == None
  {
    assert Reverse("hello") == "olleh" by {
      assert forall i :: 0 <= i < 5 ==> Reverse("hello")[i] == "olleh"[i];
    }
    assert Reverse("12345") == "54321" by {
      assert forall i :: 0 <= i < 5 ==> Reverse("12345")[i] == "54321"[i];
    }
  }

  /** The lower case of an ASCII capital; any other character is kept. */
  function LowerChar(c: char): (l: char)
    ensures 'A' <= c <= 'Z' ==> l as int == c as int + 32
    ensures !('A' <= c <= 'Z') ==> l == c
  {
    if 'A' <= c <= 'Z' then (c as int + 32) as char else c
  }

  /** The upper case of an ASCII small letter; any other character is kept. */
  function UpperChar(c: char): (u: char)
    ensures 'a' <= c <= 'z' ==> u as int == c as int - 32
    ensures !('a' <= c <= 'z') ==> u == c
  {
    if 'a' <= c <= 'z' then (c as int - 32) as char else c
  }

  /** `toLowerCase`, on ASCII. */
  function ToLower(s: string): (r: string)
    ensures |r| == |s| && forall i :: 0 <= i < |s| ==> r[i] == LowerChar(s[i])
  {
    seq(|s|, i requires 0 <= i < |s| => LowerChar(s[i]))
  }

  /** `toUpperCase`, on ASCII. */
  function ToUpper(s: string): (r: string)
    ensures |r| == |s| && forall i :: 0 <= i < |s| ==> r[i] == UpperChar(s[i])
  {
    seq(|s|, i requires 0 <= i < |s| => UpperChar(s[i]))
  }

  /** The characters the palindrome check keeps: `[a-z0-9]`. */
  predicate Kept(c: char) {
    'a' <= c <= 'z' || '0' <= c <= '9'
  }

  /** `replaceAll("[^a-z0-9]", "")`: the kept characters of `s`, in order. */
  function KeepAlphanumeric(s: string): (r: string)
    ensures |r| <= |s|
    ensures forall i :: 0 <= i < |r| ==> Kept(r[i])
    ensures forall c :: c in r <==> c in s && Kept(c)
  {
    if s == [] then []
    else (if Kept(s[0]) then [s[0]] else []) + KeepAlphanumeric(s[1..])
  }

  /** Removing what is not kept leaves a string that is all kept characters unchanged. */
  lemma {:induction false} KeepAlphanumericIdempotent(s: string)
    ensures KeepAlphanumeric(KeepAlphanumeric(s)) == KeepAlphanumeric(s)
  {
    if s != [] {
      KeepAlphanumericIdempotent(s[1..]);
      KeepAllKept(KeepAlphanumeric(s));
    }
  }

  lemma {:induction false} KeepAllKept(s: string)
    requires forall i :: 0 <= i < |s| ==> Kept(s[i])
    ensures KeepAlphanumeric(s) == s
  {
    if s != [] {
      KeepAllKept(s[1..]);
    }
  }

  /** The text the palindrome check compares: lower-cased, then only letters and digits. */
  function Cleaned(s: string): (c: string)
    ensures forall i :: 0 <= i < |c| ==> Kept(c[i])
  {
    KeepAlphanumeric(ToLower(s))
  }

  /** A string read the same forwards and backwards. */
  predicate Symmetric(s: string) {
    forall i :: 0 <= i < |s| ==> s[i] == s[|s| - 1 - i]
  }

  /**
   * `isPalindrome`: null is not a palindrome; otherwise the cleaned text
   * must equal its reverse.
   */
  function IsPalindrome(input: Option<string>): (b: bool)
    ensures input.None? ==> !b
    ensures input.Some? ==> (b <==> Symmetric(Cleaned(input.value)))
  {
    if input.None? then false
    else
      var cleaned := Cleaned(input.value);
      assert cleaned == Reverse(cleaned) <==> Symmetric(cleaned) by {
        if Symmetric(cleaned) {
          assert forall i :: 0 <= i < |cleaned| ==> cleaned[i] == Reverse(cleaned)[i];
        }
      }
      cleaned == Reverse(cleaned)
  }

  /** Nothing is kept from a string without letters or digits. */
  lemma {:induction false} KeepNothing(s: string)
    requires forall i :: 0 <= i < |s| ==> !Kept(s[i])
    ensures KeepAlphanumeric(s) == []
  {
    if s != [] {
      KeepNothing(s[1..]);
    }
  }

  /**
   * The empty string, and any string without letters or digits, is a
   * palindrome: nothing is left to compare.
   */
  lemma NothingToCompareIsPalindrome(s: string)
    requires forall i :: 0 <= i < |s| ==> !Kept(LowerChar(s[i]))
    ensures IsPalindrome(Some(s))
  {
    KeepNothing(ToLower(s));
  }

  /** Reversing a string does not change whether it is a palindrome. */
  lemma ReversePreservesPalindrome(s: string)
    ensures IsPalindrome(Some(Reverse(s))) == IsPalindrome(Some(s))
  {
    CleanedOfReverse(s);
    SymmetricReverse(Cleaned(s));
  }

  lemma SymmetricReverse(c: string)
    ensures Symmetric(Reverse(c)) <==> Symmetric(c)
  {
    var rc := Reverse(c);
    if Symmetric(c) {
      forall i | 0 <= i < |rc|
        ensures rc[i] == rc[|rc| - 1 - i]
      {
        assert rc[i] == c[|c| - 1 - i];
        assert rc[|rc| - 1 - i] == c[i];
      }
    }
    if Symmetric(rc) {
      forall i | 0 <= i < |c|
        ensures c[i] == c[|c| - 1 - i]
      {
        assert rc[|c| - 1 - i] == c[i];
        assert rc[i] == c[|c| - 1 - i];
        assert rc[|c| - 1 - i] == rc[i];
      }
    }
  }

  /** Cleaning commutes with reversal. */
  lemma CleanedOfReverse(s: string)
    ensures Cleaned(Reverse(s)) == Reverse(Cleaned(s))
  {
    LowerOfReverse(s);
    KeepOfReverse(ToLower(s));
  }

  lemma LowerOfReverse(s: string)
    ensures ToLower(Reverse(s)) == Reverse(ToLower(s))
  {
    assert forall i :: 0 <= i < |s| ==> ToLower(Reverse(s))[i] == Reverse(ToLower(s))[i];
  }

  lemma {:induction false} KeepOfReverse(t: string)
    ensures KeepAlphanumeric(Reverse(t)) == Reverse(KeepAlphanumeric(t))
  {
    if t != [] {
      var head := if Kept(t[0]) then [t[0]] else [];
      KeepOfReverse(t[1..]);
      assert Reverse(t) == Reverse(t[1..]) + [t[0]];
      KeepAppend(Reverse(t[1..]), [t[0]]);
      assert KeepAlphanumeric([t[0]]) == head;
      assert KeepAlphanumeric(t) == head + KeepAlphanumeric(t[1..]);
      ReverseAppend(head, KeepAlphanumeric(t[1..]));
      assert Reverse(head) == head;
    }
  }

  lemma {:induction false} KeepAppend(a: string, b: string)
    ensures KeepAlphanumeric(a + b) == KeepAlphanumeric(a) + KeepAlphanumeric(b)
  {
    if a != [] {
      assert (a + b)[1..] == a[1..] + b;
      KeepAppend(a[1..], b);
    } else {
      assert a + b == b;
    }
  }

  lemma ReverseAppend(a: string, b: string)
    ensures Reverse(a + b) == Reverse(b) + Reverse(a)
  {
    assert forall i :: 0 <= i < |a + b| ==> Reverse(a + b)[i] == (Reverse(b) + Reverse(a))[i];
  }

  /** Lower-case letters and digits are what the check compares, so such a word is a palindrome exactly when it is symmetric. */
  lemma {:induction false} PlainWordPalindrome(w: string)
    requires forall i :: 0 <= i < |w| ==> Kept(w[i])
    ensures IsPalindrome(Some(w)) <==> Symmetric(w)
  {
    assert ToLower(w) == w;
    KeepAllKept(w);
  }

  /** "radar" is a palindrome. */
  lemma {:induction false} RadarExample(radar: string)
    requires radar == "radar"
    ensures IsPalindrome(Some(radar))
  {
    assert |radar| == 5 && radar[0] == radar[4] == 'r' && radar[1] == radar[3] == 'a' && radar[2] == 'd';
    assert Symmetric(radar);
    PlainWordPalindrome(radar);
  }

  /** "hello" is not a palindrome, and neither is null. */
  lemma {:induction false} HelloExample(hello: string)
    requires hello == "hello"
    ensures !IsPalindrome(Some(hello))
    ensures !IsPalindrome(None)
  {
    PlainWordPalindrome(hello);
    assert hello[0] != hello[|hello| - 1 - 0];
  }

  /** Case does not count: a string is a palindrome exactly when its upper case is. */
  lemma UpperCasePreservesPalindrome(s: string)
    ensures IsPalindrome(Some(ToUpper(s))) == IsPalindrome(Some(s))
  {
    assert ToLower(ToUpper(s)) == ToLower(s) by {
      forall i | 0 <= i < |s|
        ensures ToLower(ToUpper(s))[i] == ToLower(s)[i]
      {
      }
    }
  }

  /** "RACECAR" is a palindrome, as "racecar" is. */
  lemma {:induction false} UpperCaseExample(racecar: string)
    requires racecar == "racecar"
    ensures IsPalindrome(Some(racecar)) && IsPalindrome(Some(ToUpper(racecar)))
  {
    assert |racecar| == 7 && racecar[0] == racecar[6] && racecar[1] == racecar[5] && racecar[2] == racecar[4];
    assert Symmetric(racecar);
    PlainWordPalindrome(racecar);
    UpperCasePreservesPalindrome(racecar);
  }

  /** A word whose lower case is all letters and digits is compared as its lower case. */
  lemma {:induction false} CleanedOfKept(w: string, lower: string)
    requires |w| == |lower| && forall i :: 0 <= i < |w| ==> LowerChar(w[i]) == lower[i] && Kept(lower[i])
    ensures Cleaned(w) == lower
  {
    assert ToLower(w) == lower;
    KeepAllKept(lower);
  }

  /** The empty string is a palindrome (a test expects otherwise). */
  lemma EmptyIsPalindrome()
    ensures IsPalindrome(Some(""))
  {
    NothingToCompareIsPalindrome("");
  }

  /** `toLowerCase` works character by character, so it distributes over concatenation. */
  lemma LowerAppend(a: string, b: string)
    ensures ToLower(a + b) == ToLower(a) + ToLower(b)
  {
    assert forall i :: 0 <= i < |a + b| ==> ToLower(a + b)[i] == (ToLower(a) + ToLower(b))[i];
  }

  /** Characters that are neither letters nor digits, wherever they stand, do not change the text compared. */
  lemma PunctuationIgnored(a: string, p: string, b: string)
    requires forall i :: 0 <= i < |p| ==> !Kept(LowerChar(p[i]))
    ensures Cleaned(a + p + b) == Cleaned(a + b)
  {
    var la, lp, lb := ToLower(a), ToLower(p), ToLower(b);
    LowerAppend(a + p, b);
    LowerAppend(a, p);
    LowerAppend(a, b);
    assert ToLower(a + p + b) == (la + lp) + lb;
    KeepAppend(la + lp, lb);
    KeepAppend(la, lp);
    KeepAppend(la, lb);
    KeepNothing(lp);
    assert KeepAlphanumeric(la) + [] == KeepAlphanumeric(la);
  }

  /** Upper-case letters compare as their lower-case forms. */
  lemma CaseIgnored(s: string)
    ensures Cleaned(ToUpper(s)) == Cleaned(ToLower(s))
  {
    assert ToLower(ToUpper(s)) == ToLower(ToLower(s)) by {
      forall i | 0 <= i < |s|
        ensures ToLower(ToUpper(s))[i] == ToLower(ToLower(s))[i]
      {
      }
    }
  }

  /**
   * `processWithDelay`: null and empty input give the empty string;
   * anything else is upper-cased and marked as processed.
   */
  function ProcessWithDelay(input: Option<string>): (r: string)
    ensures input.None? || input.value == "" ==> r == ""
    ensures input.Some? && input.value != "" ==>
      |r| == |input.value| + |"-PROCESSED"| && r[..|input.value|] == ToUpper(input.value) &&
      r[|input.value|..] == "-PROCESSED"
  {
    if input.None? || input.value == "" then "" else ToUpper(input.value) + "-PROCESSED"
  }

  /** Processing already processed text only adds the marker again. */
  lemma ProcessTwice(s: string)
    requires s != ""
    ensures ProcessWithDelay(Some(ProcessWithDelay(Some(s)))) == ToUpper(s) + "-PROCESSED-PROCESSED"
  {
    var once := ProcessWithDelay(Some(s));
    assert ToUpper(once) == ToUpper(ToUpper(s)) + "-PROCESSED";
    assert ToUpper(ToUpper(s)) == ToUpper(s);
  }

  /** The processed strings the tests expect. */
  lemma ProcessExamples()
    ensures ProcessWithDelay(Some("hello")) == "HELLO-PROCESSED"
    ensures ProcessWithDelay(Some("")) == ""
    ensures ProcessWithDelay(None) == ""
  {
    assert ToUpper("hello") == "HELLO";
  }
}
