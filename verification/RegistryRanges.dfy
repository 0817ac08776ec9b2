/** Ranges of subtags in the language subtag registry, expanded through numbers in base 26. */
module RegistryRanges {
  import opened Wrappers

  predicate IsLetter(c: char) {
    'a' <= c <= 'z'
  }

  predicate Lower(s: string) {
    forall i :: 0 <= i < |s| ==> IsLetter(s[i])
  }

  /** int_str26to_int: the letters as digits. */
  function ToInt(s: string): nat
    requires Lower(s)
  {
    if s == [] then 0 else 26 * ToInt(s[..|s| - 1]) + (s[|s| - 1] - 'a') as nat
  }

  /** int_to_int_str26, with the letters already found. */
  function ToLetters(n: nat, s: string): string {
    if n == 0 then s else ToLetters(n / 26, ['a' + (n % 26) as char] + s)
  }

  // ---------- one undoes the other ----------

  lemma {:induction false} ToLettersConcat(n: nat, s: string, t: string)
    ensures ToLetters(n, s + t) == ToLetters(n, s) + t
    decreases n
  {
    if n > 0 {
      var c := ['a' + (n % 26) as char];
      ToLettersConcat(n / 26, c + s, t);
      assert c + (s + t) == (c + s) + t;
    }
  }

  lemma {:induction false} ToLettersStep(n: nat)
    requires n > 0
    ensures ToLetters(n, "") == ToLetters(n / 26, "") + ['a' + (n % 26) as char]
  {
    var c := ['a' + (n % 26) as char];
    ToLettersConcat(n / 26, "", c);
    assert c + "" == c && "" + c == c;
  }

  lemma {:induction false} LettersToInt(n: nat)
    ensures Lower(ToLetters(n, "")) && ToInt(ToLetters(n, "")) == n
    ensures n > 0 ==> ToLetters(n, "") != "" && ToLetters(n, "")[0] != 'a'
    decreases n
  {
    if n > 0 {
      ToLettersStep(n);
      LettersToInt(n / 26);
      var s := ToLetters(n / 26, "");
      assert (s + ['a' + (n % 26) as char])[..|s|] == s;
    }
  }

  /** Exactly for strings that do not start with an 'a'. */
  lemma {:induction false} IntToLetters(s: string)
    requires Lower(s)
    ensures ToLetters(ToInt(s), "") == s <==> s == "" || s[0] != 'a'
    decreases |s|
  {
    LettersToInt(ToInt(s));
    if s != "" && s[0] != 'a' {
      var init := s[..|s| - 1];
      IntToLetters(init);
      FirstLetterCounts(s);
      ToLettersStep(ToInt(s));
      assert s == init + [s[|s| - 1]];
    }
  }

  lemma {:induction false} FirstLetterCounts(s: string)
    requires Lower(s) && s != "" && s[0] != 'a'
    ensures ToInt(s) > 0
    decreases |s|
  {
    if |s| > 1 {
      FirstLetterCounts(s[..|s| - 1]);
    }
  }

  // ---------- the order of numbers is the alphabet's ----------

  /** s comes before t, for strings of one length. */
  predicate Before(s: string, t: string)
    requires |s| == |t|
  {
    s != [] && (Before(s[..|s| - 1], t[..|t| - 1]) || (s[..|s| - 1] == t[..|t| - 1] && s[|s| - 1] < t[|t| - 1]))
  }

  /** It does so at the first place where they differ. */
  lemma {:induction false} BeforeAtFirstDifference(s: string, t: string)
    requires |s| == |t|
    ensures Before(s, t) <==> exists k :: 0 <= k < |s| && s[..k] == t[..k] && s[k] < t[k]
    decreases |s|
  {
    if s != [] {
      var s', t' := s[..|s| - 1], t[..|t| - 1];
      BeforeAtFirstDifference(s', t');
      if Before(s', t') {
        var k :| 0 <= k < |s'| && s'[..k] == t'[..k] && s'[k] < t'[k];
        assert s[..k] == s'[..k] && t[..k] == t'[..k];
      }
      if k :| 0 <= k < |s| && s[..k] == t[..k] && s[k] < t[k] {
        assert k < |s'| ==> s'[..k] == s[..k] && t'[..k] == t[..k];
      }
    }
  }

  lemma {:induction false} OrderIsAlphabetic(s: string, t: string)
    requires Lower(s) && Lower(t) && |s| == |t|
    ensures Before(s, t) <==> ToInt(s) < ToInt(t)
    ensures s == t <==> ToInt(s) == ToInt(t)
    decreases |s|
  {
    if s != [] {
      OrderIsAlphabetic(s[..|s| - 1], t[..|t| - 1]);
      assert s == s[..|s| - 1] + [s[|s| - 1]] && t == t[..|t| - 1] + [t[|t| - 1]];
    }
  }

  // ---------- ranges ----------

  /** The tags from start to end, as section 3.1.1 of RFC 5646 means them. */
  ghost predicate InRange(start: string, end: string, t: string)
    requires |start| == |end|
  {
    |t| == |start| && Lower(t) && !Before(t, start) && !Before(end, t)
  }

  ghost predicate IsTag(start: string, end: string, t: string)
    requires Lower(start) && Lower(end)
  {
    exists n :: ToInt(start) <= n <= ToInt(end) && t == ToLetters(n, "")
  }

  datatype Expansion =
    | Tags(tags: seq<string>)
    | LengthsDiffer
    | NoLetters
    | MissingTag

  /** The range's tags, or an error: for different lengths, for other characters than letters, for an empty tag. */
  method ExpandRange(start: string, end: string) returns (r: Expansion)
    ensures r.LengthsDiffer? <==> |start| != |end|
    ensures r.NoLetters? <==> |start| == |end| && (start == "" || !Lower(start) || !Lower(end))
    ensures r.MissingTag? <==> |start| == |end| && start != "" && Lower(start) && Lower(end) && ToInt(start) == 0
    ensures r.Tags? ==> forall t :: t in r.tags <==> IsTag(start, end, t)
    ensures r.Tags? ==> forall i, j :: 0 <= i < j < |r.tags| ==> r.tags[i] != r.tags[j]
  {
    if |start| != |end| {
      return LengthsDiffer;
    }
    if start == "" || !Lower(start) || !Lower(end) {
      return NoLetters;
    }
    var tags := [];
    var lo, hi := ToInt(start), ToInt(end) + 1;
    for i := lo to if lo < hi then hi else lo
      invariant lo > 0 || i == lo
      invariant |tags| == i - lo && forall k :: 0 <= k < |tags| ==> tags[k] == ToLetters(lo + k, "")
    {
      var tag := ToLetters(i, "");
      LettersToInt(i);
      if tag == "" {
        return MissingTag;
      }
      tags := tags + [tag];
    }
    forall t
      ensures t in tags <==> IsTag(start, end, t)
    {
      if n :| lo <= n < hi && t == ToLetters(n, "") {
        assert tags[n - lo] == t;
      }
    }
    forall i, j | 0 <= i < j < |tags|
      ensures tags[i] != tags[j]
    {
      LettersToInt(lo + i);
      LettersToInt(lo + j);
    }
    r := Tags(tags);
  }

  /** The tags are exactly those of the range, if it does not start with an 'a'; that is, or if it is empty. */
  lemma RangeIsExact(start: string, end: string)
    requires |start| == |end| && start != "" && Lower(start) && Lower(end)
    ensures (forall t :: IsTag(start, end, t) <==> InRange(start, end, t)) <==> start[0] != 'a' || Before(end, start)
  {
    OrderIsAlphabetic(end, start);
    if Before(end, start) {
      forall t
        ensures !IsTag(start, end, t) && !InRange(start, end, t)
      {
        EmptyRange(start, end, t);
      }
    } else if start[0] != 'a' {
      forall t
        ensures IsTag(start, end, t) <==> InRange(start, end, t)
      {
        TagIsInRange(start, end, t);
      }
    } else {
      FirstTagMissing(start, end);
    }
  }

  lemma EmptyRange(start: string, end: string, t: string)
    requires |start| == |end| && Lower(start) && Lower(end) && ToInt(end) < ToInt(start)
    ensures !IsTag(start, end, t) && !InRange(start, end, t)
  {
    if InRange(start, end, t) {
      OrderIsAlphabetic(t, start);
      OrderIsAlphabetic(end, t);
    }
  }

  lemma TagIsInRange(start: string, end: string, t: string)
    requires |start| == |end| && start != "" && start[0] != 'a' && Lower(start) && Lower(end) && ToInt(start) <= ToInt(end)
    ensures IsTag(start, end, t) <==> InRange(start, end, t)
  {
    if InRange(start, end, t) {
      OrderIsAlphabetic(t, start);
      OrderIsAlphabetic(end, t);
      LaterFirstLetter(start, t);
      IntToLetters(t);
    }
    FirstLetterCounts(start);
    if n :| ToInt(start) <= n <= ToInt(end) && t == ToLetters(n, "") {
      LettersToInt(n);
      SameLength(start, t, end);
      OrderIsAlphabetic(t, start);
      OrderIsAlphabetic(end, t);
    }
  }

  /** What does not come before a string starts with no earlier letter. */
  lemma LaterFirstLetter(s: string, t: string)
    requires |s| == |t| && s != "" && s[0] != 'a' && Lower(s) && Lower(t) && !Before(t, s)
    ensures t[0] != 'a'
  {
    BeforeAtFirstDifference(t, s);
    assert t[..0] == s[..0];
  }

  function Power(n: nat): nat {
    if n == 0 then 1 else 26 * Power(n - 1)
  }

  /** A string that does not start with an 'a' has as many letters as its number has digits. */
  lemma {:induction false} DigitsOf(s: string)
    requires Lower(s) && s != ""
    ensures ToInt(s) < Power(|s|)
    ensures s[0] != 'a' ==> Power(|s| - 1) <= ToInt(s)
    decreases |s|
  {
    if |s| == 1 {
      assert s[..0] == "";
      assert Power(1) == 26;
    } else {
      DigitsOf(s[..|s| - 1]);
    }
  }

  lemma {:induction false} PowerGrows(m: nat, n: nat)
    ensures m <= n ==> Power(m) <= Power(n)
    decreases n
  {
    if m < n {
      PowerGrows(m, n - 1);
    }
  }

  lemma SameLength(start: string, t: string, end: string)
    requires Lower(start) && Lower(t) && Lower(end) && start != "" && t != "" && |start| == |end|
    requires start[0] != 'a' && t[0] != 'a' && ToInt(start) <= ToInt(t) <= ToInt(end)
    ensures |t| == |start|
  {
    DigitsOf(start);
    DigitsOf(t);
    DigitsOf(end);
    PowerGrows(|t|, |start| - 1);
    PowerGrows(|end|, |t| - 1);
  }

  /** The first tag of a range that starts with an 'a' is lost: its number has fewer letters. */
  lemma FirstTagMissing(start: string, end: string)
    requires |start| == |end| && start != "" && start[0] == 'a' && Lower(start) && Lower(end) && ToInt(start) <= ToInt(end)
    ensures InRange(start, end, start) && !IsTag(start, end, start)
  {
    OrderIsAlphabetic(start, start);
    OrderIsAlphabetic(end, start);
    if n :| ToInt(start) <= n <= ToInt(end) && start == ToLetters(n, "") {
      LettersToInt(n);
    }
  }
}
