/**
 * Text conventions the sources rely on: Python's str(int) and int(str) on
 * decimal literals, Python's str.split()[-1], and JavaScript's
 * String.prototype.split with a one-character separator.
 */
module Text {
  import opened Common

  predicate IsDigit(c: char) { '0' <= c <= '9' }

  function DigitChar(d: nat): (c: char)
    requires d < 10
    ensures IsDigit(c) && (c as int) - ('0' as int) == d
  {
    (('0' as int) + d) as char
  }

  function DigitValue(c: char): (d: nat)
    requires IsDigit(c)
    ensures d < 10 && DigitChar(d) == c
  {
    (c as int) - ('0' as int)
  }

  /** Decimal digits of n without leading zeros, as Python's str(n) for n >= 0. */
  function NatToStr(n: nat): (s: string)
    ensures |s| >= 1 && IsDigit(s[0])
    ensures n >= 10 ==> |s| >= 2
    decreases n
  {
    if n < 10 then [DigitChar(n)] else NatToStr(n / 10) + [DigitChar(n % 10)]
  }

  /** str(n) of a natural number is made of decimal digits only. */
  lemma {:induction false} NatToStrDigits(n: nat)
    ensures AllDigits(NatToStr(n))
    decreases n
  {
    if n >= 10 {
      var s := NatToStr(n);
      NatToStrDigits(n / 10);
      assert s == NatToStr(n / 10) + [DigitChar(n % 10)];
      assert forall i :: 0 <= i < |s| - 1 ==> s[i] == NatToStr(n / 10)[i];
    }
  }

  /** Python's str(i) for an int: a minus sign before the digits of |i| when negative. */
  function IntToStr(i: int): (s: string)
    ensures |s| >= 1
    ensures s[0] == '-' <==> i < 0
  {
    if i < 0 then "-" + NatToStr(-i) else NatToStr(i)
  }

  lemma {:induction false} NatToStrInjective(a: nat, b: nat)
    requires NatToStr(a) == NatToStr(b)
    ensures a == b
    decreases a
  {
    var sa, sb := NatToStr(a), NatToStr(b);
    if a < 10 && b < 10 {
      assert DigitValue(sa[0]) == a && DigitValue(sb[0]) == b;
    } else if a >= 10 && b >= 10 {
      assert sa[..|sa| - 1] == NatToStr(a / 10);
      assert sb[..|sb| - 1] == NatToStr(b / 10);
      NatToStrInjective(a / 10, b / 10);
      assert DigitValue(sa[|sa| - 1]) == a % 10;
      assert DigitValue(sb[|sb| - 1]) == b % 10;
    }
  }

  /** Distinct integers print differently, so str(i) is a faithful dictionary key. */
  lemma IntToStrInjective(a: int, b: int)
    requires IntToStr(a) == IntToStr(b)
    ensures a == b
  {
    if a < 0 {
      assert IntToStr(a)[1..] == NatToStr(-a);
      assert IntToStr(b)[1..] == NatToStr(-b);
      NatToStrInjective(-a, -b);
    } else {
      NatToStrInjective(a, b);
    }
  }

  predicate AllDigits(s: string) { forall i :: 0 <= i < |s| ==> IsDigit(s[i]) }

  /** Value of a non-empty run of decimal digits (leading zeros allowed, as in int("007")). */
  function DigitsValue(s: string): nat
    requires |s| >= 1 && AllDigits(s)
    decreases |s|
  {
    if |s| == 1 then DigitValue(s[0])
    else DigitsValue(s[..|s| - 1]) * 10 + DigitValue(s[|s| - 1])
  }

  /**
   * int(token) on a token without whitespace, restricted to ASCII: an
   * optional sign then one or more digits 0-9 gives Some; every other token
   * gives None, standing for ValueError. Python also accepts single `_`
   * between digits and non-ASCII decimal digits; those are not modelled.
   */
  function ParseInt(s: string): (r: Option<int>)
    ensures r.Some? ==> |s| >= 1
  {
    if |s| >= 2 && s[0] == '-' && AllDigits(s[1..]) then Some(-(DigitsValue(s[1..]) as int))
    else if |s| >= 2 && s[0] == '+' && AllDigits(s[1..]) then Some(DigitsValue(s[1..]))
    else if |s| >= 1 && AllDigits(s) then Some(DigitsValue(s))
    else None
  }

  lemma {:induction false} DigitsValueOfNatToStr(n: nat)
    ensures AllDigits(NatToStr(n)) && DigitsValue(NatToStr(n)) == n
    decreases n
  {
    NatToStrDigits(n);
    if n >= 10 {
      var s := NatToStr(n);
      assert s[..|s| - 1] == NatToStr(n / 10);
      NatToStrDigits(n / 10);
      DigitsValueOfNatToStr(n / 10);
    }
  }

  /** int(str(i)) == i. */
  lemma ParseIntOfIntToStr(i: int)
    ensures ParseInt(IntToStr(i)) == Some(i)
  {
    var s := IntToStr(i);
    if i < 0 {
      var digits := NatToStr(-i);
      assert s == "-" + digits;
      assert s[1..] == digits;
      DigitsValueOfNatToStr(-i);
    } else {
      assert s == NatToStr(i) && IsDigit(s[0]);
      DigitsValueOfNatToStr(i);
    }
  }

  /**
   * The characters at which Python's str.split() with no argument splits
   * (those for which str.isspace() holds): tab to carriage return, the four
   * information separators, space, NEL, no-break space and the Unicode
   * space, line and paragraph separators.
   */
  predicate IsSpace(c: char) {
    || '\U{9}' <= c <= '\U{D}'
    || '\U{1C}' <= c <= '\U{20}'
    || c == '\U{85}' || c == '\U{A0}' || c == '\U{1680}'
    || '\U{2000}' <= c <= '\U{200A}'
    || c == '\U{2028}' || c == '\U{2029}' || c == '\U{202F}' || c == '\U{205F}' || c == '\U{3000}'
  }

  predicate HasNoSpace(s: string) { forall i :: 0 <= i < |s| ==> !IsSpace(s[i]) }

  /** The longest suffix of s free of whitespace. */
  function TrailingWord(s: string): (w: string)
    ensures |w| <= |s| && w == s[|s| - |w|..]
    ensures HasNoSpace(w)
    ensures |w| < |s| ==> IsSpace(s[|s| - |w| - 1])
    decreases |s|
  {
    if |s| == 0 || IsSpace(s[|s| - 1]) then []
    else TrailingWord(s[..|s| - 1]) + [s[|s| - 1]]
  }

  /** key.split()[-1]: the last whitespace-separated word; "" when there is none. */
  function LastWord(s: string): (w: string)
    ensures HasNoSpace(w)
    decreases |s|
  {
    if |s| == 0 then []
    else if IsSpace(s[|s| - 1]) then LastWord(s[..|s| - 1])
    else TrailingWord(s)
  }

  lemma LastWordAfterSpace(prefix: string, word: string)
    requires |word| >= 1 && HasNoSpace(word)
    requires |prefix| >= 1 && IsSpace(prefix[|prefix| - 1])
    ensures LastWord(prefix + word) == word
  {
    var s := prefix + word;
    TrailingWordAfterSpace(prefix, word);
  }

  lemma {:induction false} TrailingWordAfterSpace(prefix: string, word: string)
    requires HasNoSpace(word)
    requires |prefix| >= 1 && IsSpace(prefix[|prefix| - 1])
    ensures TrailingWord(prefix + word) == word
    decreases |word|
  {
    var s := prefix + word;
    if |word| == 0 {
      assert s == prefix;
    } else {
      assert s[..|s| - 1] == prefix + word[..|word| - 1];
      TrailingWordAfterSpace(prefix, word[..|word| - 1]);
    }
  }

  predicate StartsWith(s: string, prefix: string) {
    |prefix| <= |s| && s[..|prefix|] == prefix
  }

  /** JavaScript s.split(sep) for a one-character separator: never empty. */
  function Split(s: string, sep: char): (parts: seq<string>)
    ensures |parts| >= 1
    decreases |s|
  {
    if sep !in s then [s]
    else
      var i := IndexOf(s, sep);
      [s[..i]] + Split(s[i + 1..], sep)
  }

  function IndexOf(s: string, c: char): (i: nat)
    requires c in s
    ensures i < |s| && s[i] == c
  {
    if s[0] == c then 0 else 1 + IndexOf(s[1..], c)
  }

  /** IndexOf finds the first occurrence. */
  lemma {:induction false} IndexOfIsFirst(s: string, c: char)
    requires c in s
    ensures c !in s[..IndexOf(s, c)]
  {
    if s[0] != c {
      var i := IndexOf(s[1..], c);
      IndexOfIsFirst(s[1..], c);
      assert s[..i + 1] == [s[0]] + s[1..][..i];
    }
  }

  /** A string cut around one position. */
  lemma CutAt(s: string, i: nat)
    requires i < |s|
    ensures s == s[..i] + [s[i]] + s[i + 1..]
  {
  }

  /** The inverse of Split: the parts glued back with the separator. */
  function Join(parts: seq<string>, sep: char): string
    requires |parts| >= 1
    decreases |parts|
  {
    if |parts| == 1 then parts[0] else parts[0] + [sep] + Join(parts[1..], sep)
  }

  /** No part of a split holds the separator. */
  lemma {:induction false} SplitParts(s: string, sep: char)
    ensures forall k :: 0 <= k < |Split(s, sep)| ==> sep !in Split(s, sep)[k]
    decreases |s|
  {
    if sep in s {
      var i := IndexOf(s, sep);
      var rest := Split(s[i + 1..], sep);
      IndexOfIsFirst(s, sep);
      SplitParts(s[i + 1..], sep);
      assert Split(s, sep) == [s[..i]] + rest;
    }
  }

  /** Joining a first part in front of the others. */
  lemma JoinCons(first: string, rest: seq<string>, sep: char)
    requires |rest| >= 1
    ensures Join([first] + rest, sep) == first + [sep] + Join(rest, sep)
  {
    assert ([first] + rest)[1..] == rest;
  }

  lemma {:induction false} JoinSplit(s: string, sep: char)
    ensures Join(Split(s, sep), sep) == s
    decreases |s|
  {
    if sep in s {
      var i := IndexOf(s, sep);
      var first, tail := s[..i], s[i + 1..];
      var rest := Split(tail, sep);
      assert Split(s, sep) == [first] + rest;
      JoinCons(first, rest, sep);
      JoinSplit(tail, sep);
      CutAt(s, i);
    }
  }

  /** The first occurrence of c is at j when s[j] is c and c does not occur before it. */
  lemma IndexOfFirst(s: string, c: char, j: nat)
    requires j < |s| && s[j] == c && c !in s[..j]
    ensures IndexOf(s, c) == j
  {
    IndexOfIsFirst(s, c);
  }

  /** Splitting the joined parts gives them back when none of them holds the separator. */
  lemma {:induction false} SplitJoin(parts: seq<string>, sep: char)
    requires |parts| >= 1
    requires forall k :: 0 <= k < |parts| ==> sep !in parts[k]
    ensures Split(Join(parts, sep), sep) == parts
    decreases |parts|
  {
    if |parts| > 1 {
      var first, s, rest := parts[0], Join(parts, sep), Join(parts[1..], sep);
      assert s == first + [sep] + rest;
      assert s[..|first|] == first && s[|first|] == sep && s[|first| + 1..] == rest;
      IndexOfFirst(s, sep, |first|);
      assert Split(s, sep) == [first] + Split(rest, sep);
      SplitJoin(parts[1..], sep);
      assert parts == [first] + parts[1..];
    } else {
      assert Join(parts, sep) == parts[0];
    }
  }
}
