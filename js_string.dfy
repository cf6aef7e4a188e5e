/**
 * The string primitives the console relies on, with JavaScript's semantics:
 * decimal rendering of integers (`${n}`), `String.prototype.trim`,
 * `split(',')` and `join(sep)`.
 */
module JsString {

  datatype Option<T> = None | Some(value: T)

  // ---------------------------------------------------------------------------
  // Decimal rendering of integers, as `${n}` does for an integral number
  // ---------------------------------------------------------------------------

  predicate IsDigit(c: char) {
    '0' <= c <= '9'
  }

  predicate AllDigits(s: string) {
    forall i :: 0 <= i < |s| ==> IsDigit(s[i])
  }

  function DigitChar(d: nat): (c: char)
    requires d < 10
    ensures IsDigit(c) && c as int - '0' as int == d
  {
    (d + '0' as int) as char
  }

  /** Decimal digits of `n`, most significant first, no leading zero. */
  function NatText(n: nat): (s: string)
    ensures |s| >= 1 && AllDigits(s)
    ensures |s| > 1 ==> s[0] != '0'
    decreases n
  {
    if n < 10 then [DigitChar(n)] else NatText(n / 10) + [DigitChar(n % 10)]
  }

  /** `${n}` for an integral JavaScript number. */
  function IntText(n: int): (s: string)
    ensures |s| >= 1
  {
    if n < 0 then "-" + NatText(-n) else NatText(n)
  }

  /** The value of a run of decimal digits. */
  function DigitsValue(s: string): nat
    requires AllDigits(s)
  {
    if s == [] then 0
    else DigitsValue(s[..|s| - 1]) * 10 + (s[|s| - 1] as int - '0' as int)
  }

  /** Reads back what IntText writes: an optional minus sign and digits. */
  function ParseInt(s: string): Option<int> {
    if |s| > 1 && s[0] == '-' && AllDigits(s[1..]) then Some(-(DigitsValue(s[1..]) as int))
    else if |s| > 0 && AllDigits(s) then Some(DigitsValue(s))
    else None
  }

  lemma {:induction false} NatTextValue(n: nat)
    ensures DigitsValue(NatText(n)) == n
    decreases n
  {
    var s := NatText(n);
    if n >= 10 {
      NatTextValue(n / 10);
      assert s[..|s| - 1] == NatText(n / 10);
    }
  }

  lemma NatTextRoundTrip(n: nat)
    ensures ParseInt(NatText(n)) == Some(n)
  {
    var s := NatText(n);
    NatTextValue(n);
    assert IsDigit(s[0]);
  }

  lemma NegativeTextRoundTrip(n: int)
    requires n < 0
    ensures ParseInt(IntText(n)) == Some(n)
  {
    var t := NatText(-n);
    var s := IntText(n);
    assert s == "-" + t;
    assert s[1..] == t;
    NatTextValue(-n);
    assert DigitsValue(s[1..]) == -n;
  }

  /** `${n}` is read back as `n`: decimal rendering loses nothing. */
  lemma IntTextRoundTrip(n: int)
    ensures ParseInt(IntText(n)) == Some(n)
  {
    if n < 0 {
      NegativeTextRoundTrip(n);
    } else {
      NatTextRoundTrip(n);
    }
  }

  /** Two distinct numbers never render to the same text. */
  lemma IntTextInjective(a: int, b: int)
    ensures IntText(a) == IntText(b) <==> a == b
  {
    IntTextRoundTrip(a);
    IntTextRoundTrip(b);
  }

  // ---------------------------------------------------------------------------
  // String.prototype.trim
  // ---------------------------------------------------------------------------

  /**
   * The characters `trim` removes: ECMAScript WhiteSpace (tab, vertical tab,
   * form feed, ZWNBSP and every space separator) and LineTerminator.
   */
  predicate IsJsWhitespace(c: char) {
    || c == '\t' || c == '\U{000B}' || c == '\U{000C}' || c == ' '
    || c == '\U{00A0}' || c == '\U{1680}' || ('\U{2000}' <= c <= '\U{200A}')
    || c == '\U{202F}' || c == '\U{205F}' || c == '\U{3000}' || c == '\U{FEFF}'
    || c == '\n' || c == '\r' || c == '\U{2028}' || c == '\U{2029}'
  }

  predicate AllWhitespace(s: string) {
    forall i :: 0 <= i < |s| ==> IsJsWhitespace(s[i])
  }

  /** Neither end of `s` is a whitespace character. */
  predicate IsTrimmed(s: string) {
    s == [] || (!IsJsWhitespace(s[0]) && !IsJsWhitespace(s[|s| - 1]))
  }

  /** `s` without its leading whitespace. */
  function TrimStart(s: string): string {
    if s != [] && IsJsWhitespace(s[0]) then TrimStart(s[1..]) else s
  }

  /** `s` without its trailing whitespace. */
  function TrimEnd(s: string): string {
    if s != [] && IsJsWhitespace(s[|s| - 1]) then TrimEnd(s[..|s| - 1]) else s
  }

  /** `s.trim()`. */
  function Trim(s: string): string {
    TrimEnd(TrimStart(s))
  }

  /** `TrimStart` drops a whitespace-only prefix and stops at the first other character. */
  lemma {:induction false} TrimStartSpec(s: string)
    ensures |TrimStart(s)| <= |s| && TrimStart(s) == s[|s| - |TrimStart(s)|..]
    ensures forall k :: 0 <= k < |s| - |TrimStart(s)| ==> IsJsWhitespace(s[k])
    ensures TrimStart(s) == [] || !IsJsWhitespace(TrimStart(s)[0])
  {
    if s != [] && IsJsWhitespace(s[0]) {
      var t := s[1..];
      TrimStartSpec(t);
      assert TrimStart(s) == TrimStart(t);
      forall k | 0 <= k < |s| - |TrimStart(s)|
        ensures IsJsWhitespace(s[k])
      {
        if k > 0 {
          assert s[k] == t[k - 1];
        }
      }
    }
  }

  /** `TrimEnd` drops a whitespace-only suffix and stops at the last other character. */
  lemma {:induction false} TrimEndSpec(s: string)
    ensures |TrimEnd(s)| <= |s| && TrimEnd(s) == s[..|TrimEnd(s)|]
    ensures forall k :: |TrimEnd(s)| <= k < |s| ==> IsJsWhitespace(s[k])
    ensures TrimEnd(s) == [] || !IsJsWhitespace(TrimEnd(s)[|TrimEnd(s)| - 1])
  {
    if s != [] && IsJsWhitespace(s[|s| - 1]) {
      var t := s[..|s| - 1];
      TrimEndSpec(t);
      assert TrimEnd(s) == TrimEnd(t);
      forall k | |TrimEnd(s)| <= k < |s|
        ensures IsJsWhitespace(s[k])
      {
        if k < |s| - 1 {
          assert s[k] == t[k];
        }
      }
    }
  }

  /**
   * `trim` cuts a whitespace-only prefix and suffix off `s` and leaves a
   * string with no whitespace at either end.
   */
  lemma TrimSpec(s: string)
    ensures var i := |s| - |TrimStart(s)|;
      && 0 <= i && i + |Trim(s)| <= |s|
      && Trim(s) == s[i..i + |Trim(s)|]
      && (forall k :: 0 <= k < i ==> IsJsWhitespace(s[k]))
      && (forall k :: i + |Trim(s)| <= k < |s| ==> IsJsWhitespace(s[k]))
    ensures IsTrimmed(Trim(s))
  {
    TrimStartSpec(s);
    TrimSlice(s);
    TrimSuffixIsWhitespace(s);
    TrimIsTrimmed(s);
  }

  /** The trim is the slice of `s` that starts where `TrimStart` starts. */
  lemma TrimSlice(s: string)
    ensures var i := |s| - |TrimStart(s)|;
      && 0 <= i && i + |Trim(s)| <= |s|
      && Trim(s) == s[i..i + |Trim(s)|]
  {
    var a := TrimStart(s);
    TrimStartSpec(s);
    TrimEndSpec(a);
  }

  /** Everything after the trim is whitespace. */
  lemma TrimSuffixIsWhitespace(s: string)
    ensures var j := |s| - |TrimStart(s)| + |Trim(s)|;
      forall k :: 0 <= j <= k < |s| ==> IsJsWhitespace(s[k])
  {
    var a := TrimStart(s);
    TrimStartSpec(s);
    TrimEndSpec(a);
    var i := |s| - |a|;
    forall k | i + |Trim(s)| <= k < |s|
      ensures IsJsWhitespace(s[k])
    {
      assert s[k] == a[k - i];
    }
  }

  /** What `trim` leaves has no whitespace at either end. */
  lemma TrimIsTrimmed(s: string)
    ensures IsTrimmed(Trim(s))
  {
    var a := TrimStart(s);
    TrimStartSpec(s);
    var r := TrimEnd(a);
    TrimEndSpec(a);
    if r != [] {
      assert r[0] == a[0];
    }
  }

  /** A string without whitespace at its ends is its own trim. */
  lemma TrimOfTrimmed(s: string)
    requires IsTrimmed(s)
    ensures Trim(s) == s
  {
  }

  /** `trim` only removes characters: one absent from `s` is absent from its trim. */
  lemma NotInTrim(s: string, c: char)
    requires c !in s
    ensures c !in Trim(s)
  {
    var a := TrimStart(s);
    TrimStartSpec(s);
    var r := TrimEnd(a);
    TrimEndSpec(a);
    forall k | 0 <= k < |r|
      ensures r[k] != c
    {
      assert r[k] == a[k] == s[|s| - |a| + k];
    }
  }

  /** A string of whitespace only trims to the empty string. */
  lemma TrimOfWhitespace(s: string)
    requires AllWhitespace(s)
    ensures Trim(s) == ""
  {
    TrimStartSpec(s);
  }

  /** A leading whitespace character never survives `trim`. */
  lemma TrimDropsLeadingSpace(c: char, s: string)
    requires IsJsWhitespace(c)
    ensures Trim([c] + s) == Trim(s)
  {
    assert ([c] + s)[1..] == s;
  }

  // ---------------------------------------------------------------------------
  // split(c) and join(sep)
  // ---------------------------------------------------------------------------

  function Count(s: string, c: char): nat {
    if s == [] then 0 else (if s[0] == c then 1 else 0) + Count(s[1..], c)
  }

  /** `s.split(c)` for a one-character separator. */
  function Split(s: string, c: char): (pieces: seq<string>)
    ensures |pieces| >= 1
  {
    if s == [] then [""]
    else if s[0] == c then [""] + Split(s[1..], c)
    else
      var rest := Split(s[1..], c);
      [[s[0]] + rest[0]] + rest[1..]
  }

  /** `parts.join(sep)`. */
  function Join(parts: seq<string>, sep: string): string {
    if parts == [] then ""
    else if |parts| == 1 then parts[0]
    else parts[0] + sep + Join(parts[1..], sep)
  }

  /** Splitting yields one more piece than there are separators. */
  lemma {:induction false} SplitCount(s: string, c: char)
    ensures |Split(s, c)| == Count(s, c) + 1
  {
    if s != [] {
      SplitCount(s[1..], c);
    }
  }

  /** No piece of a split contains the separator. */
  lemma {:induction false} SplitPiecesFree(s: string, c: char)
    ensures forall k :: 0 <= k < |Split(s, c)| ==> c !in Split(s, c)[k]
  {
    if s != [] {
      SplitPiecesFree(s[1..], c);
    }
  }

  /** Joining the pieces with the separator gives back the original string. */
  lemma {:induction false} JoinSplit(s: string, c: char)
    ensures Join(Split(s, c), [c]) == s
  {
    if s != [] {
      var rest := Split(s[1..], c);
      JoinSplit(s[1..], c);
      if s[0] == c {
        assert Split(s, c) == [""] + rest;
        assert ([""] + rest)[1..] == rest;
      } else {
        var ps := Split(s, c);
        assert ps[1..] == rest[1..];
        if |rest| == 1 {
          assert ps == [[s[0]] + rest[0]];
        } else {
          assert Join(rest, [c]) == rest[0] + [c] + Join(rest[1..], [c]);
        }
      }
    }
  }

  /** Splitting a comma-free piece, a separator and more text. */
  lemma {:induction false} SplitAfterPiece(a: string, c: char, b: string)
    requires c !in a
    ensures Split(a + [c] + b, c) == [a] + Split(b, c)
  {
    if a == [] {
      assert [c] + b == a + [c] + b;
      assert ([c] + b)[1..] == b;
    } else {
      assert (a + [c] + b)[1..] == a[1..] + [c] + b;
      assert (a + [c] + b)[0] == a[0] != c;
      SplitAfterPiece(a[1..], c, b);
      assert [a[0]] + a[1..] == a;
    }
  }

  /** Splitting a separator-free string yields that string alone. */
  lemma {:induction false} SplitWhole(a: string, c: char)
    requires c !in a
    ensures Split(a, c) == [a]
  {
    if a != [] {
      SplitWhole(a[1..], c);
      assert [a[0]] + a[1..] == a;
    }
  }

  /** Joining separator-free pieces and splitting again restores them. */
  lemma {:induction false} SplitJoin(parts: seq<string>, c: char)
    requires |parts| >= 1
    requires forall k :: 0 <= k < |parts| ==> c !in parts[k]
    ensures Split(Join(parts, [c]), c) == parts
  {
    if |parts| == 1 {
      SplitWhole(parts[0], c);
    } else {
      SplitJoin(parts[1..], c);
      SplitAfterPiece(parts[0], c, Join(parts[1..], [c]));
      assert parts == [parts[0]] + parts[1..];
    }
  }
}
