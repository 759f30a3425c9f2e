/** The Python string operations the bot relies on, over `seq<char>`:
    `str.strip()`, `str.lower()`, `str.upper()`, `str.split(",")`, the
    substring test `sub in s`, `str.startswith` and `int(str)`. */
module Text {
  import opened Outcomes

  // ---------------------------------------------------------------------
  // Whitespace and strip()

  /** The characters for which Python's `str.isspace()` holds; these are the
      characters `str.strip()` removes when called without arguments. */
  predicate IsSpace(c: char) {
    || c == ' '
    || '\t' <= c <= '\r'
    || '\U{1C}' <= c <= '\U{1F}'
    || c == '\U{85}' || c == '\U{A0}' || c == '\U{1680}'
    || '\U{2000}' <= c <= '\U{200A}'
    || c == '\U{2028}' || c == '\U{2029}' || c == '\U{202F}'
    || c == '\U{205F}' || c == '\U{3000}'
  }

  predicate AllSpace(s: string) {
    forall i :: 0 <= i < |s| ==> IsSpace(s[i])
  }

  /** The end of the run of whitespace in `s` that starts at index `i`. */
  function SpaceRunEnd(s: string, i: nat): (j: nat)
    requires i <= |s|
    ensures i <= j <= |s| && (j == |s| || !IsSpace(s[j]))
    ensures forall k :: i <= k < j ==> IsSpace(s[k])
    decreases |s| - i
  {
    if i < |s| && IsSpace(s[i]) then SpaceRunEnd(s, i + 1) else i
  }

  /** The start of the run of whitespace in `s` that ends just before index `j`. */
  function SpaceRunStart(s: string, j: nat): (i: nat)
    requires j <= |s|
    ensures i <= j && (i == 0 || !IsSpace(s[i - 1]))
    ensures forall k :: i <= k < j ==> IsSpace(s[k])
  {
    if j > 0 && IsSpace(s[j - 1]) then SpaceRunStart(s, j - 1) else j
  }

  /** `s` with its leading whitespace removed: a suffix of `s` that does not
      start with whitespace, and everything cut off is whitespace. */
  function TrimStart(s: string): (r: string)
    ensures |r| <= |s| && r == s[|s| - |r|..]
    ensures r == [] || !IsSpace(r[0])
    ensures forall i :: 0 <= i < |s| - |r| ==> IsSpace(s[i])
  {
    s[SpaceRunEnd(s, 0)..]
  }

  /** `s` with its trailing whitespace removed: a prefix of `s` that does not
      end with whitespace, and everything cut off is whitespace. */
  function TrimEnd(s: string): (r: string)
    ensures |r| <= |s| && r == s[..|r|]
    ensures r == [] || !IsSpace(r[|r| - 1])
    ensures forall i :: |r| <= i < |s| ==> IsSpace(s[i])
  {
    s[..SpaceRunStart(s, |s|)]
  }

  /** Python's `s.strip()`: empty exactly for an all-whitespace string,
      otherwise neither starting nor ending with whitespace, and made of
      characters of `s`. `StripIsSlice` pins down which characters. */
  function Strip(s: string): (r: string)
    ensures r == [] <==> AllSpace(s)
    ensures r != [] ==> !IsSpace(r[0]) && !IsSpace(r[|r| - 1])
    ensures forall c :: c in r ==> c in s
  {
    var t := TrimStart(s);
    var r := TrimEnd(t);
    assert forall c :: c in r ==> c in t;
    r
  }

  /** A prefix `r` of a suffix `t` of `s`, where both cuts removed only
      whitespace, is the slice of `s` between two runs of whitespace. */
  lemma SliceBetweenSpaces(s: string, t: string, r: string, i: nat)
    requires i <= |s| && t == s[i..] && forall k :: 0 <= k < i ==> IsSpace(s[k])
    requires |r| <= |t| && r == t[..|r|] && forall k :: |r| <= k < |t| ==> IsSpace(t[k])
    ensures i <= |s| - |r| && r == s[i..i + |r|]
    ensures AllSpace(s[..i]) && AllSpace(s[i + |r|..])
  {
    var u := s[i + |r|..];
    forall k | 0 <= k < |u|
      ensures IsSpace(u[k])
    {
      assert u[k] == t[|r| + k];
    }
  }

  /** `strip()` gives the slice of `s` between its leading whitespace, which
      `TrimStart` removes, and its trailing whitespace. */
  lemma {:induction false} StripIsSlice(s: string)
    ensures var i, r := |s| - |TrimStart(s)|, Strip(s);
            && i + |r| <= |s| && r == s[i..i + |r|]
            && AllSpace(s[..i]) && AllSpace(s[i + |r|..])
  {
    SliceBetweenSpaces(s, TrimStart(s), Strip(s), |s| - |TrimStart(s)|);
  }

  /** A string that neither starts nor ends with whitespace is stripped. */
  lemma StripUnpadded(s: string)
    requires |s| > 0 && !IsSpace(s[0]) && !IsSpace(s[|s| - 1])
    ensures Strip(s) == s
  {
  }

  /** Stripping twice is stripping once. */
  lemma StripIdempotent(s: string)
    ensures Strip(Strip(s)) == Strip(s)
  {
    var t := Strip(s);
    if t == [] {
      assert AllSpace(t);
    } else {
      StripUnpadded(t);
    }
  }

  // ---------------------------------------------------------------------
  // lower() and upper(), on the ASCII letters

  predicate IsAsciiUpper(c: char) { 'A' <= c <= 'Z' }
  predicate IsAsciiLower(c: char) { 'a' <= c <= 'z' }

  function LowerChar(c: char): char {
    if IsAsciiUpper(c) then (c as int + 32) as char else c
  }

  function UpperChar(c: char): char {
    if IsAsciiLower(c) then (c as int - 32) as char else c
  }

  /** Python's `s.lower()` on ASCII letters: the result has the same length
      and holds no upper-case letter. */
  function Lower(s: string): (r: string)
    ensures |r| == |s|
    ensures forall i :: 0 <= i < |s| ==> !IsAsciiUpper(r[i])
  {
    seq(|s|, i requires 0 <= i < |s| => LowerChar(s[i]))
  }

  /** Lower-casing changes exactly the upper-case letters, each into a
      lower-case one, and leaves whitespace where it was. */
  lemma LowerChars(s: string)
    ensures forall i :: 0 <= i < |s| ==> (Lower(s)[i] == s[i] <==> !IsAsciiUpper(s[i]))
    ensures forall i :: 0 <= i < |s| && IsAsciiUpper(s[i]) ==> IsAsciiLower(Lower(s)[i])
    ensures forall i :: 0 <= i < |s| && IsAsciiUpper(s[i]) ==> Lower(s)[i] as int == s[i] as int + 32
    ensures forall i :: 0 <= i < |s| ==> (IsSpace(Lower(s)[i]) <==> IsSpace(s[i]))
  {
  }

  /** Python's `s.upper()` on ASCII letters: the result has the same length
      and holds no lower-case letter. */
  function Upper(s: string): (r: string)
    ensures |r| == |s|
    ensures forall i :: 0 <= i < |s| ==> !IsAsciiLower(r[i])
  {
    seq(|s|, i requires 0 <= i < |s| => UpperChar(s[i]))
  }

  /** Upper-casing changes exactly the lower-case letters, each into an
      upper-case one. */
  lemma UpperChars(s: string)
    ensures forall i :: 0 <= i < |s| ==> (Upper(s)[i] == s[i] <==> !IsAsciiLower(s[i]))
    ensures forall i :: 0 <= i < |s| && IsAsciiLower(s[i]) ==> IsAsciiUpper(Upper(s)[i])
    ensures forall i :: 0 <= i < |s| && IsAsciiLower(s[i]) ==> Upper(s)[i] as int == s[i] as int - 32
  {
  }

  /** A string with no upper-case letter is its own lower-case form. */
  lemma LowerOfLower(s: string)
    requires forall i :: 0 <= i < |s| ==> !IsAsciiUpper(s[i])
    ensures Lower(s) == s
  {
  }

  /** A string with no lower-case letter is its own upper-case form. */
  lemma UpperOfUpper(s: string)
    requires forall i :: 0 <= i < |s| ==> !IsAsciiLower(s[i])
    ensures Upper(s) == s
  {
  }

  /** Upper-casing undoes lower-casing on a string with no lower-case letter. */
  lemma UpperOfLower(s: string)
    requires forall i :: 0 <= i < |s| ==> !IsAsciiLower(s[i])
    ensures Upper(Lower(s)) == s
  {
    LowerChars(s);
    UpperChars(Lower(s));
  }

  /** Lower-casing keeps every whitespace character where it was, so the runs
      of whitespace start and end at the same places. */
  lemma {:induction false} SpaceRunEndLower(s: string, i: nat)
    requires i <= |s|
    ensures SpaceRunEnd(Lower(s), i) == SpaceRunEnd(s, i)
    decreases |s| - i
  {
    LowerChars(s);
    if i < |s| && IsSpace(s[i]) {
      SpaceRunEndLower(s, i + 1);
    }
  }

  lemma {:induction false} SpaceRunStartLower(s: string, j: nat)
    requires j <= |s|
    ensures SpaceRunStart(Lower(s), j) == SpaceRunStart(s, j)
  {
    LowerChars(s);
    if j > 0 && IsSpace(s[j - 1]) {
      SpaceRunStartLower(s, j - 1);
    }
  }

  /** Lower-casing commutes with strip(). */
  lemma TrimStartLower(s: string)
    ensures TrimStart(Lower(s)) == Lower(TrimStart(s))
  {
    SpaceRunEndLower(s, 0);
    var n := SpaceRunEnd(s, 0);
    assert Lower(s)[n..] == Lower(s[n..]);
  }

  lemma TrimEndLower(s: string)
    ensures TrimEnd(Lower(s)) == Lower(TrimEnd(s))
  {
    SpaceRunStartLower(s, |s|);
    var n := SpaceRunStart(s, |s|);
    assert Lower(s)[..n] == Lower(s[..n]);
  }

  lemma StripLower(s: string)
    ensures Strip(Lower(s)) == Lower(Strip(s))
  {
    TrimStartLower(s);
    TrimEndLower(TrimStart(s));
  }

  // ---------------------------------------------------------------------
  // Substrings

  /** Python's `s.startswith(prefix)`: `s` is at least as long as `prefix`
      and agrees with it position by position. */
  predicate StartsWith(s: string, prefix: string)
    ensures StartsWith(s, prefix) <==>
      |prefix| <= |s| && forall i :: 0 <= i < |prefix| ==> s[i] == prefix[i]
  {
    |prefix| <= |s| && s[..|prefix|] == prefix
  }

  /** Python's `sub in s`, scanning from the left: never longer than `s`,
      true for a prefix; `ContainsIffOccurs` gives the whole meaning. */
  predicate Contains(s: string, sub: string)
    ensures Contains(s, sub) ==> |sub| <= |s|
    ensures StartsWith(s, sub) ==> Contains(s, sub)
    decreases |s|
  {
    StartsWith(s, sub) || (|s| > 0 && Contains(s[1..], sub))
  }

  /** `sub` occurs in `s` starting at position `i`. */
  predicate OccursAt(s: string, sub: string, i: int) {
    0 <= i <= |s| - |sub| && s[i..i + |sub|] == sub
  }

  /** `sub in s` holds exactly when `sub` occurs at some position of `s`. */
  lemma {:induction false} ContainsIffOccurs(s: string, sub: string)
    ensures Contains(s, sub) <==> exists i :: OccursAt(s, sub, i)
    decreases |s|
  {
    if StartsWith(s, sub) {
      assert OccursAt(s, sub, 0);
    } else if |s| > 0 {
      ContainsIffOccurs(s[1..], sub);
      if Contains(s[1..], sub) {
        var i :| OccursAt(s[1..], sub, i);
        assert s[i + 1..i + 1 + |sub|] == s[1..][i..i + |sub|];
        assert OccursAt(s, sub, i + 1);
      }
      forall i | OccursAt(s, sub, i)
        ensures Contains(s[1..], sub)
      {
        assert i != 0;
        assert s[1..][i - 1..i - 1 + |sub|] == s[i..i + |sub|];
        assert OccursAt(s[1..], sub, i - 1);
      }
    }
  }

  // ---------------------------------------------------------------------
  // split(",")

  /** Python's `",".join(pieces)`. */
  function Join(pieces: seq<string>): string
    requires |pieces| >= 1
  {
    if |pieces| == 1 then pieces[0] else pieces[0] + "," + Join(pieces[1..])
  }

  /** Python's `s.split(",")`: at least one piece, and no piece holds a
      comma. */
  function Split(s: string): (pieces: seq<string>)
    ensures |pieces| >= 1
    ensures forall p :: p in pieces ==> ',' !in p
  {
    if |s| == 0 then [""]
    else
      var rest := Split(s[1..]);
      if s[0] == ',' then [""] + rest
      else [[s[0]] + rest[0]] + rest[1..]
  }

  /** Joining the pieces with commas gives back the string split. */
  lemma {:induction false} JoinSplit(s: string)
    ensures Join(Split(s)) == s
    decreases |s|
  {
    if |s| > 0 {
      var rest := Split(s[1..]);
      JoinSplit(s[1..]);
      if s[0] == ',' {
        assert s == "," + s[1..];
        assert ([""] + rest)[1..] == rest;
      } else {
        var pieces := [[s[0]] + rest[0]] + rest[1..];
        assert pieces[1..] == rest[1..];
        if |rest| > 1 {
          assert Join(rest) == rest[0] + "," + Join(rest[1..]);
        }
      }
    }
  }

  /** Every character of a piece occurs in the string split. */
  lemma {:induction false} SplitChars(s: string, k: nat, j: nat)
    requires k < |Split(s)| && j < |Split(s)[k]|
    ensures Split(s)[k][j] in s
    decreases |s|
  {
    if |s| > 0 {
      var rest := Split(s[1..]);
      if s[0] == ',' {
        if k > 0 {
          SplitChars(s[1..], k - 1, j);
        }
      } else if k == 0 && j == 0 {
      } else if k == 0 {
        SplitChars(s[1..], 0, j - 1);
      } else {
        SplitChars(s[1..], k, j);
      }
    }
  }

  /** The other half of the round trip: splitting comma-free pieces joined
      with commas gives the pieces back. */
  lemma {:induction false} SplitJoin(pieces: seq<string>)
    requires |pieces| >= 1
    requires forall p :: p in pieces ==> ',' !in p
    ensures Split(Join(pieces)) == pieces
    decreases |pieces|, |pieces[0]|
  {
    var s := Join(pieces);
    if |pieces[0]| == 0 {
      if |pieces| > 1 {
        assert s == "," + Join(pieces[1..]);
        assert s[1..] == Join(pieces[1..]);
        SplitJoin(pieces[1..]);
        assert pieces == [""] + pieces[1..];
      }
    } else {
      var shorter := [pieces[0][1..]] + pieces[1..];
      assert shorter[1..] == pieces[1..];
      assert pieces[0][0] in pieces[0];
      forall p | p in shorter ensures ',' !in p {
        if p == pieces[0][1..] {
          forall c | c in p ensures c in pieces[0] {
            var k :| 0 <= k < |p| && p[k] == c;
            assert pieces[0][k + 1] == c;
          }
        }
      }
      assert Join(shorter) == s[1..] by {
        if |pieces| > 1 {
          assert s == pieces[0] + "," + Join(pieces[1..]);
        }
      }
      SplitJoin(shorter);
      assert s[0] == pieces[0][0] by {
        if |pieces| > 1 {
          assert s == pieces[0] + "," + Join(pieces[1..]);
        }
      }
      assert pieces[0] == [s[0]] + shorter[0];
      assert pieces == [[s[0]] + shorter[0]] + shorter[1..];
    }
  }

  /** A string without a comma splits into itself. */
  lemma SplitWithoutComma(s: string)
    requires ',' !in s
    ensures Split(s) == [s]
  {
    SplitJoin([s]);
  }

  // ---------------------------------------------------------------------
  // int(str) and str(int) for decimal integers

  predicate IsDigit(c: char) { '0' <= c <= '9' }

  /** The digit part Python's `int(str)` accepts: ASCII digits, with single
      underscores allowed between two digits. */
  predicate DigitGroups(s: string) {
    && |s| > 0 && IsDigit(s[0]) && IsDigit(s[|s| - 1])
    && (forall i :: 0 <= i < |s| ==> IsDigit(s[i]) || s[i] == '_')
    && (forall i :: 0 <= i < |s| - 1 ==> s[i] == '_' ==> s[i + 1] != '_')
  }

  /** The value of the digits of `s`, underscores ignored. */
  function DigitsValue(s: string): nat
    decreases |s|
  {
    if |s| == 0 then 0
    else
      var last := s[|s| - 1];
      if IsDigit(last) then 10 * DigitsValue(s[..|s| - 1]) + (last as int - '0' as int)
      else DigitsValue(s[..|s| - 1])
  }

  /** The information separators U+001C to U+001F: `str.isspace()` holds
      for them, yet `int(str)` neither skips them nor reads them as part of a
      number. */
  predicate IsInfoSeparator(c: char) { '\U{1C}' <= c <= '\U{1F}' }

  /** The number of decimal digits in `s`, underscores and signs not
      counted. */
  function DigitCount(s: string): (n: nat)
    ensures n <= |s|
  {
    if |s| == 0 then 0 else (if IsDigit(s[0]) then 1 else 0) + DigitCount(s[1..])
  }

  /** A string of digits only has as many digits as characters. */
  lemma {:induction false} DigitCountOfDigits(s: string)
    requires forall i :: 0 <= i < |s| ==> IsDigit(s[i])
    ensures DigitCount(s) == |s|
  {
    if |s| > 0 {
      DigitCountOfDigits(s[1..]);
    }
  }

  /** The default of `sys.get_int_max_str_digits()`: `int(str)` raises for a
      longer digit part, and `str(int)` for a number with more digits. */
  const MaxStrDigits := 4300

  /** What `int(str)` reads once the whitespace around the number is gone:
      one optional sign, then the digit part of at most `MaxStrDigits`
      digits; anything else raises (`None`). */
  function ParseSigned(t: string): (r: Option<int>)
    ensures t == [] ==> r.None?
    ensures r.Some? && r.value < 0 ==> t[0] == '-'
    ensures DigitCount(t) > MaxStrDigits ==> r.None?
  {
    if DigitCount(t) > MaxStrDigits then None
    else if |t| > 0 && (t[0] == '+' || t[0] == '-') then
      if DigitGroups(t[1..]) then
        var v: int := DigitsValue(t[1..]);
        Some(if t[0] == '-' then -v else v)
      else None
    else if DigitGroups(t) then Some(DigitsValue(t))
    else None
  }

  /** Python's `int(s)` for base 10: surrounding whitespace is ignored, then
      `ParseSigned` reads the rest. A blank string, or one holding an
      information separator anywhere, raises; a negative result comes from
      a leading minus sign. */
  function ParseInt(s: string): (r: Option<int>)
    ensures AllSpace(s) ==> r.None?
    ensures r.Some? ==> forall i :: 0 <= i < |s| ==> !IsInfoSeparator(s[i])
    ensures r.Some? && r.value < 0 ==> Strip(s)[0] == '-'
  {
    if exists i :: 0 <= i < |s| && IsInfoSeparator(s[i]) then None
    else ParseSigned(Strip(s))
  }

  /** The decimal digits of `n` with no leading zero, as `str(n)` writes them. */
  function DecimalString(n: nat): (r: string)
    ensures |r| > 0 && forall i :: 0 <= i < |r| ==> IsDigit(r[i])
    ensures DigitsValue(r) == n
    ensures r[0] == '0' ==> |r| == 1
    ensures n > 0 ==> r[0] != '0'
  {
    var d := [(n % 10 + '0' as int) as char];
    if n < 10 then d
    else
      var r := DecimalString(n / 10) + d;
      assert r[..|r| - 1] == DecimalString(n / 10);
      r
  }

  /** Python's `str(n)`. */
  function IntString(n: int): string {
    if n < 0 then "-" + DecimalString(-n) else DecimalString(n)
  }

  /** `str(n)` does not raise: `n` has at most `MaxStrDigits` digits. */
  predicate PrintableInt(n: int) {
    |DecimalString(if n < 0 then -n else n)| <= MaxStrDigits
  }

  /** The text `str(n)` writes is read back by `ParseSigned` as `n`. */
  lemma ParseSignedIntString(n: int)
    requires PrintableInt(n)
    ensures ParseSigned(IntString(n)) == Some(n)
  {
    var digits := DecimalString(if n < 0 then -n else n);
    assert DigitGroups(digits);
    DigitCountOfDigits(digits);
    if n < 0 {
      assert IntString(n)[1..] == digits;
      assert DigitCount(IntString(n)) == DigitCount(digits);
    }
  }

  /** `str(n)` holds only digits and a minus sign, so `int(str)` finds neither
      whitespace around it nor an information separator in it. */
  lemma IntStringPlain(n: int)
    ensures Strip(IntString(n)) == IntString(n)
    ensures forall i :: 0 <= i < |IntString(n)| ==> !IsInfoSeparator(IntString(n)[i])
  {
    var s := IntString(n);
    var digits := DecimalString(if n < 0 then -n else n);
    forall i | 0 <= i < |s|
      ensures IsDigit(s[i]) || s[i] == '-'
    {
      if n < 0 && i > 0 {
        assert s[i] == digits[i - 1];
      }
    }
    StripUnpadded(s);
  }

  /** `int(str(n)) == n`: the integer printer and the parser are inverse,
      for every integer `str` can print. */
  lemma ParseIntString(n: int)
    requires PrintableInt(n)
    ensures ParseInt(IntString(n)) == Some(n)
  {
    IntStringPlain(n);
    ParseSignedIntString(n);
  }
}
