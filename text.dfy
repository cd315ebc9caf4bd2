/** The JavaScript string operations the editor and the console rely on:
    `trim`, `split` on one character, `join`, `toLowerCase` and `parseInt`
    (no radix argument), stated over strings as sequences of characters. */
module Text {
  import opened CvTypes

  /** The characters `String.prototype.trim` strips: the ECMAScript
      WhiteSpace (tab, vertical tab, form feed, the byte order mark and
      every space separator) and LineTerminator code points. */
  predicate IsWhitespace(c: char) {
    var n := c as int;
    n == 0x09 || n == 0x0B || n == 0x0C || n == 0x20 || n == 0xA0 || n == 0xFEFF
    || n == 0x1680 || (0x2000 <= n <= 0x200A) || n == 0x202F || n == 0x205F || n == 0x3000
    || n == 0x0A || n == 0x0D || n == 0x2028 || n == 0x2029
  }

  /** Drops the leading whitespace; what is dropped is all whitespace and
      what is left does not start with whitespace. */
  function TrimStart(s: string): (r: string)
    ensures |r| <= |s| && r == s[|s| - |r|..]
    ensures forall j :: 0 <= j < |s| - |r| ==> IsWhitespace(s[j])
    ensures r == [] || !IsWhitespace(r[0])
  {
    if s != [] && IsWhitespace(s[0]) then TrimStart(s[1..]) else s
  }

  /** Drops the trailing whitespace. */
  function TrimEnd(s: string): (r: string)
    ensures |r| <= |s| && r == s[..|r|]
    ensures forall j :: |r| <= j < |s| ==> IsWhitespace(s[j])
    ensures r == [] || !IsWhitespace(r[|r| - 1])
  {
    if s != [] && IsWhitespace(s[|s| - 1]) then TrimEnd(s[..|s| - 1]) else s
  }

  /** `trim`: the result neither starts nor ends with whitespace, and it is
      the part of `s` between a whitespace prefix and a whitespace suffix. */
  function Trim(s: string): (r: string)
    ensures r == [] || (!IsWhitespace(r[0]) && !IsWhitespace(r[|r| - 1]))
    ensures |TrimStart(s)| >= |r| && r == s[|s| - |TrimStart(s)|..][..|r|]
  {
    TrimEnd(TrimStart(s))
  }

  /** A string with no whitespace at either end is left alone by `trim`. */
  lemma TrimUnchanged(s: string)
    requires s == [] || (!IsWhitespace(s[0]) && !IsWhitespace(s[|s| - 1]))
    ensures Trim(s) == s
  {
    assert TrimStart(s) == s;
  }

  /** Trimming twice is trimming once. */
  lemma TrimIdempotent(s: string)
    ensures Trim(Trim(s)) == Trim(s)
  {
    TrimUnchanged(Trim(s));
  }

  /** A leading space makes no difference to `trim`. */
  lemma TrimLeadingSpace(s: string)
    ensures Trim(" " + s) == Trim(s)
  {
    TrimStartSpace(s);
    assert Trim(" " + s) == TrimEnd(TrimStart(" " + s));
  }

  lemma TrimStartSpace(s: string)
    ensures TrimStart(" " + s) == TrimStart(s)
  {
    var t := " " + s;
    assert t != [] && IsWhitespace(t[0]);
    assert t[1..] == s;
  }

  /** `split` on a single separator character: one piece more than there
      are separators, and no piece holds a separator. */
  function Split(s: string, sep: char): (r: seq<string>)
    ensures |r| == multiset(s)[sep] + 1
    ensures forall i :: 0 <= i < |r| ==> sep !in r[i]
  {
    if s == [] then [""]
    else
      var rest := Split(s[1..], sep);
      assert s == [s[0]] + s[1..];
      if s[0] == sep then [""] + rest
      else [[s[0]] + rest[0]] + rest[1..]
  }

  /** `join`: the pieces with `sep` between consecutive ones. */
  function Join(xs: seq<string>, sep: string): (r: string)
    ensures |xs| == 1 ==> r == xs[0]
  {
    if |xs| == 0 then ""
    else if |xs| == 1 then xs[0]
    else xs[0] + sep + Join(xs[1..], sep)
  }

  /** Splitting and joining back with the same separator gives the input. */
  lemma {:induction false} JoinSplit(s: string, sep: char)
    ensures Join(Split(s, sep), [sep]) == s
  {
    if s != [] {
      JoinSplit(s[1..], sep);
      var rest := Split(s[1..], sep);
      if s[0] == sep {
        JoinCons("", rest, [sep]);
      } else {
        JoinExtendFirst(s[0], rest, [sep]);
      }
      HeadTail(s);
    }
  }

  lemma JoinCons(x: string, xs: seq<string>, sep: string)
    requires |xs| >= 1
    ensures Join([x] + xs, sep) == x + sep + Join(xs, sep)
  {
    assert ([x] + xs)[1..] == xs;
  }

  /** Putting a character in front of the first piece puts it in front of
      the joined text. */
  lemma JoinExtendFirst(c: char, xs: seq<string>, sep: string)
    requires |xs| >= 1
    ensures Join([[c] + xs[0]] + xs[1..], sep) == [c] + Join(xs, sep)
  {
    if |xs| >= 2 {
      JoinCons([c] + xs[0], xs[1..], sep);
      JoinCons(xs[0], xs[1..], sep);
      HeadTail(xs);
    }
  }

  /** A string without the separator splits into itself alone. */
  lemma {:induction false} SplitNoSeparator(s: string, sep: char)
    requires sep !in s
    ensures Split(s, sep) == [s]
  {
    if s != [] {
      assert sep !in s[1..];
      SplitNoSeparator(s[1..], sep);
      assert s == [s[0]] + s[1..];
    }
  }

  /** A separator-free piece followed by the separator splits off as the
      first piece. */
  lemma {:induction false} SplitAfterPiece(x: string, sep: char, t: string)
    requires sep !in x
    ensures Split(x + [sep] + t, sep) == [x] + Split(t, sep)
  {
    if x != [] {
      var tail := x[1..] + [sep] + t;
      assert x + [sep] + t == [x[0]] + tail;
      SplitOther(x[0], tail, sep);
      assert sep !in x[1..];
      SplitAfterPiece(x[1..], sep, t);
      assert ([x[1..]] + Split(t, sep))[1..] == Split(t, sep);
      HeadTail(x);
    } else {
      assert ([sep] + t)[1..] == t;
    }
  }

  /** A character other than the separator joins the first piece. */
  lemma SplitOther(c: char, t: string, sep: char)
    requires c != sep
    ensures Split([c] + t, sep) == [[c] + Split(t, sep)[0]] + Split(t, sep)[1..]
  {
    assert ([c] + t)[1..] == t;
  }

  /** Joining separator-free pieces and splitting again gives the pieces. */
  lemma {:induction false} SplitJoin(xs: seq<string>, sep: char)
    requires |xs| >= 1
    requires forall i :: 0 <= i < |xs| ==> sep !in xs[i]
    ensures Split(Join(xs, [sep]), sep) == xs
  {
    if |xs| == 1 {
      SplitNoSeparator(xs[0], sep);
    } else {
      SplitJoin(xs[1..], sep);
      SplitAfterPiece(xs[0], sep, Join(xs[1..], [sep]));
    }
  }

  /** Every piece trimmed, as `pieces.map(p => p.trim())` does. */
  function TrimAll(xs: seq<string>): (r: seq<string>)
    ensures |r| == |xs|
    ensures forall i :: 0 <= i < |xs| ==> r[i] == Trim(xs[i])
  {
    if xs == [] then [] else [Trim(xs[0])] + TrimAll(xs[1..])
  }

  /** `value.split(',').map(p => p.trim())`, the comma-separated list
      editor. */
  function CommaList(s: string): seq<string> {
    TrimAll(Split(s, ','))
  }

  /** The comma-separated list editor stores one entry more than there are
      commas; no entry holds a comma or has whitespace at either end. */
  lemma CommaListShape(s: string)
    ensures |CommaList(s)| == multiset(s)[','] + 1
    ensures forall i :: 0 <= i < |CommaList(s)| ==> ',' !in CommaList(s)[i] && Trim(CommaList(s)[i]) == CommaList(s)[i]
  {
    TrimmedPieces(Split(s, ','));
  }

  /** Trimming every piece keeps comma-free pieces comma-free and leaves
      them trimmed. */
  lemma TrimmedPieces(pieces: seq<string>)
    requires forall i :: 0 <= i < |pieces| ==> ',' !in pieces[i]
    ensures forall i :: 0 <= i < |pieces| ==> ',' !in TrimAll(pieces)[i] && Trim(TrimAll(pieces)[i]) == TrimAll(pieces)[i]
  {
    var r := TrimAll(pieces);
    forall i | 0 <= i < |r|
      ensures ',' !in r[i] && Trim(r[i]) == r[i]
    {
      TrimmedPiece(pieces[i]);
    }
  }

  /** Trimming keeps a comma-free piece comma-free and leaves it trimmed. */
  lemma TrimmedPiece(p: string)
    requires ',' !in p
    ensures ',' !in Trim(p) && Trim(Trim(p)) == Trim(p)
  {
    TrimIdempotent(p);
    var t := TrimStart(p);
    var u := p[|p| - |t|..];
    assert forall c :: c in u ==> c in p;
    assert forall c :: c in u[..|Trim(p)|] ==> c in u;
  }

  lemma TrimAllLeadingSpace(t: string)
    ensures TrimAll(Split(" " + t, ',')) == TrimAll(Split(t, ','))
  {
    var a, b := Split(" " + t, ','), Split(t, ',');
    assert (" " + t)[1..] == t;
    assert a == [" " + b[0]] + b[1..];
    TrimLeadingSpace(b[0]);
  }

  lemma TrimAllCons(x: string, xs: seq<string>)
    ensures TrimAll([x] + xs) == [Trim(x)] + TrimAll(xs)
  {
    assert ([x] + xs)[1..] == xs;
  }

  lemma SplitJoinedFirst(xs: seq<string>)
    requires |xs| >= 2 && ',' !in xs[0]
    ensures Split(Join(xs, ", "), ',') == [xs[0]] + Split(" " + Join(xs[1..], ", "), ',')
  {
    var t := Join(xs[1..], ", ");
    assert Join(xs, ", ") == xs[0] + ", " + t;
    CommaSpace(xs[0], t);
    SplitAfterPiece(xs[0], ',', " " + t);
  }

  lemma CommaSpace(a: string, t: string)
    ensures a + ", " + t == a + [','] + (" " + t)
  {
    assert ", " == [','] + " ";
  }

  lemma TrimAllAfterFirst(x: string, t: string)
    requires Trim(x) == x
    ensures TrimAll([x] + Split(" " + t, ',')) == [x] + TrimAll(Split(t, ','))
  {
    TrimAllCons(x, Split(" " + t, ','));
    TrimAllLeadingSpace(t);
  }

  /** The list editors show a list as `join(', ')` and read it back with
      `CommaList`: for entries without commas or surrounding whitespace,
      reading back the shown text gives the same list. */
  lemma {:induction false} CommaListJoin(xs: seq<string>)
    requires |xs| >= 1
    requires forall i :: 0 <= i < |xs| ==> ',' !in xs[i] && Trim(xs[i]) == xs[i]
    ensures CommaList(Join(xs, ", ")) == xs
  {
    if |xs| == 1 {
      CommaListSingle(xs);
    } else {
      CleanTail(xs);
      CommaListJoin(xs[1..]);
      CommaListJoinStep(xs);
    }
  }

  lemma CommaListSingle(xs: seq<string>)
    requires |xs| == 1 && ',' !in xs[0] && Trim(xs[0]) == xs[0]
    ensures CommaList(Join(xs, ", ")) == xs
  {
    SplitNoSeparator(xs[0], ',');
    assert TrimAll([xs[0]]) == [Trim(xs[0])];
  }

  lemma CleanTail(xs: seq<string>)
    requires |xs| >= 1
    requires forall i :: 0 <= i < |xs| ==> ',' !in xs[i] && Trim(xs[i]) == xs[i]
    ensures forall i :: 0 <= i < |xs| - 1 ==> ',' !in xs[1..][i] && Trim(xs[1..][i]) == xs[1..][i]
  {
    forall i | 0 <= i < |xs| - 1
      ensures ',' !in xs[1..][i] && Trim(xs[1..][i]) == xs[1..][i]
    {
      assert xs[1..][i] == xs[i + 1];
    }
  }

  lemma CommaListJoinStep(xs: seq<string>)
    requires |xs| >= 2 && ',' !in xs[0] && Trim(xs[0]) == xs[0]
    requires CommaList(Join(xs[1..], ", ")) == xs[1..]
    ensures CommaList(Join(xs, ", ")) == xs
  {
    var t := Join(xs[1..], ", ");
    SplitJoinedFirst(xs);
    TrimAllAfterFirst(xs[0], t);
    calc {
      CommaList(Join(xs, ", "));
      TrimAll(Split(Join(xs, ", "), ','));
      TrimAll([xs[0]] + Split(" " + t, ','));
      [xs[0]] + TrimAll(Split(t, ','));
      [xs[0]] + xs[1..];
      { HeadTail(xs); }
      xs;
    }
  }

  lemma HeadTail<T>(xs: seq<T>)
    requires xs != []
    ensures [xs[0]] + xs[1..] == xs
  {
  }

  /** `toLowerCase` on one character: the ASCII capitals and the Kelvin
      sign, which lower-cases to the letter k. */
  function LowerChar(c: char): (r: char)
    ensures 'A' <= c <= 'Z' ==> 'a' <= r <= 'z' && r as int - c as int == 32
  {
    if 'A' <= c <= 'Z' then (c as int + 32) as char
    else if c as int == 0x212A then 'k'
    else c
  }

  function ToLower(s: string): (r: string)
    ensures |r| == |s|
    ensures forall i :: 0 <= i < |s| ==> r[i] == LowerChar(s[i])
  {
    if s == [] then [] else [LowerChar(s[0])] + ToLower(s[1..])
  }

  /** The value of a digit character in base 16, or -1 when it is none. */
  function DigitValue(c: char): (d: int)
    ensures -1 <= d < 16
    ensures '0' <= c <= '9' ==> d == c as int - '0' as int
  {
    if '0' <= c <= '9' then c as int - '0' as int
    else if 'a' <= c <= 'f' then c as int - 'a' as int + 10
    else if 'A' <= c <= 'F' then c as int - 'A' as int + 10
    else -1
  }

  predicate IsDigit(c: char, radix: nat) {
    0 <= DigitValue(c) < radix
  }

  /** The longest prefix made of digits of the given radix. */
  function DigitPrefix(s: string, radix: nat): (r: string)
    ensures |r| <= |s| && r == s[..|r|]
    ensures forall i :: 0 <= i < |r| ==> IsDigit(r[i], radix)
    ensures |r| < |s| ==> !IsDigit(s[|r|], radix)
  {
    if s != [] && IsDigit(s[0], radix) then [s[0]] + DigitPrefix(s[1..], radix) else []
  }

  /** The number a digit string denotes, most significant digit first. */
  function DigitsValue(z: string, radix: nat): int
    requires forall i :: 0 <= i < |z| ==> IsDigit(z[i], radix)
  {
    if z == [] then 0
    else
      var init := z[..|z| - 1];
      var last := z[|z| - 1];
      assert IsDigit(last, radix);
      assert forall i :: 0 <= i < |init| ==> init[i] == z[i];
      DigitsValue(init, radix) * radix + DigitValue(last)
  }

  /** `parseInt(s)` without a radix: leading whitespace is skipped, then an
      optional sign, then an optional `0x`/`0X` prefix that selects base 16;
      the longest run of digits that follows is the value. No digit at all
      is NaN, written `None`. */
  function ParseInt(s: string): (r: Option<int>)
    ensures r.None? <==> DigitPrefix(IntegerBody(s), IntegerRadix(s)) == []
  {
    var z := DigitPrefix(IntegerBody(s), IntegerRadix(s));
    if z == [] then None
    else
      var v := DigitsValue(z, IntegerRadix(s));
      Some(if IsNegative(s) then -v else v)
  }

  /** Whether the first character after the leading whitespace is a minus. */
  predicate IsNegative(s: string) {
    var t := TrimStart(s);
    |t| > 0 && t[0] == '-'
  }

  /** What `parseInt` reads after the whitespace and the sign. */
  function Unsigned(s: string): string {
    var t := TrimStart(s);
    if |t| > 0 && (t[0] == '-' || t[0] == '+') then t[1..] else t
  }

  predicate HasHexPrefix(u: string) {
    |u| >= 2 && u[0] == '0' && (u[1] == 'x' || u[1] == 'X')
  }

  function IntegerRadix(s: string): nat {
    if HasHexPrefix(Unsigned(s)) then 16 else 10
  }

  function IntegerBody(s: string): string {
    var u := Unsigned(s);
    if HasHexPrefix(u) then u[2..] else u
  }

  function DigitChar(d: nat): (c: char)
    requires d < 10
    ensures IsDigit(c, 10) && DigitValue(c) == d
  {
    ('0' as int + d) as char
  }

  /** The decimal numeral of a natural number, without leading zeros. */
  function NatToString(n: nat): (r: string)
    ensures |r| >= 1
    ensures forall i :: 0 <= i < |r| ==> IsDigit(r[i], 10)
  {
    if n < 10 then [DigitChar(n)] else NatToString(n / 10) + [DigitChar(n % 10)]
  }

  /** The decimal numeral of an integer, as JavaScript prints one whose
      magnitude is below 10^21 (larger ones it prints in exponent form). */
  function IntToString(n: int): (r: string)
    ensures |r| >= 1
  {
    if n < 0 then "-" + NatToString(-n) else NatToString(n)
  }

  lemma {:induction false} NatToStringValue(n: nat)
    ensures DigitsValue(NatToString(n), 10) == n
  {
    if n >= 10 {
      NatToStringValue(n / 10);
      var z := NatToString(n);
      assert z[..|z| - 1] == NatToString(n / 10);
    }
  }

  lemma AllDigitsIsOwnPrefix(z: string, radix: nat)
    requires forall i :: 0 <= i < |z| ==> IsDigit(z[i], radix)
    ensures DigitPrefix(z, radix) == z
  {
    var p := DigitPrefix(z, radix);
    if |p| < |z| {
      assert false;
    }
  }

  lemma DecimalDigitIsNotSpace(c: char)
    requires IsDigit(c, 10)
    ensures '0' <= c <= '9' && !IsWhitespace(c) && c != 'x' && c != 'X'
  {
  }

  lemma UnsignedOfNumeral(digits: string)
    requires |digits| >= 1 && '0' <= digits[0] <= '9'
    ensures Unsigned("-" + digits) == digits && Unsigned(digits) == digits
    ensures TrimStart("-" + digits) == "-" + digits && TrimStart(digits) == digits
  {
    var s := "-" + digits;
    assert s[0] == '-' && !IsWhitespace(s[0]);
    assert TrimStart(s) == s;
    assert s[1..] == digits;
    assert !IsWhitespace(digits[0]);
    assert TrimStart(digits) == digits;
  }

  /** A decimal numeral, with or without a minus sign, parses to its signed
      value. */
  lemma ParseIntOfNumeral(negative: bool, digits: string)
    requires digits != [] && forall i :: 0 <= i < |digits| ==> IsDigit(digits[i], 10)
    ensures ParseInt(Numeral(negative, digits)) == Some(if negative then -DigitsValue(digits, 10) else DigitsValue(digits, 10))
  {
    NumeralParts(negative, digits);
    ParseIntDigits(Numeral(negative, digits), digits, negative);
  }

  /** The text of a signed numeral. */
  function Numeral(negative: bool, digits: string): string {
    if negative then "-" + digits else digits
  }

  /** How `parseInt` sees a numeral: decimal, all of its digits, and its
      sign. */
  lemma NumeralParts(negative: bool, digits: string)
    requires digits != [] && forall i :: 0 <= i < |digits| ==> IsDigit(digits[i], 10)
    ensures IntegerRadix(Numeral(negative, digits)) == 10
    ensures DigitPrefix(IntegerBody(Numeral(negative, digits)), 10) == digits
    ensures IsNegative(Numeral(negative, digits)) == negative
  {
    DecimalDigitIsNotSpace(digits[0]);
    UnsignedOfNumeral(digits);
    assert !HasHexPrefix(digits) by {
      if |digits| >= 2 { DecimalDigitIsNotSpace(digits[1]); }
    }
    DecimalBody(Numeral(negative, digits), digits);
    AllDigitsIsOwnPrefix(digits, 10);
  }

  /** `parseInt` once its radix, digits and sign are known. */
  lemma ParseIntDigits(s: string, z: string, negative: bool)
    requires z != [] && IntegerRadix(s) == 10 && DigitPrefix(IntegerBody(s), 10) == z
    requires IsNegative(s) == negative
    ensures ParseInt(s) == Some(if negative then -DigitsValue(z, 10) else DigitsValue(z, 10))
  {
  }

  lemma DecimalBody(s: string, digits: string)
    requires Unsigned(s) == digits && !HasHexPrefix(digits)
    ensures IntegerRadix(s) == 10 && IntegerBody(s) == digits
  {
  }

  /** `parseInt` reads back every integer's decimal numeral. */
  lemma ParseIntRoundTrip(n: int)
    ensures ParseInt(IntToString(n)) == Some(n)
  {
    var m: nat := if n < 0 then -n else n;
    assert IntToString(n) == Numeral(n < 0, NatToString(m));
    ParseIntOfNumeral(n < 0, NatToString(m));
    NatToStringValue(m);
  }
}
