/**
 * Text operations the dashboard relies on, written with the meaning
 * JavaScript gives them: `parseInt` with no radix (section 19.2.5 of
 * ECMAScript 2024), the decimal rendering of a non-negative integer in a
 * template literal, `String.prototype.split` on a one-character separator,
 * `Array.prototype.join`, and upper-casing of a single character.
 */
module Strings {

  datatype Option<+T> = None | Some(value: T)

  /** White space and line terminators that `parseInt` skips before the number. */
  predicate IsSpace(c: char) {
    c == '\t' || c == '\n' || c == '\U{B}' || c == '\U{C}' || c == '\r' || c == ' '
    || c == '\U{A0}' || c == '\U{1680}' || ('\U{2000}' <= c <= '\U{200A}')
    || c == '\U{2028}' || c == '\U{2029}' || c == '\U{202F}' || c == '\U{205F}'
    || c == '\U{3000}' || c == '\U{FEFF}'
  }

  predicate IsDecimalDigit(c: char) {
    '0' <= c <= '9'
  }

  /** What is left of `s` once its leading white space is dropped. */
  function TrimStart(s: string): (t: string)
    ensures |t| <= |s| && t == s[|s| - |t|..]
    ensures t == [] || !IsSpace(t[0])
    ensures forall i :: 0 <= i < |s| - |t| ==> IsSpace(s[i])
  {
    if s != [] && IsSpace(s[0]) then TrimStart(s[1..]) else s
  }

  /** The value of `c` as a digit of the given radix, if it is one. */
  function DigitValue(c: char, radix: nat): (d: Option<nat>)
    requires radix == 10 || radix == 16
    ensures d.Some? ==> d.value < radix
    ensures radix == 10 ==> (d.Some? <==> IsDecimalDigit(c))
  {
    if '0' <= c <= '9' then Some(c as nat - '0' as nat)
    else if radix == 16 && 'a' <= c <= 'f' then Some(c as nat - 'a' as nat + 10)
    else if radix == 16 && 'A' <= c <= 'F' then Some(c as nat - 'A' as nat + 10)
    else None
  }

  predicate AllDigits(z: string, radix: nat)
    requires radix == 10 || radix == 16
  {
    forall i :: 0 <= i < |z| ==> DigitValue(z[i], radix).Some?
  }

  /** The longest prefix of `s` made of digits of the radix. */
  function DigitRun(s: string, radix: nat): (z: string)
    requires radix == 10 || radix == 16
    ensures |z| <= |s| && z == s[..|z|]
    ensures AllDigits(z, radix)
    ensures |z| < |s| ==> DigitValue(s[|z|], radix).None?
  {
    if s != [] && DigitValue(s[0], radix).Some? then [s[0]] + DigitRun(s[1..], radix) else []
  }

  /** The number a run of digits denotes, most significant digit first. */
  function Value(z: string, radix: nat): nat
    requires radix == 10 || radix == 16
    requires AllDigits(z, radix)
  {
    if z == [] then 0 else Value(z[..|z| - 1], radix) * radix + DigitValue(z[|z| - 1], radix).value
  }

  /**
   * `parseInt(s)` with no radix: skip leading white space, read an optional
   * sign, then the unsigned number that follows. `None` stands for NaN.
   */
  function ParseInt(s: string): Option<int> {
    ParseSigned(TrimStart(s))
  }

  /** The sign step of `parseInt`, on a text that starts after the white space. */
  function ParseSigned(t: string): Option<int> {
    if t != [] && t[0] == '-' then
      match ParseUnsigned(t[1..])
      case None => None
      case Some(v) => Some(-v)
    else if t != [] && t[0] == '+' then ParseUnsigned(t[1..])
    else ParseUnsigned(t)
  }

  /**
   * The unsigned part of `parseInt`: radix 16 after a `0x`/`0X` prefix,
   * radix 10 otherwise, and the longest run of digits that follows.
   * `None` when that run is empty.
   */
  function ParseUnsigned(u: string): Option<int> {
    var hex := |u| >= 2 && u[0] == '0' && (u[1] == 'x' || u[1] == 'X');
    var radix := if hex then 16 else 10;
    var z := DigitRun(if hex then u[2..] else u, radix);
    if z == [] then None else Some(Value(z, radix))
  }

  /** The decimal numeral of `n`, as `${n}` renders it. */
  function Decimal(n: nat): (s: string)
    ensures |s| >= 1
    ensures forall i :: 0 <= i < |s| ==> IsDecimalDigit(s[i])
    ensures n > 0 ==> s[0] != '0'
  {
    if n < 10 then [('0' as int + n) as char]
    else Decimal(n / 10) + [('0' as int + n % 10) as char]
  }

  /** A decimal numeral denotes the number it was rendered from. */
  lemma {:induction false} DecimalValue(n: nat)
    ensures AllDigits(Decimal(n), 10) && Value(Decimal(n), 10) == n
  {
    var s := Decimal(n);
    if n >= 10 {
      DecimalValue(n / 10);
      assert s[..|s| - 1] == Decimal(n / 10);
    } else {
      assert s[..|s| - 1] == [];
    }
  }

  /** Decimal rendering never maps two numbers to one numeral. */
  lemma DecimalInjective(m: nat, n: nat)
    requires Decimal(m) == Decimal(n)
    ensures m == n
  {
    DecimalValue(m);
    DecimalValue(n);
  }

  /** The digit run stops exactly where the digits stop. */
  lemma {:induction false} DigitRunOfDigits(a: string, b: string)
    requires AllDigits(a, 10)
    requires b == [] || !IsDecimalDigit(b[0])
    ensures DigitRun(a + b, 10) == a
  {
    if a != [] {
      assert (a + b)[1..] == a[1..] + b;
      DigitRunOfDigits(a[1..], b);
    } else {
      assert a + b == b;
    }
  }

  /**
   * `parseInt` reads back the numeral of `n` and ignores whatever follows
   * it, as long as the next character is not a digit (and, after a lone
   * `0`, not the `x` of a hexadecimal prefix): "12" and "12abc" give 12,
   * "1.5" and "1e3" give 1.
   */
  lemma ParseIntOfNumeral(n: nat, tail: string)
    requires tail == [] || !IsDecimalDigit(tail[0])
    requires n == 0 && tail != [] ==> tail[0] != 'x' && tail[0] != 'X'
    ensures ParseInt(Decimal(n) + tail) == Some(n)
  {
    var s := Decimal(n) + tail;
    assert s[0] == Decimal(n)[0];
    ParseIntAtDigit(s);
    ParseUnsignedOfNumeral(n, tail);
  }

  /** A text that starts with a digit has no white space or sign to skip. */
  lemma ParseIntAtDigit(s: string)
    requires s != [] && IsDecimalDigit(s[0])
    ensures ParseInt(s) == ParseUnsigned(s)
  {
    assert !IsSpace(s[0]);
    assert TrimStart(s) == s;
  }

  lemma ParseUnsignedOfNumeral(n: nat, tail: string)
    requires tail == [] || !IsDecimalDigit(tail[0])
    requires n == 0 && tail != [] ==> tail[0] != 'x' && tail[0] != 'X'
    ensures ParseUnsigned(Decimal(n) + tail) == Some(n)
  {
    var s := Decimal(n) + tail;
    assert s[0] == Decimal(n)[0];
    if n == 0 {
      assert Decimal(0) == "0";
      assert |s| >= 2 ==> s[1] == tail[0];
    }
    DigitRunOfDigits(Decimal(n), tail);
    DecimalValue(n);
  }

  /** After `0x` `parseInt` reads the hexadecimal digit run that follows. */
  lemma ParseIntOfHex(z: string)
    requires z != [] && DigitRun(z, 16) == z
    ensures ParseInt("0x" + z) == Some(Value(z, 16))
  {
    var s := "0x" + z;
    assert s[0] == '0' && s[1] == 'x' && s[2..] == z;
    ParseIntAtDigit(s);
  }

  /** A leading minus sign negates the number read. */
  lemma ParseIntOfNegativeNumeral(n: nat, tail: string)
    requires tail == [] || !IsDecimalDigit(tail[0])
    requires n == 0 && tail != [] ==> tail[0] != 'x' && tail[0] != 'X'
    ensures ParseInt("-" + Decimal(n) + tail) == Some(-(n as int))
  {
    ParseUnsignedOfNumeral(n, tail);
    ParseIntNegated(Decimal(n), tail, n);
  }

  lemma ParseIntNegated(d: string, tail: string, v: int)
    requires ParseUnsigned(d + tail) == Some(v)
    ensures ParseInt("-" + d + tail) == Some(-v)
  {
    var u := d + tail;
    ParseIntAtMinus(u, v);
    assert "-" + d + tail == ['-'] + u;
  }

  /** After a minus sign `parseInt` reads the unsigned number that follows and negates it. */
  lemma ParseIntAtMinus(u: string, v: int)
    requires ParseUnsigned(u) == Some(v)
    ensures ParseInt(['-'] + u) == Some(-v)
  {
    var s := ['-'] + u;
    assert s[0] == '-' && !IsSpace(s[0]);
    assert TrimStart(s) == s;
    assert s[1..] == u;
  }

  /** Leading white space does not change what `parseInt` reads. */
  lemma {:induction false} ParseIntSkipsSpace(w: string, s: string)
    requires forall i :: 0 <= i < |w| ==> IsSpace(w[i])
    ensures ParseInt(w + s) == ParseInt(s)
  {
    TrimStartSkipsSpace(w, s);
  }

  lemma {:induction false} TrimStartSkipsSpace(w: string, s: string)
    requires forall i :: 0 <= i < |w| ==> IsSpace(w[i])
    ensures TrimStart(w + s) == TrimStart(s)
  {
    if w != [] {
      assert (w + s)[1..] == w[1..] + s;
      TrimStartSkipsSpace(w[1..], s);
    } else {
      assert w + s == s;
    }
  }

  /** A text without any decimal digit is not a number: `parseInt` gives NaN. */
  lemma ParseIntWithoutDigits(s: string)
    requires forall i :: 0 <= i < |s| ==> !IsDecimalDigit(s[i])
    ensures ParseInt(s) == None
  {
    var t := TrimStart(s);
    assert forall i :: 0 <= i < |t| ==> t[i] == s[|s| - |t| + i];
    if t != [] && (t[0] == '-' || t[0] == '+') {
      ParseUnsignedWithoutDigits(t[1..]);
    } else {
      ParseUnsignedWithoutDigits(t);
    }
  }

  lemma ParseUnsignedWithoutDigits(u: string)
    requires forall i :: 0 <= i < |u| ==> !IsDecimalDigit(u[i])
    ensures ParseUnsigned(u) == None
  {
  }

  /** Upper-cases a letter of the basic Latin alphabet; other characters are kept. */
  function Upper(c: char): (u: char)
    ensures 'a' <= c <= 'z' ==> 'A' <= u <= 'Z'
    ensures !('a' <= c <= 'z') ==> u == c
  {
    if 'a' <= c <= 'z' then (c as int - 32) as char else c
  }

  /**
   * `s.split(sep)`: the pieces between the separators, in order. There is
   * always at least one piece, and an empty text gives one empty piece.
   */
  function Split(s: string, sep: char): (parts: seq<string>)
    ensures |parts| >= 1
    ensures forall k :: 0 <= k < |parts| ==> sep !in parts[k]
  {
    if s == [] then [[]]
    else
      var rest := Split(s[1..], sep);
      if s[0] == sep then [[]] + rest else [[s[0]] + rest[0]] + rest[1..]
  }

  /** `parts.join(sep)`. */
  function Join(parts: seq<string>, sep: string): string {
    if |parts| == 0 then []
    else if |parts| == 1 then parts[0]
    else parts[0] + sep + Join(parts[1..], sep)
  }

  /** Joining keeps a first character of the first piece in front. */
  lemma JoinCons(c: char, first: string, rest: seq<string>, sep: string)
    ensures Join([[c] + first] + rest, sep) == [c] + Join([first] + rest, sep)
  {
    assert ([[c] + first] + rest)[1..] == rest;
    assert ([first] + rest)[1..] == rest;
  }

  /** Joining the pieces of a split with the same separator gives the text back. */
  lemma {:induction false} JoinSplit(s: string, sep: char)
    ensures Join(Split(s, sep), [sep]) == s
  {
    if s != [] {
      var rest := Split(s[1..], sep);
      JoinSplit(s[1..], sep);
      if s[0] == sep {
        assert ([[]] + rest)[1..] == rest;
      } else {
        assert [rest[0]] + rest[1..] == rest;
        JoinCons(s[0], rest[0], rest[1..], [sep]);
      }
    }
  }

  /** `w.charAt(0).toUpperCase() + w.slice(1)`. */
  function Capitalize(w: string): (r: string)
    ensures |r| == |w|
  {
    if w == [] then [] else [Upper(w[0])] + w[1..]
  }

  /** `ws.map(Capitalize)`. */
  function CapitalizeAll(ws: seq<string>): (rs: seq<string>)
    ensures |rs| == |ws|
    ensures forall k :: 0 <= k < |ws| ==> rs[k] == Capitalize(ws[k])
  {
    if ws == [] then [] else [Capitalize(ws[0])] + CapitalizeAll(ws[1..])
  }
}
