/**
 * The few pieces of JavaScript's string and number behaviour that the keyboard
 * script relies on: `Number(str)`, `n.toString(radix)` for integers,
 * `str.split(sep)`, `str.padStart(len, fill)` and `str.toUpperCase()` on ASCII and the dotless i.
 */
module JsText {

  /** A JavaScript number as the script uses it: an integer or NaN. */
  datatype JsNumber = Finite(value: int) | NaN

  /** The digit character for `d` in radices up to 16 (lower-case, as `toString` writes it). */
  function DigitChar(d: nat): (c: char)
    requires d < 16
    ensures DigitValue(c) == d
  {
    if d < 10 then ('0' as int + d) as char else ('a' as int + d - 10) as char
  }

  /** The value of a digit character, or -1 when `c` is not one. */
  function DigitValue(c: char): (v: int)
    ensures -1 <= v < 16
  {
    if '0' <= c <= '9' then c as int - '0' as int
    else if 'a' <= c <= 'f' then c as int - 'a' as int + 10
    else -1
  }

  predicate AllDigits(s: string, radix: nat) {
    forall i :: 0 <= i < |s| ==> 0 <= DigitValue(s[i]) < radix
  }

  /** The shortest digit string of `n` in `radix` (no leading zeros). */
  function ToRadix(n: nat, radix: nat): (s: string)
    requires 2 <= radix <= 16
    ensures |s| >= 1 && AllDigits(s, radix)
    decreases n
  {
    if n < radix then [DigitChar(n)]
    else
      DivMod(n, radix);
      ToRadix(n / radix, radix) + [DigitChar(n % radix)]
  }

  /** The value of a digit string, most significant digit first; "" reads as 0. */
  function FromRadix(s: string, radix: nat): nat
    requires 2 <= radix <= 16
    requires AllDigits(s, radix)
  {
    if s == [] then 0
    else FromRadix(s[..|s| - 1], radix) * radix + DigitValue(s[|s| - 1])
  }

  lemma {:induction false} RadixRoundTrip(n: nat, radix: nat)
    requires 2 <= radix <= 16
    ensures FromRadix(ToRadix(n, radix), radix) == n
    decreases n
  {
    if n >= radix {
      var q, d := n / radix, n % radix;
      assert q < n && 0 <= d < radix && n == q * radix + d by { DivMod(n, radix); }
      var t := ToRadix(q, radix);
      assert ToRadix(n, radix) == t + [DigitChar(d)];
      assert FromRadix(t, radix) == q by { RadixRoundTrip(q, radix); }
      FromRadixSnoc(t, DigitChar(d), radix);
    }
  }

  lemma DivMod(n: nat, radix: nat)
    requires 2 <= radix
    ensures n == (n / radix) * radix + n % radix && 0 <= n % radix < radix
    ensures n >= radix ==> n / radix < n
  {
  }

  lemma FromRadixSnoc(t: string, c: char, radix: nat)
    requires 2 <= radix <= 16
    requires AllDigits(t, radix) && 0 <= DigitValue(c) < radix
    ensures FromRadix(t + [c], radix) == FromRadix(t, radix) * radix + DigitValue(c)
  {
    assert (t + [c])[..|t|] == t;
  }

  /** `ToRadix` writes one digit exactly for the values below the radix, two for those below its square. */
  lemma {:induction false} RadixLength(n: nat, radix: nat)
    requires 2 <= radix <= 16
    ensures |ToRadix(n, radix)| == 1 <==> n < radix
    ensures |ToRadix(n, radix)| == 2 <==> radix <= n < radix * radix
  {
    if n >= radix {
      var q := n / radix;
      DivMod(n, radix);
      RadixLength(q, radix);
      assert |ToRadix(n, radix)| == |ToRadix(q, radix)| + 1;
      QuotientBelowRadix(n, radix);
    }
  }

  lemma QuotientBelowRadix(n: nat, radix: nat)
    requires 2 <= radix
    ensures n / radix < radix <==> n < radix * radix
  {
    var q, d := n / radix, n % radix;
    DivMod(n, radix);
    if q < radix {
      MulMonotone(q, radix - 1, radix);
      assert (radix - 1) * radix == radix * radix - radix;
    } else {
      MulMonotone(radix, q, radix);
    }
  }

  lemma MulMonotone(a: int, b: int, c: nat)
    requires a <= b
    ensures a * c <= b * c
  {
    assert b * c - a * c == (b - a) * c;
  }

  /** `x.toString(radix)` for an integer or NaN. */
  function NumberToString(x: JsNumber, radix: nat): string
    requires 2 <= radix <= 16
  {
    match x
    case NaN => "NaN"
    case Finite(n) => if n < 0 then "-" + ToRadix(-n, radix) else ToRadix(n, radix)
  }

  /**
   * `Number(s)` on the strings the script can meet: "" is 0, an optional sign
   * followed by decimal digits is that integer, anything else is NaN.
   */
  function ToNumber(s: string): JsNumber {
    if s == [] then Finite(0)
    else if AllDigits(s, 10) then Finite(FromRadix(s, 10))
    else if |s| > 1 && s[0] == '-' && AllDigits(s[1..], 10) then Finite(-(FromRadix(s[1..], 10) as int))
    else if |s| > 1 && s[0] == '+' && AllDigits(s[1..], 10) then Finite(FromRadix(s[1..], 10))
    else NaN
  }

  /** `Number` reads back every integer that `toString(10)` writes. */
  lemma DecimalRoundTrip(n: int)
    ensures ToNumber(NumberToString(Finite(n), 10)) == Finite(n)
  {
    if n < 0 {
      NegativeDecimal(-n);
    } else {
      RadixRoundTrip(n, 10);
    }
  }

  /** A minus sign followed by the digits of m reads back as -m. */
  lemma NegativeDecimal(m: nat)
    ensures ToNumber("-" + ToRadix(m, 10)) == Finite(-(m as int))
  {
    var digits := ToRadix(m, 10);
    var s := "-" + digits;
    assert s[0] == '-' && s[1..] == digits;
    assert !AllDigits(s, 10) by { assert DigitValue(s[0]) == -1; }
    RadixRoundTrip(m, 10);
  }

  /** `s.split(sep)`: the pieces between separators; always at least one piece. */
  function Split(s: string, sep: char): (parts: seq<string>)
    ensures |parts| >= 1
    ensures forall i :: 0 <= i < |parts| ==> sep !in parts[i]
  {
    if s == [] then [""]
    else
      var rest := Split(s[1..], sep);
      if s[0] == sep then [""] + rest
      else [[s[0]] + rest[0]] + rest[1..]
  }

  /** `split` yields one more piece than there are separators in `s`. */
  lemma {:induction false} SplitCount(s: string, sep: char)
    ensures |Split(s, sep)| == multiset(s)[sep] + 1
  {
    if s != [] {
      SplitCount(s[1..], sep);
      assert s == [s[0]] + s[1..];
      assert multiset(s) == multiset([s[0]]) + multiset(s[1..]);
    }
  }

  /** `parts.join(sep)`, the inverse of `Split`. */
  function Join(parts: seq<string>, sep: char): string
    requires |parts| >= 1
  {
    if |parts| == 1 then parts[0] else parts[0] + [sep] + Join(parts[1..], sep)
  }

  lemma {:induction false} JoinSplit(s: string, sep: char)
    ensures Join(Split(s, sep), sep) == s
  {
    if s != [] {
      JoinSplit(s[1..], sep);
      var rest := Split(s[1..], sep);
      if s[0] != sep {
        if |rest| > 1 {
          assert Join(rest, sep) == rest[0] + [sep] + Join(rest[1..], sep);
        }
      }
    }
  }

  lemma {:induction false} SplitJoin(parts: seq<string>, sep: char)
    requires |parts| >= 1
    requires forall i :: 0 <= i < |parts| ==> sep !in parts[i]
    ensures Split(Join(parts, sep), sep) == parts
    decreases |parts|, |parts[0]|
  {
    var p := parts[0];
    if p == [] {
      if |parts| > 1 {
        SplitJoin(parts[1..], sep);
        assert Join(parts, sep) == [sep] + Join(parts[1..], sep);
        assert Join(parts, sep)[1..] == Join(parts[1..], sep);
      }
    } else {
      var shorter := [p[1..]] + parts[1..];
      assert forall i :: 1 <= i < |shorter| ==> shorter[i] == parts[i];
      SplitJoin(shorter, sep);
      assert Join(parts, sep) == [p[0]] + Join(shorter, sep);
      assert Join(parts, sep)[1..] == Join(shorter, sep);
      assert [p[0]] + p[1..] == p;
      assert [[p[0]] + shorter[0]] + shorter[1..] == parts;
    }
  }

  /** `s.padStart(len, [fill])`: `fill` repeated in front of `s` up to length `len`. */
  function PadStart(s: string, len: nat, fill: char): (r: string)
    ensures |r| == if |s| >= len then |s| else len
    ensures r[|r| - |s|..] == s
    ensures forall i :: 0 <= i < |r| - |s| ==> r[i] == fill
    decreases len - |s|
  {
    if |s| >= len then s else PadStart([fill] + s, len, fill)
  }

  /** Dotless i (U+0131), the one non-ASCII character whose upper case is one of the ten mapped letters, 'I'. */
  const DotlessI: char := '\U{0131}'

  /** `c.toUpperCase()` on ASCII letters and on the dotless i. */
  function UpperChar(c: char): char {
    if 'a' <= c <= 'z' then (c as int - 32) as char
    else if c == DotlessI then 'I'
    else c
  }

  /**
   * `s.toUpperCase()`, restricted to ASCII letters and the dotless i: no ASCII
   * lower-case letter and no dotless i survives, and every other character is
   * either kept or is the upper case of the letter it replaces.
   */
  function ToUpper(s: string): (r: string)
    ensures |r| == |s|
    ensures forall i :: 0 <= i < |r| ==> !('a' <= r[i] <= 'z') && r[i] != DotlessI
    ensures forall i :: 0 <= i < |s| ==>
      r[i] == s[i]
      || ('a' <= s[i] <= 'z' && r[i] as int == s[i] as int - 32)
      || (s[i] == DotlessI && r[i] == 'I')
  {
    seq(|s|, i requires 0 <= i < |s| => UpperChar(s[i]))
  }

  /** Upper-casing twice changes nothing more. */
  lemma ToUpperIdempotent(s: string)
    ensures ToUpper(ToUpper(s)) == ToUpper(s)
  {
  }
}
