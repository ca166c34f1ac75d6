/**
 * Shared vocabulary for the club-management model: optional values and
 * results, a dynamically typed Python argument (for the `isinstance` checks
 * the source performs), the uncaught Python exceptions some operations raise,
 * and the handful of string operations the source relies on (`in` on
 * strings, `lower`/`upper`, `str(int)`, `int(str)`, `split`, `strip`).
 */
module Common {

  datatype Option<+T> = None | Some(value: T)

  datatype Result<+T, +E> = Ok(value: T) | Err(error: E)

  /** A Python exception that the code lets escape (or catches generically). */
  datatype PyError =
    | KeyError(key: string)
    | IndexError
    | ValueError
    | TypeError
    | AttributeError

  /** Text of `str(e)` for the generic `except Exception as e` handlers. */
  function PyErrorText(e: PyError): string
  {
    match e
    case KeyError(k) => "'" + k + "'"
    case IndexError => "list index out of range"
    case ValueError => "invalid value"
    case TypeError => "unsupported operand type"
    case AttributeError => "missing attribute"
  }

  /** A Python argument whose type the code inspects at run time. */
  datatype Value =
    | VInt(i: int)
    | VFloat(r: real)
    | VBool(b: bool)
    | VStr(s: string)
    | VNone

  /** `isinstance(v, (int, float))`; `bool` is a subclass of `int` in Python. */
  predicate IsNumber(v: Value)
  {
    v.VInt? || v.VFloat? || v.VBool?
  }

  /** `isinstance(v, int)`, again admitting `bool`. */
  predicate IsInt(v: Value)
  {
    v.VInt? || v.VBool?
  }

  /** The numeric value Python uses for a number (`True` is 1). */
  function AsReal(v: Value): real
    requires IsNumber(v)
  {
    match v
    case VInt(i) => i as real
    case VFloat(r) => r
    case VBool(b) => if b then 1.0 else 0.0
  }

  function AsInt(v: Value): int
    requires IsInt(v)
  {
    match v
    case VInt(i) => i
    case VBool(b) => if b then 1 else 0
  }

  /** `type(v).__name__`, as quoted in the finance error messages. */
  function TypeName(v: Value): string
  {
    match v
    case VInt(_) => "int"
    case VFloat(_) => "float"
    case VBool(_) => "bool"
    case VStr(_) => "str"
    case VNone => "NoneType"
  }

  // ---------------------------------------------------------------------
  // Characters and case

  predicate IsDigit(c: char)
  {
    '0' <= c <= '9'
  }

  /** `s.isdigit()`: non-empty and every character a decimal digit. */
  predicate IsDigits(s: string)
  {
    |s| > 0 && forall i :: 0 <= i < |s| ==> IsDigit(s[i])
  }

  function LowerChar(c: char): char
  {
    if 'A' <= c <= 'Z' then (c as int + 32) as char else c
  }

  function UpperChar(c: char): char
  {
    if 'a' <= c <= 'z' then (c as int - 32) as char else c
  }

  /** `s.lower()` on the ASCII letters. */
  function Lower(s: string): (r: string)
    ensures |r| == |s|
    ensures forall i :: 0 <= i < |s| ==> r[i] == LowerChar(s[i])
  {
    if s == [] then [] else [LowerChar(s[0])] + Lower(s[1..])
  }

  /** `s.upper()` on the ASCII letters. */
  function Upper(s: string): (r: string)
    ensures |r| == |s|
    ensures forall i :: 0 <= i < |s| ==> r[i] == UpperChar(s[i])
  {
    if s == [] then [] else [UpperChar(s[0])] + Upper(s[1..])
  }

  /** Lower-casing an upper-cased text gives the lower-cased text. */
  lemma LowerOfUpper(s: string)
    ensures Lower(Upper(s)) == Lower(s)
  {
  }

  /** Python's `needle in hay` on strings: a contiguous occurrence. */
  predicate Contains(hay: string, needle: string)
  {
    exists i :: 0 <= i <= |hay| - |needle| && OccursAt(hay, needle, i)
  }

  predicate OccursAt(hay: string, needle: string, i: int)
  {
    0 <= i <= |hay| - |needle| && hay[i..i + |needle|] == needle
  }

  lemma ContainsSelf(s: string)
    ensures Contains(s, s)
  {
    assert OccursAt(s, s, 0);
  }

  /** Characters `str.strip()` removes (the ASCII whitespace). */
  predicate IsSpace(c: char)
  {
    c == ' ' || c == '\t' || c == '\n' || c == '\r' || c == '\U{B}' || c == '\U{C}'
  }

  /** `s.strip()`: drop leading and trailing whitespace. */
  function Strip(s: string): (r: string)
    ensures |r| <= |s|
    ensures r == [] <==> IsBlank(s)
    ensures (forall i :: 0 <= i < |s| ==> !IsSpace(s[i])) ==> r == s
  {
    if s == [] then []
    else if IsSpace(s[0]) then Strip(s[1..])
    else if IsSpace(s[|s| - 1]) then Strip(s[..|s| - 1])
    else s
  }

  /** `not s.strip()`: the string is empty or only whitespace. */
  predicate IsBlank(s: string)
  {
    forall i :: 0 <= i < |s| ==> IsSpace(s[i])
  }

  /** The longest prefix of `s` without whitespace. */
  function WordPrefix(s: string): (r: string)
    ensures |r| <= |s| && r == s[..|r|]
    ensures forall i :: 0 <= i < |r| ==> !IsSpace(r[i])
    ensures |r| < |s| ==> IsSpace(s[|r|])
  {
    if s == [] || IsSpace(s[0]) then [] else [s[0]] + WordPrefix(s[1..])
  }

  /**
   * `s.split()[0]`: the first whitespace-separated word; `None` when `s` is
   * blank, where Python's indexing raises `IndexError`.
   */
  function FirstWord(s: string): (r: Option<string>)
    ensures r.None? <==> IsBlank(s)
    ensures r.Some? ==> r.value != [] && forall i :: 0 <= i < |r.value| ==> !IsSpace(r.value[i])
  {
    if s == [] then None
    else if IsSpace(s[0]) then
      assert IsBlank(s) <==> IsBlank(s[1..]) by {
        if IsBlank(s[1..]) {
          forall i | 0 <= i < |s| ensures IsSpace(s[i]) {
            if i > 0 { assert s[i] == s[1..][i - 1]; }
          }
        }
      }
      FirstWord(s[1..])
    else Some(WordPrefix(s))
  }

  /** A word followed by whitespace and anything else is the first word. */
  lemma {:induction false} FirstWordOfWordThenSpace(w: string, rest: string)
    requires w != [] && forall i :: 0 <= i < |w| ==> !IsSpace(w[i])
    ensures FirstWord(w + " " + rest) == Some(w)
  {
    var s := w + " " + rest;
    assert s[0] == w[0];
    WordPrefixOfWordThenSpace(w, rest);
  }

  lemma {:induction false} WordPrefixOfWordThenSpace(w: string, rest: string)
    requires forall i :: 0 <= i < |w| ==> !IsSpace(w[i])
    ensures WordPrefix(w + " " + rest) == w
  {
    var s := w + " " + rest;
    if w != [] {
      assert s[1..] == w[1..] + " " + rest;
      WordPrefixOfWordThenSpace(w[1..], rest);
      assert [w[0]] + w[1..] == w;
    } else {
      assert s[0] == ' ';
    }
  }

  // ---------------------------------------------------------------------
  // Decimal numerals

  function DigitChar(d: nat): char
    requires d < 10
  {
    ('0' as int + d) as char
  }

  function DigitValue(c: char): nat
    requires IsDigit(c)
  {
    c as int - '0' as int
  }

  /** `str(n)` for a natural number. */
  function NatText(n: nat): (r: string)
    ensures IsDigits(r)
    decreases n
  {
    if n < 10 then [DigitChar(n)] else NatText(n / 10) + [DigitChar(n % 10)]
  }

  /** `str(i)` for any integer. */
  function IntText(i: int): (r: string)
    ensures |r| > 0
  {
    if i < 0 then "-" + NatText(-i) else NatText(i)
  }

  /** The value of a string of decimal digits. */
  function DigitsValue(s: string): nat
    requires forall i :: 0 <= i < |s| ==> IsDigit(s[i])
  {
    if s == [] then 0 else DigitsValue(s[..|s| - 1]) * 10 + DigitValue(s[|s| - 1])
  }

  /** `int(s)` restricted to plain digit strings; anything else is `None`. */
  function ParseNat(s: string): (r: Option<nat>)
    ensures r.Some? <==> IsDigits(s)
  {
    if IsDigits(s) then Some(DigitsValue(s)) else None
  }

  lemma {:induction false} DigitsValueOfNatText(n: nat)
    ensures DigitsValue(NatText(n)) == n
    decreases n
  {
    if n >= 10 {
      var prefix := NatText(n / 10);
      var s := prefix + [DigitChar(n % 10)];
      assert s[..|s| - 1] == prefix;
      DigitsValueOfNatText(n / 10);
    }
  }

  /** `int(str(n)) == n`: the numeral round-trips. */
  lemma NatTextRoundTrip(n: nat)
    ensures ParseNat(NatText(n)) == Some(n)
  {
    DigitsValueOfNatText(n);
  }

  /** `10 ** n`. */
  function Pow10(n: nat): (r: nat)
    ensures r >= 1
  {
    if n == 0 then 1 else 10 * Pow10(n - 1)
  }

  /**
   * `float(s)` for a plain decimal: an optional sign, digits, and an
   * optional fraction after one `.`, with at least one digit in all.
   * Surrounding whitespace is stripped first, as Python does.
   */
  function ParseDecimal(s: string): (r: Option<real>)
    ensures IsDigits(s) ==> r == Some(DigitsValue(s) as real)
  {
    var t := Strip(s);
    var negative := |t| > 0 && t[0] == '-';
    var body := if |t| > 0 && (t[0] == '-' || t[0] == '+') then t[1..] else t;
    var parts := Split(body, '.');
    assert IsDigits(s) ==> parts == [s] by {
      if IsDigits(s) {
        assert t == s && body == s;
        SplitNoSeparator(s, '.');
      }
    }
    if |parts| > 2 || |body| == 0 || body == "." then None
    else
      var whole := parts[0];
      var frac := if |parts| == 2 then parts[1] else "";
      if !(forall i :: 0 <= i < |whole| ==> IsDigit(whole[i])) then None
      else if !(forall i :: 0 <= i < |frac| ==> IsDigit(frac[i])) then None
      else
        var magnitude := DigitsValue(whole) as real + DigitsValue(frac) as real / Pow10(|frac|) as real;
        Some(if negative then -magnitude else magnitude)
  }

  /** `float(v)`: numbers convert, strings are parsed, anything else is a type error. */
  function FloatOf(v: Value): (r: Result<real, PyError>)
    ensures IsNumber(v) ==> r == Ok(AsReal(v))
    ensures v.VStr? ==> (r.Ok? <==> ParseDecimal(v.s).Some?)
    ensures v.VStr? && r.Err? ==> r.error == ValueError
    ensures v.VNone? ==> r == Err(TypeError)
  {
    match v
    case VStr(s) => if ParseDecimal(s).Some? then Ok(ParseDecimal(s).value) else Err(ValueError)
    case VNone => Err(TypeError)
    case _ => Ok(AsReal(v))
  }

  // ---------------------------------------------------------------------
  // Splitting

  /** `s.split(sep)` for a one-character separator. */
  function Split(s: string, sep: char): (parts: seq<string>)
    ensures |parts| >= 1
  {
    if s == [] then [""]
    else
      var rest := Split(s[1..], sep);
      if s[0] == sep then [""] + rest else [[s[0]] + rest[0]] + rest[1..]
  }

  lemma {:induction false} SplitNoSeparator(s: string, sep: char)
    requires forall i :: 0 <= i < |s| ==> s[i] != sep
    ensures Split(s, sep) == [s]
  {
    if s != [] {
      SplitNoSeparator(s[1..], sep);
      assert [s[0]] + s[1..] == s;
    }
  }

  lemma {:induction false} SplitAtFirst(x: string, sep: char, y: string)
    requires forall i :: 0 <= i < |x| ==> x[i] != sep
    ensures Split(x + [sep] + y, sep) == [x] + Split(y, sep)
  {
    if x == [] {
      assert x + [sep] + y == [sep] + y;
      assert ([sep] + y)[1..] == y;
    } else {
      var s := x + [sep] + y;
      assert s[0] == x[0];
      assert s[1..] == x[1..] + [sep] + y;
      SplitAtFirst(x[1..], sep, y);
      assert [x[0]] + x[1..] == x;
    }
  }

  // ---------------------------------------------------------------------
  // Formatting

  /** `f"{s:<n}"`: left-justify `s` in a field of `n` characters. */
  function PadRight(s: string, n: nat): (r: string)
    ensures |r| == if |s| >= n then |s| else n
    ensures r[..|s|] == s
    ensures forall i :: |s| <= i < |r| ==> r[i] == ' '
  {
    if |s| >= n then s else s + seq(n - |s|, _ => ' ')
  }

  /** `s[:n]`: at most the first `n` characters. */
  function Take(s: string, n: nat): (r: string)
    ensures |r| == if |s| <= n then |s| else n
    ensures r == s[..|r|]
  {
    if |s| <= n then s else s[..n]
  }

  /** The total length of the parts. */
  function Lengths(parts: seq<string>): nat
  {
    if parts == [] then 0 else |parts[0]| + Lengths(parts[1..])
  }

  /**
   * `sep.join(parts)`: the parts in order with one separator between each
   * neighbouring pair, so it starts with the first part.
   */
  function Join(parts: seq<string>, sep: string): (r: string)
    ensures parts == [] ==> r == ""
    ensures parts != [] ==> |r| == Lengths(parts) + (|parts| - 1) * |sep|
    ensures parts != [] ==> r[..|parts[0]|] == parts[0]
  {
    if parts == [] then ""
    else if |parts| == 1 then parts[0]
    else parts[0] + sep + Join(parts[1..], sep)
  }

  // ---------------------------------------------------------------------
  // Sequences

  /** `a` is `b` with some elements left out, the rest in their order. */
  predicate SubseqOf<T(==)>(a: seq<T>, b: seq<T>)
    decreases |b|
  {
    if a == [] then true
    else if b == [] then false
    else
      (a[|a| - 1] == b[|b| - 1] && SubseqOf(a[..|a| - 1], b[..|b| - 1])) ||
      SubseqOf(a, b[..|b| - 1])
  }

  /** No element occurs twice. */
  predicate Distinct<T(==)>(s: seq<T>)
  {
    forall i, j :: 0 <= i < j < |s| ==> s[i] != s[j]
  }

  /** What is kept of a sequence without repeats has no repeats either. */
  lemma {:induction false} SubseqOfDistinct<T>(a: seq<T>, b: seq<T>)
    requires SubseqOf(a, b) && Distinct(b)
    ensures Distinct(a) && forall x :: x in a ==> x in b
    decreases |b|
  {
    if a != [] {
      var a', b' := a[..|a| - 1], b[..|b| - 1];
      if a[|a| - 1] == b[|b| - 1] && SubseqOf(a', b') {
        SubseqOfDistinct(a', b');
        var y := b[|b| - 1];
        assert b == b' + [y];
        forall i, j | 0 <= i < j < |a| ensures a[i] != a[j] {
          if j == |a| - 1 {
            assert a[i] == a'[i] && a'[i] in b';
          } else {
            assert a[i] == a'[i] && a[j] == a'[j];
          }
        }
        assert a == a' + [y];
      } else {
        SubseqOfDistinct(a, b');
      }
    }
  }

  /** Extending both sides by the same element, or only the longer one, keeps a subsequence. */
  lemma SubseqOfSnoc<T>(a: seq<T>, b: seq<T>, x: T)
    requires SubseqOf(a, b)
    ensures SubseqOf(a + [x], b + [x]) && SubseqOf(a, b + [x])
  {
    assert (a + [x])[..|a|] == a;
    assert (b + [x])[..|b|] == b;
  }
}
