/** Python's exceptions, as error values. */
module Exceptions {

  /** The exceptions the modelled code raises, or lets the interpreter raise. */
  datatype PyError =
    | ValueError
    | AttributeError(name: string)
    | IndexError
    | KeyError(key: string)
    | TypeError
    | NotImplementedError

  datatype Option<+T> = None | Some(value: T)

  /** A call that returns a value or raises. */
  datatype Result<+T> = Ok(value: T) | Err(error: PyError)

  /** A call that returns nothing or raises. */
  datatype Outcome = Pass | Fail(error: PyError)
}

/** The two sequence operations of Python that the model relies on. */
module PySeq {
  import opened Exceptions

  function Min(a: int, b: int): int
  {
    if a <= b then a else b
  }

  /** Python's slice v[lo:hi] for 0 <= lo <= hi: both bounds are clipped to the
      length, so a short sequence gives a short, possibly empty, slice and
      never an error. */
  function Slice<T>(v: seq<T>, lo: nat, hi: nat): (r: seq<T>)
    requires lo <= hi
    ensures |r| == Min(hi, |v|) - Min(lo, |v|)
    ensures |v| >= hi ==> |r| == hi - lo
    ensures forall i :: 0 <= i < |r| ==> r[i] == v[lo + i]
  {
    v[Min(lo, |v|)..Min(hi, |v|)]
  }

  /** tuple.index(x): the position of the first occurrence of x, or None where
      Python raises ValueError. */
  function IndexOf<T(==)>(s: seq<T>, x: T): (r: Option<nat>)
    ensures r.None? <==> x !in s
    ensures r.Some? ==> r.value < |s| && s[r.value] == x && x !in s[..r.value]
  {
    if |s| == 0 then None
    else if s[0] == x then Some(0)
    else
      match IndexOf(s[1..], x)
      case None => None
      case Some(i) =>
        assert s[..i + 1] == [s[0]] + s[1..][..i];
        Some(i + 1)
  }
}

/** int(s) and str(n) for Python integers written in ASCII decimal. */
module PyInt {
  import opened Exceptions

  /** The ASCII characters int() skips before and after the number. */
  predicate IsSpace(c: char)
  {
    c == ' ' || c == '\t' || c == '\n' || c == '\r' || c == '\U{B}' || c == '\U{C}'
  }

  predicate IsDigit(c: char)
  {
    '0' <= c <= '9'
  }

  predicate AllDigits(s: string)
  {
    forall i :: 0 <= i < |s| ==> IsDigit(s[i])
  }

  /** s without its leading white space. */
  function StripLeft(s: string): (t: string)
    ensures |t| <= |s|
    ensures |t| > 0 ==> !IsSpace(t[0])
  {
    if |s| > 0 && IsSpace(s[0]) then StripLeft(s[1..]) else s
  }

  /** s without its trailing white space. */
  function StripRight(s: string): (t: string)
    ensures |t| <= |s|
    ensures |t| > 0 ==> !IsSpace(t[|t| - 1])
  {
    if |s| > 0 && IsSpace(s[|s| - 1]) then StripRight(s[..|s| - 1]) else s
  }

  /** A string of white space strips to nothing. */
  lemma {:induction false} StripBlank(s: string)
    ensures (forall i :: 0 <= i < |s| ==> IsSpace(s[i])) ==> StripLeft(s) == ""
  {
    if |s| > 0 && IsSpace(s[0]) {
      StripBlank(s[1..]);
      assert forall i :: 0 <= i < |s[1..]| ==> s[1..][i] == s[i + 1];
    }
  }

  /** The value of a string of decimal digits, most significant first. */
  function DigitsValue(s: string): nat
    requires AllDigits(s)
  {
    if |s| == 0 then 0
    else DigitsValue(s[..|s| - 1]) * 10 + (s[|s| - 1] as int - '0' as int)
  }

  /** int(s) as Python 2 reads a decimal string: white space around the
      number, one optional sign, white space after the sign, and at least
      one decimal digit; anything else is a ValueError, here None. */
  function ParseInt(s: string): (r: Option<int>)
    ensures (forall i :: 0 <= i < |s| ==> IsSpace(s[i])) ==> r.None?
    ensures |s| > 0 && AllDigits(s) ==> r == Some(DigitsValue(s))
    ensures |s| > 1 && s[0] == '-' && AllDigits(s[1..]) ==> r.Some? && r.value == 0 - DigitsValue(s[1..]) as int
  {
    StripBlank(s);
    ParseTrimmed(StripRight(StripLeft(s)))
  }

  /** int() on the text between the surrounding white space. */
  function ParseTrimmed(t: string): Option<int>
  {
    var negative := |t| > 0 && t[0] == '-';
    var body := if |t| > 0 && (t[0] == '-' || t[0] == '+') then StripLeft(t[1..]) else t;
    if |body| > 0 && AllDigits(body) then
      var magnitude: int := DigitsValue(body);
      Some(if negative then -magnitude else magnitude)
    else None
  }

  predicate Blank(s: string)
  {
    forall i :: 0 <= i < |s| ==> IsSpace(s[i])
  }

  /** Leading white space in front of a string that does not start with
      white space is exactly what StripLeft removes. */
  lemma {:induction false} StripLeftBlank(w: string, x: string)
    requires Blank(w)
    requires |x| > 0 ==> !IsSpace(x[0])
    ensures StripLeft(w + x) == x
  {
    if |w| > 0 {
      assert (w + x)[1..] == w[1..] + x;
      StripLeftBlank(w[1..], x);
    } else {
      assert w + x == x;
    }
  }

  /** Trailing white space after a string that does not end with white space
      is exactly what StripRight removes. */
  lemma {:induction false} StripRightBlank(x: string, w: string)
    requires Blank(w)
    requires |x| > 0 ==> !IsSpace(x[|x| - 1])
    ensures StripRight(x + w) == x
  {
    if |w| > 0 {
      assert (x + w)[..|x + w| - 1] == x + w[..|w| - 1];
      StripRightBlank(x, w[..|w| - 1]);
    } else {
      assert x + w == x;
    }
  }

  /** Every character StripLeft removes is white space. */
  lemma {:induction false} StripLeftKeeps(s: string)
    ensures forall i :: 0 <= i < |s| ==> IsSpace(s[i]) || s[i] in StripLeft(s)
  {
    if |s| > 0 && IsSpace(s[0]) {
      StripLeftKeeps(s[1..]);
      assert forall i :: 1 <= i < |s| ==> s[i] == s[1..][i - 1];
    }
  }

  /** Every character StripRight removes is white space. */
  lemma {:induction false} StripRightKeeps(s: string)
    ensures forall i :: 0 <= i < |s| ==> IsSpace(s[i]) || s[i] in StripRight(s)
  {
    if |s| > 0 && IsSpace(s[|s| - 1]) {
      StripRightKeeps(s[..|s| - 1]);
      assert forall i :: 0 <= i < |s| - 1 ==> s[i] == s[..|s| - 1][i];
    }
  }

  /** int() on digits alone is their value. */
  lemma ParseUnsigned(digits: string)
    requires |digits| > 0 && AllDigits(digits)
    ensures ParseTrimmed(digits) == Some(DigitsValue(digits))
  {
    assert !(digits[0] == '-' || digits[0] == '+');
  }

  /** int() on a sign followed by text that strips to digits: their value,
      negated after '-'. */
  lemma ParseSigned(t: string, digits: string)
    requires |t| > 0 && (t[0] == '+' || t[0] == '-')
    requires StripLeft(t[1..]) == digits
    requires |digits| > 0 && AllDigits(digits)
    ensures ParseTrimmed(t) == Some(if t[0] == '-' then 0 - DigitsValue(digits) as int else DigitsValue(digits))
  {
  }

  lemma ParseThroughTrim(s: string, t: string)
    requires StripRight(StripLeft(s)) == t
    ensures ParseInt(s) == ParseTrimmed(t)
  {
  }

  /** White space, digits, white space: the digits' value. */
  lemma {:induction false} UnsignedGrammar(s: string, lead: string, digits: string, trail: string)
    requires s == lead + (digits + trail)
    requires Blank(lead) && Blank(trail)
    requires |digits| > 0 && AllDigits(digits)
    ensures ParseInt(s) == Some(DigitsValue(digits))
  {
    assert !IsSpace(digits[0]) && !IsSpace(digits[|digits| - 1]);
    StripLeftBlank(lead, digits + trail);
    StripRightBlank(digits, trail);
    ParseThroughTrim(s, digits);
    ParseUnsigned(digits);
  }

  /** White space, a sign, white space, digits, white space: the digits'
      value, negated after '-'. */
  lemma {:induction false} SignedGrammar(s: string, lead: string, core: string, gap: string, digits: string, trail: string)
    requires s == lead + (core + trail)
    requires |core| > 0 && (core[0] == '+' || core[0] == '-') && core[1..] == gap + digits
    requires Blank(lead) && Blank(gap) && Blank(trail)
    requires |digits| > 0 && AllDigits(digits)
    ensures ParseInt(s) == Some(if core[0] == '-' then 0 - DigitsValue(digits) as int else DigitsValue(digits))
  {
    assert !IsSpace(digits[0]) && !IsSpace(digits[|digits| - 1]);
    StripLeftBlank(lead, core + trail);
    assert core[|core| - 1] == core[1..][|core| - 2] == digits[|digits| - 1];
    StripRightBlank(core, trail);
    ParseThroughTrim(s, core);
    StripLeftBlank(gap, digits);
    ParseSigned(core, digits);
  }

  /** The accepting half of int()'s grammar: white space, an optional sign,
      white space, at least one digit, white space parse to the digits'
      value, negated after '-'. */
  lemma {:induction false} IntGrammar(lead: string, sign: string, gap: string, digits: string, trail: string)
    requires Blank(lead) && Blank(gap) && Blank(trail)
    requires sign == "" || sign == "+" || sign == "-"
    requires |digits| > 0 && AllDigits(digits)
    ensures ParseInt(lead + sign + gap + digits + trail)
         == Some(if sign == "-" then 0 - DigitsValue(digits) as int else DigitsValue(digits))
  {
    var core := sign + gap + digits;
    assert lead + sign + gap + digits + trail == lead + core + trail;
    Associate(lead, core, trail);
    if sign == "" {
      assert core == gap + digits;
      Associate(lead, gap, digits + trail);
      Associate(gap, digits, trail);
      BlankConcat(lead, gap);
      UnsignedGrammar(lead + core + trail, lead + gap, digits, trail);
    } else {
      Associate(sign, gap, digits);
      assert core[0] == sign[0];
      assert core[1..] == gap + digits;
      SignedGrammar(lead + core + trail, lead, core, gap, digits, trail);
    }
  }

  lemma Associate(a: string, b: string, c: string)
    ensures a + b + c == a + (b + c)
  {
  }

  lemma BlankConcat(a: string, b: string)
    requires Blank(a) && Blank(b)
    ensures Blank(a + b)
  {
    assert forall i :: 0 <= i < |a + b| ==> (a + b)[i] == (if i < |a| then a[i] else b[i - |a|]);
  }

  /** The rejecting half: int() accepts only white space, signs and digits,
      so text such as '1.5' or 'ten' is a ValueError. */
  lemma {:induction false} ParseIntAlphabet(s: string)
    requires ParseInt(s).Some?
    ensures forall i :: 0 <= i < |s| ==> IsSpace(s[i]) || IsDigit(s[i]) || s[i] == '+' || s[i] == '-'
  {
    var u := StripLeft(s);
    var t := StripRight(u);
    StripLeftKeeps(s);
    StripRightKeeps(u);
    if |t| > 0 && (t[0] == '-' || t[0] == '+') {
      StripLeftKeeps(t[1..]);
      assert forall j :: 0 <= j < |t| ==> j == 0 || t[j] == t[1..][j - 1];
    }
  }

  /** Python 2 lets white space follow the sign: int('- 5') == -5. */
  lemma SpaceAfterSign()
    ensures ParseInt("- 5") == Some(-5)
    ensures ParseInt(" +7 ") == Some(7)
  {
    assert DigitsValue("5") == 5;
    assert "" + "-" + " " + "5" + "" == "- 5";
    IntGrammar("", "-", " ", "5", "");
    assert DigitsValue("7") == 7;
    assert " " + "+" + "" + "7" + " " == " +7 ";
    IntGrammar(" ", "+", "", "7", " ");
  }

  function Digit(d: nat): (c: char)
    requires d < 10
    ensures IsDigit(c) && c as int - '0' as int == d
  {
    (d + '0' as int) as char
  }

  /** str(n) for n >= 0: the shortest decimal numeral of n. */
  function FormatNat(n: nat): (s: string)
    ensures |s| > 0 && AllDigits(s)
    ensures s[0] == '0' ==> n == 0
  {
    if n < 10 then [Digit(n)] else FormatNat(n / 10) + [Digit(n % 10)]
  }

  /** str(n): a minus sign before the numeral of |n| when n is negative. */
  function FormatInt(n: int): (s: string)
    ensures |s| > 0 && !IsSpace(s[0]) && !IsSpace(s[|s| - 1])
    ensures s[0] == '-' <==> n < 0
  {
    if n < 0 then "-" + FormatNat(-n) else FormatNat(n)
  }

  lemma {:induction false} FormatNatValue(n: nat)
    ensures DigitsValue(FormatNat(n)) == n
  {
    if n >= 10 {
      var s := FormatNat(n);
      assert s[..|s| - 1] == FormatNat(n / 10);
      FormatNatValue(n / 10);
    }
  }

  /** int(str(n)) == n: the spin box value written by getConfig is read back
      unchanged by setConfig. */
  lemma FormatThenParse(n: int)
    ensures ParseInt(FormatInt(n)) == Some(n)
  {
    var s := FormatInt(n);
    assert StripLeft(s) == s;
    assert StripRight(s) == s;
    if n < 0 {
      assert s[1..] == FormatNat(-n);
      assert StripLeft(s[1..]) == s[1..];
      FormatNatValue(-n);
    } else {
      FormatNatValue(n);
    }
  }
}
