/** The two Python string built-ins the client relies on: `str.split(sep)`
    with a one-character separator, and `int(s)` on a decimal string.
    `IntToString` is the decimal printer that `int` inverts. */
module PyText {
  import opened Common

  /** Index of the first occurrence of `c` in `s`. */
  function IndexOf(s: string, c: char): (i: nat)
    requires c in s
    ensures i < |s| && s[i] == c
    ensures c !in s[..i]
  {
    if s[0] == c then 0
    else
      assert s == [s[0]] + s[1..];
      var j := IndexOf(s[1..], c);
      assert s[..j + 1] == [s[0]] + s[1..][..j];
      1 + j
  }

  /** `s.split(sep)`: the pieces between the separators, in order. There is
      always at least one piece, and no piece holds the separator. */
  function Split(s: string, sep: char): (pieces: seq<string>)
    ensures |pieces| >= 1
    ensures |pieces| == 1 <==> sep !in s
    ensures forall k | 0 <= k < |pieces| :: sep !in pieces[k]
    decreases |s|
  {
    if sep !in s then [s]
    else
      var i := IndexOf(s, sep);
      [s[..i]] + Split(s[i + 1..], sep)
  }

  /** `sep.join(pieces)`: the inverse of `Split`. */
  function Join(pieces: seq<string>, sep: char): string
    requires |pieces| >= 1
  {
    if |pieces| == 1 then pieces[0]
    else pieces[0] + [sep] + Join(pieces[1..], sep)
  }

  /** Splitting loses nothing: joining the pieces gives back the string. */
  lemma {:induction false} JoinSplit(s: string, sep: char)
    ensures Join(Split(s, sep), sep) == s
    decreases |s|
  {
    if sep in s {
      var i := IndexOf(s, sep);
      JoinSplit(s[i + 1..], sep);
      assert s == s[..i] + [sep] + s[i + 1..];
    }
  }

  /** The first separator ends the first piece. */
  lemma SplitAtFirst(a: string, sep: char, b: string)
    requires sep !in a
    ensures Split(a + [sep] + b, sep) == [a] + Split(b, sep)
  {
    var s := a + [sep] + b;
    assert s[|a|] == sep;
    var i := IndexOf(s, sep);
    assert s[..i] == a;
    assert s[i + 1..] == b;
  }

  /** The first piece runs up to the first separator, or is the whole string. */
  lemma SplitHead(s: string, sep: char)
    ensures Split(s, sep)[0] == if sep in s then s[..IndexOf(s, sep)] else s
  {
  }

  predicate IsDigit(c: char) {
    '0' <= c <= '9'
  }

  predicate AllDigits(s: string) {
    forall k | 0 <= k < |s| :: IsDigit(s[k])
  }

  /** The value of a string of decimal digits, most significant first. */
  function DigitsValue(s: string): nat
    requires AllDigits(s)
  {
    if s == [] then 0
    else DigitsValue(s[..|s| - 1]) * 10 + (s[|s| - 1] - '0') as int
  }

  /** Python's `int(s)` on a base-10 string: an optional sign followed by at
      least one ASCII digit; anything else raises ValueError (None here). */
  function ParseInt(s: string): (r: Option<int>)
    ensures r.Some? <==>
      && s != []
      && (IsDigit(s[0]) || ((s[0] == '+' || s[0] == '-') && |s| >= 2))
      && AllDigits(s[1..])
    ensures r.Some? ==> s != [] && ':' !in s
    ensures r.Some? && r.value < 0 ==> s[0] == '-'
  {
    if s != [] && (s[0] == '-' || s[0] == '+') then
      var digits := s[1..];
      if digits != [] && AllDigits(digits) then
        assert s == [s[0]] + digits;
        var magnitude: int := DigitsValue(digits);
        Some(if s[0] == '-' then -magnitude else magnitude)
      else None
    else if s != [] && AllDigits(s) then
      Some(DigitsValue(s))
    else None
  }

  function DigitChar(d: nat): char
    requires d < 10
  {
    ('0' as int + d) as char
  }

  /** The shortest decimal spelling of a natural number. */
  function NatToString(n: nat): (s: string)
    ensures s != [] && AllDigits(s)
  {
    if n < 10 then [DigitChar(n)]
    else NatToString(n / 10) + [DigitChar(n % 10)]
  }

  /** Python's `str(n)` on an integer. */
  function IntToString(n: int): string {
    if n < 0 then "-" + NatToString(-n) else NatToString(n)
  }

  lemma {:induction false} DigitsValueOfNatToString(n: nat)
    ensures DigitsValue(NatToString(n)) == n
  {
    var s := NatToString(n);
    if n >= 10 {
      DigitsValueOfNatToString(n / 10);
      assert s[..|s| - 1] == NatToString(n / 10);
    }
  }

  /** `int(str(n)) == n` for every integer. */
  lemma ParseIntOfIntToString(n: int)
    ensures ParseInt(IntToString(n)) == Some(n)
  {
    var s := IntToString(n);
    if n < 0 {
      DigitsValueOfNatToString(-n);
      assert s[1..] == NatToString(-n);
    } else {
      DigitsValueOfNatToString(n);
    }
  }

  /** Leading zeros add nothing to the value of a digit string. */
  lemma {:induction false} DigitsValueLeadingZeros(zeros: string, t: string)
    requires forall k | 0 <= k < |zeros| :: zeros[k] == '0'
    requires AllDigits(t)
    ensures AllDigits(zeros + t) && DigitsValue(zeros + t) == DigitsValue(t)
    decreases |zeros| + |t|
  {
    var s := zeros + t;
    assert AllDigits(s) by {
      forall k | 0 <= k < |s| ensures IsDigit(s[k]) {
        if k >= |zeros| { assert s[k] == t[k - |zeros|]; }
      }
    }
    if t == [] {
      assert s == zeros;
      if zeros != [] {
        var shorter := zeros[..|zeros| - 1];
        DigitsValueLeadingZeros(shorter, []);
        assert shorter + [] == shorter;
        assert s[..|s| - 1] == shorter;
      }
    } else {
      var init := t[..|t| - 1];
      DigitsValueLeadingZeros(zeros, init);
      assert s[..|s| - 1] == zeros + init;
      assert s[|s| - 1] == t[|t| - 1];
    }
  }

  /** `int()` of a digit string, bare or after a sign, is its value. */
  lemma ParseIntOfDigits(sign: string, digits: string)
    requires sign == "" || sign == "+" || sign == "-"
    requires digits != [] && AllDigits(digits)
    ensures ParseInt(sign + digits) ==
      Some(if sign == "-" then -(DigitsValue(digits) as int) else DigitsValue(digits))
  {
    var s := sign + digits;
    if sign == "" {
      assert s == digits;
    } else {
      assert s[0] == sign[0] && s[1..] == digits;
    }
  }

  /** `int()` ignores a '+' sign and leading zeros: "+7", "007" and "-007"
      are 7, 7 and -7. */
  lemma ParseIntSignAndZeros(sign: string, zeros: string, n: nat)
    requires sign == "" || sign == "+" || sign == "-"
    requires forall k | 0 <= k < |zeros| :: zeros[k] == '0'
    ensures ParseInt(sign + zeros + NatToString(n)) == Some(if sign == "-" then -(n as int) else n)
  {
    var digits := zeros + NatToString(n);
    DigitsValueLeadingZeros(zeros, NatToString(n));
    DigitsValueOfNatToString(n);
    ParseIntOfDigits(sign, digits);
    assert sign + zeros + NatToString(n) == sign + digits;
  }

  /** A character that is neither a digit nor a sign, anywhere, or a sign
      after the first position, makes `int()` fail. */
  lemma ParseIntRejects(s: string, k: nat)
    requires k < |s|
    requires !IsDigit(s[k]) && (k > 0 || (s[k] != '+' && s[k] != '-'))
    ensures ParseInt(s).None?
  {
    if k > 0 {
      assert s[1..][k - 1] == s[k];
    }
  }

  /** No decimal spelling contains the endpoint separator. */
  lemma NoColonInIntToString(n: int)
    ensures ':' !in IntToString(n)
  {
    ParseIntOfIntToString(n);
  }
}
