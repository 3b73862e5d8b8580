/// Text as the server writes invoice numbers and as the browser writes and
/// reads the cells of the sale table: decimal digits, Python's zero-filled
/// format, JavaScript's `${n}`, `parseInt`, `trim` and `split(sep)[0]`, and
/// SQLite's reading of text as an integer literal.
module Text {
  import opened Wrappers

  predicate IsDigit(c: char) { '0' <= c <= '9' }

  predicate AllDigits(s: string) { forall i :: 0 <= i < |s| ==> IsDigit(s[i]) }

  function DigitValue(c: char): nat
    requires IsDigit(c)
  {
    c as int - '0' as int
  }

  function DigitChar(d: nat): (c: char)
    requires d < 10
    ensures IsDigit(c) && DigitValue(c) == d
  {
    ('0' as int + d) as char
  }

  /// The value of a string of decimal digits; leading zeros are allowed.
  function DecimalValue(s: string): nat
    requires AllDigits(s)
  {
    if s == [] then 0 else 10 * DecimalValue(s[..|s| - 1]) + DigitValue(s[|s| - 1])
  }

  /// The shortest decimal spelling of `n`.
  function Digits(n: nat): (s: string)
    ensures |s| > 0 && AllDigits(s)
    ensures n > 0 ==> s[0] != '0'
  {
    if n < 10 then [DigitChar(n)] else Digits(n / 10) + [DigitChar(n % 10)]
  }

  lemma {:induction false} DecimalValueOfDigits(n: nat)
    ensures DecimalValue(Digits(n)) == n
  {
    if n >= 10 {
      var s := Digits(n);
      assert s[..|s| - 1] == Digits(n / 10);
      DecimalValueOfDigits(n / 10);
    }
  }

  function Zeros(k: nat): (s: string)
    ensures |s| == k && AllDigits(s)
    ensures forall i :: 0 <= i < k ==> s[i] == '0'
  {
    seq(k, _ => '0')
  }

  lemma {:induction false} DecimalValueOfZeros(k: nat)
    ensures DecimalValue(Zeros(k)) == 0
  {
    if k > 0 {
      assert Zeros(k)[..k - 1] == Zeros(k - 1);
      DecimalValueOfZeros(k - 1);
    }
  }

  lemma {:induction false} LeadingZerosAddNothing(k: nat, s: string)
    requires AllDigits(s)
    ensures AllDigits(Zeros(k) + s) && DecimalValue(Zeros(k) + s) == DecimalValue(s)
  {
    if s == [] {
      assert Zeros(k) + s == Zeros(k);
      DecimalValueOfZeros(k);
    } else {
      var t := Zeros(k) + s;
      assert t[..|t| - 1] == Zeros(k) + s[..|s| - 1];
      LeadingZerosAddNothing(k, s[..|s| - 1]);
    }
  }

  /// Python's `format(n, '0<width>d')`: the digits of `n`, left-padded with
  /// '0' up to `width` characters and never cut.
  function ZeroFill(n: nat, width: nat): (s: string)
    ensures |s| == if |Digits(n)| < width then width else |Digits(n)|
    ensures AllDigits(s) && DecimalValue(s) == n
    ensures n > 0 && |s| > width ==> s[0] != '0'
  {
    DecimalValueOfDigits(n);
    var d := Digits(n);
    if |d| < width then
      LeadingZerosAddNothing(width - |d|, d);
      Zeros(width - |d|) + d
    else
      d
  }

  /// The invoice number handed out while `count` sales exist: "FAC-"
  /// followed by count + 1 zero-filled to at least five digits.
  function InvoiceNumber(count: nat): (r: string)
    ensures |r| >= 9 && r[..4] == "FAC-"
    ensures AllDigits(r[4..]) && DecimalValue(r[4..]) == count + 1
    ensures |r| > 9 ==> r[4] != '0'
  {
    var digits := ZeroFill(count + 1, 5);
    assert ("FAC-" + digits)[4..] == digits;
    "FAC-" + digits
  }

  lemma FirstInvoiceNumber()
    ensures InvoiceNumber(0) == "FAC-00001"
  {
    assert Digits(1) == "1";
    assert Zeros(4) == "0000";
  }

  /// Two different sale counts never produce the same invoice number.
  lemma InvoiceNumbersDiffer(j: nat, k: nat)
    requires j != k
    ensures InvoiceNumber(j) != InvoiceNumber(k)
  {
  }

  /// JavaScript's `${n}` for an integer-valued number of magnitude below
  /// 10^21 (larger ones are spelled in exponent form, not modelled).
  function IntText(n: int): string
  {
    if n < 0 then "-" + Digits(-n) else Digits(n)
  }

  /// The white space and line terminators JavaScript's `trim` and
  /// `parseInt` skip.
  predicate IsJsSpace(c: char)
  {
    c == ' ' || c == '\t' || c == '\n' || c == '\r' || c == '\U{B}' || c == '\U{C}'
    || c == '\U{A0}' || c == '\U{FEFF}' || c == '\U{2028}' || c == '\U{2029}'
  }

  /// JavaScript's `s.trimStart()`.
  function TrimStart(s: string): string
  {
    if s != [] && IsJsSpace(s[0]) then TrimStart(s[1..]) else s
  }

  /// JavaScript's `s.trimEnd()`.
  function TrimEnd(s: string): string
  {
    if s != [] && IsJsSpace(s[|s| - 1]) then TrimEnd(s[..|s| - 1]) else s
  }

  /// JavaScript's `s.trim()`: what it keeps neither starts nor ends with
  /// white space.
  function Trim(s: string): (r: string)
    ensures r == [] || (!IsJsSpace(r[0]) && !IsJsSpace(r[|r| - 1]))
  {
    var t := TrimStart(s);
    TrimStartDropsSpace(s);
    TrimEndDropsSpace(t);
    var r := TrimEnd(t);
    assert r == [] || r[0] == t[0];
    r
  }

  /// `trimStart` drops exactly the white space at the front: what it keeps
  /// is a suffix that does not start with white space.
  lemma {:induction false} TrimStartDropsSpace(s: string)
    ensures var r := TrimStart(s);
      && |r| <= |s| && r == s[|s| - |r|..]
      && (r == [] || !IsJsSpace(r[0]))
      && forall i :: 0 <= i < |s| - |r| ==> IsJsSpace(s[i])
  {
    if s != [] && IsJsSpace(s[0]) {
      var t := s[1..];
      TrimStartDropsSpace(t);
      var r := TrimStart(t);
      assert t[|t| - |r|..] == s[|s| - |r|..];
      forall i | 0 <= i < |s| - |r|
        ensures IsJsSpace(s[i])
      {
        if i > 0 {
          assert s[i] == t[i - 1];
        }
      }
    }
  }

  /// `trimEnd` drops exactly the white space at the back: what it keeps is
  /// a prefix that does not end with white space.
  lemma {:induction false} TrimEndDropsSpace(s: string)
    ensures var r := TrimEnd(s);
      && |r| <= |s| && r == s[..|r|]
      && (r == [] || !IsJsSpace(r[|r| - 1]))
      && forall i :: |r| <= i < |s| ==> IsJsSpace(s[i])
  {
    if s != [] && IsJsSpace(s[|s| - 1]) {
      var t := s[..|s| - 1];
      TrimEndDropsSpace(t);
      var r := TrimEnd(t);
      assert t[..|r|] == s[..|r|];
      forall i | |r| <= i < |s|
        ensures IsJsSpace(s[i])
      {
        if i < |s| - 1 {
          assert s[i] == t[i];
        }
      }
    }
  }

  /// Text that neither starts nor ends with white space is left as it is.
  lemma TrimUntouched(s: string)
    requires s != [] && !IsJsSpace(s[0]) && !IsJsSpace(s[|s| - 1])
    ensures Trim(s) == s
  {
  }

  /// The text after an optional leading sign.
  function Unsigned(t: string): string
  {
    if t != [] && (t[0] == '-' || t[0] == '+') then t[1..] else t
  }

  /// The longest run of digits at the start of `s`.
  function LeadingDigits(s: string): (r: string)
    ensures |r| <= |s| && AllDigits(r)
  {
    if s != [] && IsDigit(s[0]) then [s[0]] + LeadingDigits(s[1..]) else []
  }

  /// `LeadingDigits` stops at the first character that is not a digit.
  lemma {:induction false} LeadingDigitsLongest(s: string)
    ensures var r := LeadingDigits(s); r == s[..|r|] && (|r| < |s| ==> !IsDigit(s[|r|]))
  {
    if s != [] && IsDigit(s[0]) {
      LeadingDigitsLongest(s[1..]);
    }
  }

  /// JavaScript's `parseInt(s)`: leading white space, an optional sign and
  /// the longest run of decimal digits after it; `None` stands for NaN,
  /// which comes exactly when no digit follows the white space and sign.
  function ParseInt(s: string): (r: Option<int>)
    ensures var u := Unsigned(TrimStart(s)); r.None? <==> u == [] || !IsDigit(u[0])
    ensures r.Some? && r.value < 0 ==> TrimStart(s) != [] && TrimStart(s)[0] == '-'
  {
    var t := TrimStart(s);
    var d := LeadingDigits(Unsigned(t));
    if d == [] then None
    else
      var v: int := DecimalValue(d);
      Some(if t[0] == '-' then -v else v)
  }

  lemma {:induction false} LeadingDigitsOfDigits(s: string)
    requires AllDigits(s)
    ensures LeadingDigits(s) == s
  {
    if s != [] {
      LeadingDigitsOfDigits(s[1..]);
    }
  }

  /// `parseInt` reads back what `${n}` wrote.
  lemma ParseIntOfIntText(n: int)
    ensures ParseInt(IntText(n)) == Some(n)
  {
    var m: nat := if n < 0 then -n else n;
    var d := Digits(m);
    var s := if n < 0 then "-" + d else d;
    assert s == IntText(n);
    assert !IsJsSpace(s[0]);
    assert TrimStart(s) == s;
    assert Unsigned(s) == d;
    LeadingDigitsOfDigits(d);
    DecimalValueOfDigits(m);
  }

  /// How SQLite reads text compared with or stored in an INTEGER column:
  /// an optional sign and one or more digits make an integer, anything else
  /// stays text. Text SQLite reads as an integer is read the same way by
  /// `parseInt`.
  function StrictInt(s: string): (r: Option<int>)
    ensures r.Some? ==> ParseInt(s) == r
  {
    var u := Unsigned(s);
    if u != [] && AllDigits(u) then
      LeadingDigitsOfDigits(u);
      assert !IsJsSpace(s[0]);
      var v: int := DecimalValue(u);
      Some(if s[0] == '-' then -v else v)
    else
      None
  }

  lemma StrictIntOfIntText(n: int)
    ensures StrictInt(IntText(n)) == Some(n)
  {
    var m: nat := if n < 0 then -n else n;
    DecimalValueOfDigits(m);
    assert Unsigned(IntText(n)) == Digits(m);
  }

  /// Whether an occurrence of `sep` starts at index `i` of `s`.
  predicate OccursAt(s: string, sep: string, i: nat)
  {
    i + |sep| <= |s| && s[i..i + |sep|] == sep
  }

  /// `s.split(sep)[0]`: the text before the first occurrence of `sep`, or
  /// all of `s` when it does not occur; always a prefix of `s`.
  function Before(s: string, sep: string): (r: string)
    requires sep != []
    ensures |r| <= |s| && r == s[..|r|]
    decreases |s|
  {
    if |s| < |sep| then s
    else if s[..|sep|] == sep then []
    else
      var rest := Before(s[1..], sep);
      assert s[..|rest| + 1] == [s[0]] + s[1..][..|rest|];
      [s[0]] + rest
  }

  /// What `Before` keeps: a prefix of `s` inside which no occurrence of
  /// `sep` starts, and unless it is all of `s`, one starts right after it.
  lemma {:induction false} BeforeFirstOccurrence(s: string, sep: string)
    requires sep != []
    ensures var r := Before(s, sep);
      && |r| <= |s| && r == s[..|r|]
      && (forall i: nat :: i < |r| ==> !OccursAt(s, sep, i))
      && (|r| == |s| || OccursAt(s, sep, |r|))
    decreases |s|
  {
    if |s| >= |sep| && s[..|sep|] != sep {
      var t := s[1..];
      BeforeFirstOccurrence(t, sep);
      var r := Before(s, sep);
      assert |r| == |Before(t, sep)| + 1;
      forall i: nat | i < |r|
        ensures !OccursAt(s, sep, i)
      {
        if i > 0 {
          OccursShift(s, sep, i);
        } else {
          assert s[0..|sep|] == s[..|sep|];
        }
      }
      if |r| < |s| {
        OccursShift(s, sep, |r|);
      }
    }
  }

  /// An occurrence after the first character of `s` is one in `s[1..]`.
  lemma OccursShift(s: string, sep: string, i: nat)
    requires 0 < i && s != []
    ensures OccursAt(s, sep, i) <==> OccursAt(s[1..], sep, i - 1)
  {
    if i + |sep| <= |s| {
      assert s[i..i + |sep|] == s[1..][i - 1..i - 1 + |sep|];
    }
  }

  /// Text without the separator is kept whole.
  lemma BeforeWithoutSeparator(s: string, sep: string)
    requires sep != []
    requires forall i: nat :: !OccursAt(s, sep, i)
    ensures Before(s, sep) == s
  {
    BeforeFirstOccurrence(s, sep);
  }
}
