/** The JavaScript string operations the endpoints rely on: `String.prototype.trim`,
    the global `parseInt` without a radix argument, and the decimal rendering of an
    integer inside a template literal (ECMAScript 2023, sections 22.1.3.32, 19.2.5 and
    6.1.6.1.20). */
module JsText {
  import opened Remote

  /** The WhiteSpace and LineTerminator code points that `trim` removes. */
  predicate IsTrimmable(c: char) {
    var n := c as int;
    n == 0x09 || n == 0x0A || n == 0x0B || n == 0x0C || n == 0x0D || n == 0x20 ||
    n == 0xA0 || n == 0x1680 || (0x2000 <= n <= 0x200A) || n == 0x2028 || n == 0x2029 ||
    n == 0x202F || n == 0x205F || n == 0x3000 || n == 0xFEFF
  }

  /** Every character of `s` is white space (the empty string included). */
  predicate Blank(s: string) {
    forall i :: 0 <= i < |s| ==> IsTrimmable(s[i])
  }

  function TrimStart(s: string): string {
    if s != [] && IsTrimmable(s[0]) then TrimStart(s[1..]) else s
  }

  function TrimEnd(s: string): string {
    if s != [] && IsTrimmable(s[|s| - 1]) then TrimEnd(s[..|s| - 1]) else s
  }

  /** `s.trim()` */
  function Trim(s: string): string {
    TrimEnd(TrimStart(s))
  }

  lemma {:induction false} TrimStartKeepsBlankness(s: string)
    ensures Blank(TrimStart(s)) <==> Blank(s)
  {
    if s != [] && IsTrimmable(s[0]) {
      TrimStartKeepsBlankness(s[1..]);
      assert s == [s[0]] + s[1..];
    }
  }

  lemma {:induction false} TrimEndEmptyIffBlank(s: string)
    ensures TrimEnd(s) == "" <==> Blank(s)
  {
    if s != [] && IsTrimmable(s[|s| - 1]) {
      TrimEndEmptyIffBlank(s[..|s| - 1]);
      assert s == s[..|s| - 1] + [s[|s| - 1]];
    }
  }

  /** `s.trim() !== ''` holds exactly when `s` has a character that is not white space. */
  lemma TrimEmptyIffBlank(s: string)
    ensures Trim(s) == "" <==> Blank(s)
  {
    TrimEndEmptyIffBlank(TrimStart(s));
    TrimStartKeepsBlankness(s);
  }

  /** The value of `c` as a digit in base `radix` (10 or 16), if it is one. */
  function DigitOf(c: char, radix: nat): Option<nat> {
    if '0' <= c <= '9' && (c as int) - ('0' as int) < radix then Some((c as int) - ('0' as int))
    else if radix == 16 && 'a' <= c <= 'f' then Some((c as int) - ('a' as int) + 10)
    else if radix == 16 && 'A' <= c <= 'F' then Some((c as int) - ('A' as int) + 10)
    else None
  }

  /** Reads the leading digits of `s` in base `radix`, most significant first, onto
      `acc`; `None` when no digit was read at all. */
  function ReadDigits(s: string, radix: nat, acc: nat, seen: bool): Option<nat>
  {
    if s != [] && DigitOf(s[0], radix).Some? then ReadDigits(s[1..], radix, acc * radix + DigitOf(s[0], radix).value, true)
    else if seen then Some(acc) else None
  }

  /** The digits after the sign: hexadecimal after a `0x`/`0X` prefix, decimal otherwise,
      read as far as they go. `None` when there is no digit at all. */
  function ParseUnsigned(body: string): Option<nat> {
    if |body| >= 2 && body[0] == '0' && (body[1] == 'x' || body[1] == 'X') then ReadDigits(body[2..], 16, 0, false)
    else ReadDigits(body, 10, 0, false)
  }

  /** `parseInt(s)`: leading white space, an optional sign, then `ParseUnsigned`.
      `None` is NaN. */
  function ParseInt(s: string): Option<int> {
    var t := TrimStart(s);
    var body := if t != [] && (t[0] == '-' || t[0] == '+') then t[1..] else t;
    match ParseUnsigned(body)
    case None => None
    case Some(v) =>
      var r: int := if t != [] && t[0] == '-' then -(v as int) else v;
      Some(r)
  }

  function DigitChar(d: nat): (c: char)
    requires d < 10
    ensures DigitOf(c, 10) == Some(d)
  {
    ['0', '1', '2', '3', '4', '5', '6', '7', '8', '9'][d]
  }

  function Digits(n: nat): (s: string)
    ensures s != []
    ensures forall i :: 0 <= i < |s| ==> DigitOf(s[i], 10).Some?
  {
    if n < 10 then [DigitChar(n)] else Digits(n / 10) + [DigitChar(n % 10)]
  }

  /** An integer as a template literal renders it. */
  function DecimalString(n: int): string {
    if n < 0 then "-" + Digits(-n) else Digits(n)
  }

  /** The decimal value of a string of digits read onto `acc` (a non-digit counts 0). */
  function DecimalValue(d: string, acc: nat): nat {
    if d == [] then acc
    else DecimalValue(d[1..], acc * 10 + (match DigitOf(d[0], 10) case Some(v) => v case None => 0))
  }

  lemma {:induction false} DecimalValueSnoc(d: string, c: char, acc: nat)
    requires DigitOf(c, 10).Some?
    ensures DecimalValue(d + [c], acc) == DecimalValue(d, acc) * 10 + DigitOf(c, 10).value
    decreases |d|
  {
    if d == [] {
      assert [c][1..] == [];
    } else {
      var v := match DigitOf(d[0], 10) case Some(v) => v case None => 0;
      assert (d + [c])[1..] == d[1..] + [c];
      DecimalValueSnoc(d[1..], c, acc * 10 + v);
    }
  }

  lemma {:induction false} DigitsValue(n: nat)
    ensures DecimalValue(Digits(n), 0) == n
  {
    if n >= 10 {
      DigitsValue(n / 10);
      DecimalValueSnoc(Digits(n / 10), DigitChar(n % 10), 0);
    }
  }

  lemma {:induction false} ReadAllDigits(d: string, acc: nat, seen: bool)
    requires forall i :: 0 <= i < |d| ==> DigitOf(d[i], 10).Some?
    requires d != [] || seen
    ensures ReadDigits(d, 10, acc, seen) == Some(DecimalValue(d, acc))
    decreases |d|
  {
    if d != [] {
      ReadAllDigits(d[1..], acc * 10 + DigitOf(d[0], 10).value, true);
    }
  }

  lemma DigitNotTrimmable(c: char)
    requires DigitOf(c, 10).Some?
    ensures !IsTrimmable(c) && c != '-' && c != '+'
  {
  }

  lemma ParseDigits(d: string)
    requires d != []
    requires forall i :: 0 <= i < |d| ==> DigitOf(d[i], 10).Some?
    ensures ParseInt(d) == Some(DecimalValue(d, 0) as int)
  {
    DigitNotTrimmable(d[0]);
    assert TrimStart(d) == d;
    assert !(|d| >= 2 && d[0] == '0' && (d[1] == 'x' || d[1] == 'X')) by {
      if |d| >= 2 { assert DigitOf(d[1], 10).Some?; }
    }
    ReadAllDigits(d, 0, false);
  }

  /** Reading back what `DecimalString` wrote for a count or an epoch time gives the
      same number. */
  lemma ParseDecimalString(n: nat)
    ensures ParseInt(DecimalString(n)) == Some(n)
  {
    DigitsValue(n);
    ParseDigits(Digits(n));
  }
}
