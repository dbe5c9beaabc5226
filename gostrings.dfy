/** The parts of Go's strings and fmt packages that the core calls:
    strings.TrimSpace, strings.ToUpper, strings.HasPrefix, strings.Repeat,
    the `MONTHLY_%d` scan of fmt.Sscanf, decimal formatting and the `%s`
    verb of fmt.Sprintf. Strings are sequences of Unicode
    scalar values. */
module GoStrings {
  import opened Wrappers
  import opened Numeric

  /** unicode.IsSpace (also fmt's notion of a space): the White_Space characters. */
  predicate IsSpace(c: char) {
    ('\t' <= c <= '\r') || c == ' ' || c == '\U{0085}' || c == '\U{00A0}' || c == '\U{1680}'
    || ('\U{2000}' <= c <= '\U{200A}') || c == '\U{2028}' || c == '\U{2029}'
    || c == '\U{202F}' || c == '\U{205F}' || c == '\U{3000}'
  }

  /** Leading white space removed. */
  function TrimLeft(s: string): (r: string)
    ensures |r| <= |s| && r == s[|s| - |r|..]
    ensures forall k :: 0 <= k < |s| - |r| ==> IsSpace(s[k])
    ensures r == [] || !IsSpace(r[0])
  {
    if s != [] && IsSpace(s[0]) then TrimLeft(s[1..]) else s
  }

  /** Trailing white space removed. */
  function TrimRight(s: string): (r: string)
    ensures |r| <= |s| && r == s[..|r|]
    ensures forall k :: |r| <= k < |s| ==> IsSpace(s[k])
    ensures r == [] || !IsSpace(r[|r| - 1])
  {
    if s != [] && IsSpace(s[|s| - 1]) then TrimRight(s[..|s| - 1]) else s
  }

  /** strings.TrimSpace: the slice of s between its leading and trailing white space. */
  function TrimSpace(s: string): (r: string)
    ensures |r| <= |TrimLeft(s)| <= |s| && r == s[|s| - |TrimLeft(s)|..|s| - |TrimLeft(s)| + |r|]
    ensures r == [] || (!IsSpace(r[0]) && !IsSpace(r[|r| - 1]))
  {
    TrimRight(TrimLeft(s))
  }

  /** True when s contains a character that is not white space. */
  predicate HasNonSpace(s: string) {
    exists k :: 0 <= k < |s| && !IsSpace(s[k])
  }

  lemma TrimLeftEmptyIff(s: string)
    ensures TrimLeft(s) == [] <==> !HasNonSpace(s)
  {
    var r := TrimLeft(s);
    if r != [] {
      assert s[|s| - |r|] == r[0];
    }
  }

  /** strings.TrimSpace(s) != "" exactly when s has a non-space character. */
  lemma TrimSpaceEmptyIff(s: string)
    ensures TrimSpace(s) == [] <==> !HasNonSpace(s)
  {
    TrimLeftEmptyIff(s);
    var l := TrimLeft(s);
    if l != [] {
      assert !IsSpace(l[0]);
    }
  }

  /** A string without white space at its ends is its own TrimSpace. */
  lemma TrimSpaceOfTrimmed(s: string)
    requires s != [] && !IsSpace(s[0]) && !IsSpace(s[|s| - 1])
    ensures TrimSpace(s) == s
  {
    assert TrimLeft(s) == s;
    assert TrimRight(s) == s;
  }

  /** unicode.ToUpper restricted to what can matter here: ASCII letters, and
      the two non-ASCII letters whose capital is ASCII (dotless i, long s).
      Every other character is kept; its Go capital is not ASCII either. */
  function UpperChar(c: char): char {
    if 'a' <= c <= 'z' then (c as int - 32) as char
    else if c == '\U{0131}' then 'I'
    else if c == '\U{017F}' then 'S'
    else c
  }

  /** strings.ToUpper, rune by rune. */
  function ToUpper(s: string): (r: string)
    ensures |r| == |s|
  {
    seq(|s|, i requires 0 <= i < |s| => UpperChar(s[i]))
  }

  /** ToUpper leaves an upper-case ASCII string as it is. */
  lemma ToUpperFixesCapitals(s: string)
    requires forall i :: 0 <= i < |s| ==> !('a' <= s[i] <= 'z') && s[i] < '\U{0080}'
    ensures ToUpper(s) == s
  {
  }

  predicate HasPrefix(s: string, p: string) {
    |p| <= |s| && s[..|p|] == p
  }

  predicate IsDigit(c: char) {
    '0' <= c <= '9'
  }

  /** fmt's SkipSpace in Sscanf: spaces are skipped, but a newline stops the scan. */
  function SkipSpace(s: string): (r: string)
    ensures |r| <= |s| && r == s[|s| - |r|..]
  {
    if s != [] && IsSpace(s[0]) && s[0] != '\n' then SkipSpace(s[1..]) else s
  }

  /** Number of leading decimal digits. */
  function DigitRun(s: string): (k: nat)
    ensures k <= |s|
    ensures forall i :: 0 <= i < k ==> IsDigit(s[i])
    ensures k == |s| || !IsDigit(s[k])
  {
    if s != [] && IsDigit(s[0]) then 1 + DigitRun(s[1..]) else 0
  }

  /** Value of a string of decimal digits (most significant first). */
  function DecimalValue(ds: string): nat
    requires forall i :: 0 <= i < |ds| ==> IsDigit(ds[i])
  {
    if ds == [] then 0
    else
      assert IsDigit(ds[|ds| - 1]);
      10 * DecimalValue(ds[..|ds| - 1]) + (ds[|ds| - 1] as int - '0' as int)
  }

  /** The %d verb of fmt.Sscanf on s: optional spaces (no newline), an optional
      sign, one or more decimal digits, and a value that fits a 64-bit int.
      None is a scan error, after which the target variable is not assigned. */
  function ScanDecimal(s: string): (r: Option<int>)
    ensures r.Some? ==> MinInt64 <= r.value <= MaxInt64
  {
    var t := SkipSpace(s);
    var signed := t != [] && (t[0] == '+' || t[0] == '-');
    var u := if signed then t[1..] else t;
    var k := DigitRun(u);
    if k == 0 then None
    else
      var magnitude := DecimalValue(u[..k]);
      var v: int := if signed && t[0] == '-' then -(magnitude as int) else magnitude;
      if MinInt64 <= v <= MaxInt64 then Some(v) else None
  }

  /** fmt.Sscanf(s, "MONTHLY_%d", &n): the literal must match exactly (case
      sensitive), then the %d verb; characters after the number are ignored. */
  function ScanMonthly(s: string): (r: Option<int>)
    ensures r.Some? ==> HasPrefix(s, "MONTHLY_")
  {
    if HasPrefix(s, "MONTHLY_") then ScanDecimal(s[8..]) else None
  }

  lemma SkipSpaceThree()
    ensures SkipSpace("3") == "3"
  {
  }

  lemma DigitRunThree()
    ensures DigitRun("3") == 1
  {
    assert "3"[1..] == [];
  }

  lemma ValueOfThree()
    ensures DecimalValue("3") == 3
  {
    assert "3"[..0] == [];
  }

  lemma ScanDecimalThree()
    ensures ScanDecimal("3") == Some(3)
  {
    SkipSpaceThree();
    DigitRunThree();
    ValueOfThree();
    assert "3"[..1] == "3";
  }

  lemma ScanMonthlyThree()
    ensures ScanMonthly("MONTHLY_3") == Some(3)
  {
    ScanDecimalThree();
    assert HasPrefix("MONTHLY_3", "MONTHLY_") by { assert "MONTHLY_3"[..8] == "MONTHLY_"; }
    assert "MONTHLY_3"[8..] == "3";
  }

  /** The literal part of the format is case sensitive. */
  lemma ScanMonthlyLowerCase()
    ensures ScanMonthly("monthly_3") == None
  {
    assert "monthly_3"[0] != "MONTHLY_"[0];
  }

  /** The decimal digits of n, most significant first, without leading zeros (fmt's %d). */
  function FormatNat(n: nat): (r: string)
    ensures |r| >= 1
    ensures forall i :: 0 <= i < |r| ==> IsDigit(r[i])
    decreases n
  {
    var last := ('0' as int + n % 10) as char;
    if n < 10 then [last] else FormatNat(n / 10) + [last]
  }

  /** Parsing the formatted digits gives the number back. */
  lemma {:induction false} FormatNatRoundTrip(n: nat)
    ensures DecimalValue(FormatNat(n)) == n
    decreases n
  {
    var r := FormatNat(n);
    if n >= 10 {
      FormatNatRoundTrip(n / 10);
      assert r[..|r| - 1] == FormatNat(n / 10);
    } else {
      assert r[..0] == [];
    }
  }

  /** fmt's %d of an int: a minus sign before the digits of a negative number. */
  function FormatInt(n: int): (r: string)
    ensures n >= 0 ==> r == FormatNat(n)
    ensures n < 0 ==> r == "-" + FormatNat(-n)
  {
    if n < 0 then "-" + FormatNat(-n) else FormatNat(n)
  }

  /** strings.Repeat(s, count): None stands for its panic on a negative count. */
  function Repeat(s: string, count: int): (r: Option<string>)
    ensures count < 0 <==> r.None?
    ensures r.Some? ==> |r.value| == count * |s|
    decreases if count < 0 then 0 else count
  {
    if count < 0 then None
    else if count == 0 then Some("")
    else
      var rest := Repeat(s, count - 1).value;
      Some(s + rest)
  }

  /** Number of occurrences of c in s. */
  function CountChar(s: string, c: char): nat {
    if s == [] then 0 else CountChar(s[..|s| - 1], c) + (if s[|s| - 1] == c then 1 else 0)
  }

  lemma {:induction false} CountCharAppend(a: string, b: string, c: char)
    ensures CountChar(a + b, c) == CountChar(a, c) + CountChar(b, c)
    decreases |b|
  {
    if b == [] {
      assert a + b == a;
    } else {
      assert (a + b)[..|a + b| - 1] == a + b[..|b| - 1];
      CountCharAppend(a, b[..|b| - 1], c);
    }
  }

  /** Repeating a string repeats each of its characters. */
  lemma {:induction false} RepeatCount(s: string, count: nat, c: char)
    ensures CountChar(Repeat(s, count).value, c) == count * CountChar(s, c)
    decreases count
  {
    if count > 0 {
      var rest := Repeat(s, count - 1).value;
      var k := CountChar(s, c);
      RepeatCount(s, count - 1, c);
      CountCharAppend(s, rest, c);
      assert Repeat(s, count).value == s + rest;
      assert count * k == (count - 1) * k + k;
    }
  }

  /** fmt.Sprintf for formats whose only verb is %s: each %s takes the next
      argument, and one with no argument left prints %!s(MISSING). */
  function SprintfS(format: string, args: seq<string>): string
    decreases |format|
  {
    if format == [] then ""
    else if |format| >= 2 && format[0] == '%' && format[1] == 's' then
      (if args == [] then "%!s(MISSING)" else args[0]) + SprintfS(format[2..], if args == [] then [] else args[1..])
    else [format[0]] + SprintfS(format[1..], args)
  }

  /** Text without a % sign is copied as it is. */
  lemma {:induction false} SprintfLiteral(t: string, rest: string, args: seq<string>)
    requires '%' !in t
    ensures SprintfS(t + rest, args) == t + SprintfS(rest, args)
    decreases |t|
  {
    if t != [] {
      var f := t + rest;
      assert t[0] in t;
      assert f[0] == t[0] && f[0] != '%';
      assert '%' !in t[1..] by {
        forall i | 0 <= i < |t| - 1 ensures t[1..][i] != '%' {
          assert t[1..][i] == t[i + 1] && t[i + 1] in t;
        }
      }
      assert f[1..] == t[1..] + rest;
      SprintfLiteral(t[1..], rest, args);
      var x := SprintfS(rest, args);
      assert SprintfS(f, args) == [t[0]] + (t[1..] + x);
      assert [t[0]] + (t[1..] + x) == ([t[0]] + t[1..]) + x;
      assert t == [t[0]] + t[1..];
    } else {
      assert t + rest == rest;
    }
  }

  /** A %s verb consumes one argument, or prints %!s(MISSING) when none is left. */
  lemma SprintfVerb(rest: string, args: seq<string>)
    ensures SprintfS("%s" + rest, args)
         == (if args == [] then "%!s(MISSING)" else args[0]) + SprintfS(rest, if args == [] then [] else args[1..])
  {
    assert ("%s" + rest)[2..] == rest;
  }

  /** A %s verb followed by literal text. */
  lemma SprintfVerbTail(t: string, args: seq<string>)
    requires '%' !in t
    ensures SprintfS("%s" + t, args) == (if args == [] then "%!s(MISSING)" else args[0]) + t
  {
    var more := if args == [] then [] else args[1..];
    SprintfVerb(t, args);
    SprintfLiteral(t, "", more);
    assert t + "" == t;
    assert SprintfS("", more) == "";
  }

  /** Five-way concatenation, regrouped to the right. */
  lemma Assoc5(a: string, b: string, c: string, d: string, e: string)
    ensures a + b + c + d + e == a + (b + (c + (d + e)))
  {
  }

  /** A format with two %s verbs between literal pieces. */
  lemma SprintfTwoVerbs(h: string, m: string, t: string, args: seq<string>)
    requires '%' !in h && '%' !in m && '%' !in t
    ensures var first := if args == [] then "%!s(MISSING)" else args[0];
            var more := if args == [] then [] else args[1..];
            var second := if more == [] then "%!s(MISSING)" else more[0];
            SprintfS(h + "%s" + m + "%s" + t, args) == h + first + m + second + t
  {
    var first := if args == [] then "%!s(MISSING)" else args[0];
    var more := if args == [] then [] else args[1..];
    var second := if more == [] then "%!s(MISSING)" else more[0];
    var f2 := "%s" + t;
    var f1 := m + f2;
    var f0 := "%s" + f1;
    Assoc5(h, "%s", m, "%s", t);
    Assoc5(h, first, m, second, t);
    SprintfLiteral(h, f0, args);
    SprintfVerb(f1, args);
    SprintfLiteral(m, f2, more);
    SprintfVerbTail(t, more);
  }
}
