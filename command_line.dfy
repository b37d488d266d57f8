/** The native renderer's command line: the first argument after the
    program name that starts with `--complexity=` selects the level, read
    the way C's atoi reads a number. */
module CommandLine {
  const ComplexityPrefix: string := "--complexity="

  /** What the command line yields when no argument selects a level. */
  const NoComplexity: int := -1

  /** isspace in the C locale. */
  predicate IsSpace(c: char) {
    c == ' ' || c == '\t' || c == '\n' || c == '\U{000B}' || c == '\U{000C}' || c == '\r'
  }

  predicate IsDigit(c: char) {
    '0' <= c <= '9'
  }

  predicate AllDigits(s: string) {
    forall i :: 0 <= i < |s| ==> IsDigit(s[i])
  }

  function DigitValue(c: char): (d: int)
    requires IsDigit(c)
    ensures 0 <= d <= 9
  {
    c as int - '0' as int
  }

  function DigitChar(d: int): (c: char)
    requires 0 <= d <= 9
    ensures IsDigit(c) && DigitValue(c) == d
  {
    ('0' as int + d) as char
  }

  /** `s` without its leading white space. */
  function SkipSpaces(s: string): (t: string)
    ensures |t| <= |s| && t == s[|s| - |t|..]
    ensures t == [] || !IsSpace(t[0])
    ensures s != [] && !IsSpace(s[0]) ==> t == s
    ensures forall i :: 0 <= i < |s| - |t| ==> IsSpace(s[i])
  {
    if s != [] && IsSpace(s[0]) then
      var t := SkipSpaces(s[1..]);
      assert forall i :: 1 <= i < |s| - |t| ==> s[i] == s[1..][i - 1];
      t
    else s
  }

  /** The length of the run of decimal digits that starts `s`. */
  function DigitRun(s: string): (n: nat)
    ensures n <= |s| && AllDigits(s[..n])
    ensures n < |s| ==> !IsDigit(s[n])
  {
    if s != [] && IsDigit(s[0]) then
      var rest := DigitRun(s[1..]);
      assert s[..1 + rest] == [s[0]] + s[1..][..rest];
      1 + rest
    else 0
  }

  /** The value of a string of decimal digits, most significant first. */
  function DecimalValue(digits: string): (v: nat)
    requires AllDigits(digits)
  {
    if digits == [] then 0
    else DecimalValue(digits[..|digits| - 1]) * 10 + DigitValue(digits[|digits| - 1])
  }

  /** atoi: leading white space is skipped, then an optional sign, then the
      longest run of decimal digits is read; no digits read as zero. */
  function Atoi(s: string): (r: int)
    ensures r < 0 ==> var t := SkipSpaces(s); t != [] && t[0] == '-'
  {
    var t := SkipSpaces(s);
    if t != [] && (t[0] == '-' || t[0] == '+') then
      var digits := t[1..];
      var magnitude: int := DecimalValue(digits[..DigitRun(digits)]);
      if t[0] == '-' then -magnitude else magnitude
    else DecimalValue(t[..DigitRun(t)])
  }

  /** The decimal numeral of a natural number, without leading zeros. */
  function DecimalDigits(n: nat): (s: string)
    ensures s != [] && AllDigits(s)
    ensures n > 0 ==> s[0] != '0'
  {
    if n < 10 then [DigitChar(n)] else DecimalDigits(n / 10) + [DigitChar(n % 10)]
  }

  /** The numeral of an integer, with a minus sign when it is negative. */
  function DecimalString(n: int): string {
    if n < 0 then "-" + DecimalDigits(-n) else DecimalDigits(n)
  }

  lemma {:induction false} DecimalValueOfDigits(n: nat)
    ensures DecimalValue(DecimalDigits(n)) == n
  {
    if n >= 10 {
      DecimalValueOfDigits(n / 10);
      var s := DecimalDigits(n);
      assert s[..|s| - 1] == DecimalDigits(n / 10);
    }
  }

  /** The digit run of a numeral followed by a non-digit is the numeral. */
  lemma {:induction false} DigitRunOfNumeral(digits: string, rest: string)
    requires AllDigits(digits) && (rest == [] || !IsDigit(rest[0]))
    ensures DigitRun(digits + rest) == |digits|
    decreases |digits|
  {
    if digits == [] {
      assert digits + rest == rest;
    } else {
      assert (digits + rest)[1..] == digits[1..] + rest;
      DigitRunOfNumeral(digits[1..], rest);
    }
  }

  /** atoi reads back every numeral, whatever non-digit text follows it. */
  lemma AtoiReadsNumeral(n: int, rest: string)
    requires rest == [] || !IsDigit(rest[0])
    ensures Atoi(DecimalString(n) + rest) == n
  {
    if n < 0 {
      AtoiReadsNegative(-n, rest);
    } else {
      DecimalValueOfDigits(n);
      AtoiOfDigits(DecimalDigits(n), rest);
    }
  }

  lemma AtoiReadsNegative(m: nat, rest: string)
    requires m > 0 && (rest == [] || !IsDigit(rest[0]))
    ensures Atoi(DecimalString(0 - m) + rest) == 0 - m
  {
    var digits := DecimalDigits(m);
    assert DecimalString(0 - m) + rest == "-" + (digits + rest);
    DecimalValueOfDigits(m);
    AtoiOfNegative(digits, rest);
  }

  lemma AtoiOfDigits(digits: string, rest: string)
    requires digits != [] && AllDigits(digits) && (rest == [] || !IsDigit(rest[0]))
    ensures Atoi(digits + rest) == DecimalValue(digits)
  {
    var s := digits + rest;
    assert s[0] == digits[0];
    AtoiUnsigned(s);
    DigitRunOfNumeral(digits, rest);
    assert s[..DigitRun(s)] == digits;
  }

  lemma AtoiOfNegative(digits: string, rest: string)
    requires digits != [] && AllDigits(digits) && (rest == [] || !IsDigit(rest[0]))
    ensures Atoi("-" + (digits + rest)) == -(DecimalValue(digits) as int)
  {
    var s := "-" + (digits + rest);
    AtoiMinus(s);
    assert s[1..] == digits + rest;
    DigitRunOfNumeral(digits, rest);
    assert s[1..][..DigitRun(s[1..])] == digits;
  }

  /** atoi on text that starts with a digit. */
  lemma AtoiUnsigned(s: string)
    requires s != [] && IsDigit(s[0])
    ensures Atoi(s) == DecimalValue(s[..DigitRun(s)])
  {
    assert !IsSpace(s[0]) && SkipSpaces(s) == s;
  }

  /** atoi on text that starts with a minus sign. */
  lemma AtoiMinus(s: string)
    requires s != [] && s[0] == '-'
    ensures Atoi(s) == -(DecimalValue(s[1..][..DigitRun(s[1..])]) as int)
  {
    assert SkipSpaces(s) == s;
  }

  /** Leading white space does not change what atoi reads. */
  lemma AtoiSkipsSpace(c: char, s: string)
    requires IsSpace(c)
    ensures Atoi([c] + s) == Atoi(s)
  {
    assert ([c] + s)[1..] == s;
  }

  /** Text that does not start with a sign or a digit reads as zero. */
  lemma AtoiWithoutNumber(s: string)
    requires s != [] && !IsSpace(s[0]) && !IsDigit(s[0]) && s[0] != '-' && s[0] != '+'
    ensures Atoi(s) == 0
  {
  }

  /** strncmp(arg, prefix, |prefix|) == 0. */
  predicate HasPrefix(arg: string, prefix: string) {
    |prefix| <= |arg| && arg[..|prefix|] == prefix
  }

  /** The level the arguments from index `from` on select: the number after
      the prefix in the first one that carries it, or -1. */
  function SelectedFrom(argv: seq<string>, from: nat): (r: int)
    decreases |argv| - from
  {
    if from >= |argv| then NoComplexity
    else if HasPrefix(argv[from], ComplexityPrefix) then Atoi(argv[from][|ComplexityPrefix|..])
    else SelectedFrom(argv, from + 1)
  }

  /** The level the command line selects; the program name is skipped. */
  function SelectedComplexity(argv: seq<string>): (r: int)
    ensures |argv| <= 1 ==> r == NoComplexity
    ensures r != NoComplexity ==> exists k :: 1 <= k < |argv| && HasPrefix(argv[k], ComplexityPrefix)
  {
    SelectionHasPrefix(argv, 1);
    SelectedFrom(argv, 1)
  }

  /** A level other than -1 comes from an argument carrying the prefix. */
  lemma {:induction false} SelectionHasPrefix(argv: seq<string>, from: nat)
    ensures SelectedFrom(argv, from) != NoComplexity ==>
      exists k :: from <= k < |argv| && HasPrefix(argv[k], ComplexityPrefix)
    decreases |argv| - from
  {
    if from < |argv| && !HasPrefix(argv[from], ComplexityPrefix) {
      SelectionHasPrefix(argv, from + 1);
    }
  }

  /** Without an argument carrying the prefix the result is -1. */
  lemma {:induction false} NoPrefixNoComplexity(argv: seq<string>, from: nat)
    requires forall i :: from <= i < |argv| ==> !HasPrefix(argv[i], ComplexityPrefix)
    ensures SelectedFrom(argv, from) == NoComplexity
    decreases |argv| - from
  {
    if from < |argv| {
      NoPrefixNoComplexity(argv, from + 1);
    }
  }

  /** The first argument carrying the prefix decides, whatever follows. */
  lemma {:induction false} FirstPrefixDecides(argv: seq<string>, from: nat, k: nat)
    requires from <= k < |argv| && HasPrefix(argv[k], ComplexityPrefix)
    requires forall i :: from <= i < k ==> !HasPrefix(argv[i], ComplexityPrefix)
    ensures SelectedFrom(argv, from) == Atoi(argv[k][|ComplexityPrefix|..])
    decreases k - from
  {
    if from < k {
      FirstPrefixDecides(argv, from + 1, k);
    }
  }

  /** parseComplexityArg: scans argv[1..] for the first argument carrying
      the prefix and reads the number after it. */
  method ParseComplexityArg(argv: seq<string>) returns (complexity: int)
    ensures complexity == SelectedComplexity(argv)
  {
    var i := 1;
    while i < |argv|
      invariant 1 <= i
      invariant SelectedFrom(argv, i) == SelectedFrom(argv, 1)
      decreases |argv| - i
    {
      if HasPrefix(argv[i], ComplexityPrefix) {
        return Atoi(argv[i][|ComplexityPrefix|..]);
      }
      i := i + 1;
    }
    return NoComplexity;
  }

  /** The command line without any argument selects nothing. */
  lemma ProgramNameOnly()
    ensures SelectedComplexity(["motionmark"]) == NoComplexity
  {
  }

  /** `--complexity=12` after the program name selects level 12. */
  lemma SelectsTwelve()
    ensures SelectedComplexity(["motionmark", "--complexity=12"]) == 12
  {
    var arg := "--complexity=12";
    assert arg[..|ComplexityPrefix|] == ComplexityPrefix;
    assert arg[|ComplexityPrefix|..] == DecimalString(12) + "";
    AtoiReadsNumeral(12, "");
    FirstPrefixDecides(["motionmark", arg], 1, 1);
  }

  /** The program name is never read as an option, even when it looks like
      one. */
  lemma ProgramNameSkipped()
    ensures SelectedComplexity(["--complexity=3"]) == NoComplexity
  {
  }
}
