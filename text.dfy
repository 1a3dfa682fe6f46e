/** Ruby string operations that the graph model relies on: Integer#to_s,
    String#to_i, Array#join(':'), String#split(':') and the line-anchored,
    case-insensitive match against /^(1|true)$/i. */
module Text {

  predicate IsDigit(c: char) { '0' <= c <= '9' }

  /** The characters Ruby's String#to_i skips before the number: space, \t, \n, \v, \f, \r. */
  predicate IsSpace(c: char) { c == ' ' || '\t' <= c <= '\r' }

  predicate AllDigits(s: string) { forall i :: 0 <= i < |s| ==> IsDigit(s[i]) }

  function DigitChar(d: nat): char
    requires d < 10
  {
    ('0' as int + d) as char
  }

  function DigitValue(c: char): nat
    requires IsDigit(c)
  {
    c as int - '0' as int
  }

  // ---------------------------------------------------------------------
  // Integer#to_s and String#to_i
  // ---------------------------------------------------------------------

  /** Decimal digits of a natural number, most significant first, no leading zeros. */
  function NatToStr(n: nat): (s: string)
    ensures |s| >= 1 && AllDigits(s)
  {
    if n < 10 then [DigitChar(n)] else NatToStr(n / 10) + [DigitChar(n % 10)]
  }

  /** Integer#to_s: a minus sign before the digits of a negative number. */
  function IntToStr(n: int): (s: string)
    ensures |s| >= 1 && (IsDigit(s[0]) || s[0] == '-')
  {
    if n < 0 then "-" + NatToStr(-n) else NatToStr(n)
  }

  /** The value of a run of decimal digits. */
  function DigitsValue(ds: string): nat
    requires AllDigits(ds)
  {
    if ds == [] then 0 else DigitsValue(ds[..|ds| - 1]) * 10 + DigitValue(ds[|ds| - 1])
  }

  /** The digits String#to_i reads: a maximal run of decimal digits in which a
      single underscore between two digits is skipped. */
  function LeadingDigits(s: string): (ds: string)
    ensures AllDigits(ds) && |ds| <= |s|
  {
    if |s| == 0 || !IsDigit(s[0]) then []
    else if |s| >= 3 && s[1] == '_' && IsDigit(s[2]) then [s[0]] + LeadingDigits(s[2..])
    else [s[0]] + LeadingDigits(s[1..])
  }

  function SkipSpace(s: string): (t: string)
    ensures |t| <= |s|
    ensures t == [] || !IsSpace(t[0])
  {
    if |s| > 0 && IsSpace(s[0]) then SkipSpace(s[1..]) else s
  }

  /** The unsigned part of String#to_i in base 10: an optional 0d or 0D radix
      prefix, then the leading digits. */
  function UnsignedToI(t: string): nat
  {
    if |t| >= 2 && t[0] == '0' && (t[1] == 'd' || t[1] == 'D') then DigitsValue(LeadingDigits(t[2..]))
    else DigitsValue(LeadingDigits(t))
  }

  /** String#to_i in base 10: leading white space, an optional sign, then the
      unsigned part; a string with no digits there gives 0. */
  function StrToI(s: string): (n: int)
    ensures AllDigits(s) ==> n == DigitsValue(s)
  {
    DigitsReadAsValue(s);
    var t := SkipSpace(s);
    if |t| > 0 && t[0] == '-' then -(UnsignedToI(t[1..]) as int)
    else if |t| > 0 && t[0] == '+' then UnsignedToI(t[1..])
    else UnsignedToI(t)
  }

  lemma {:induction false} LeadingDigitsOfDigits(ds: string)
    requires AllDigits(ds)
    ensures LeadingDigits(ds) == ds
  {
    if |ds| > 0 {
      assert ds[1..] == ds[1..] && AllDigits(ds[1..]);
      LeadingDigitsOfDigits(ds[1..]);
      assert !(|ds| >= 3 && ds[1] == '_');
    }
  }

  lemma {:induction false} DigitsValueOfNat(n: nat)
    ensures DigitsValue(NatToStr(n)) == n
  {
    if n >= 10 {
      var s := NatToStr(n);
      assert s[..|s| - 1] == NatToStr(n / 10);
      DigitsValueOfNat(n / 10);
    }
  }

  /** A run of digits has no radix prefix and reads as its own value. */
  lemma UnsignedToIOfDigits(ds: string)
    requires AllDigits(ds)
    ensures UnsignedToI(ds) == DigitsValue(ds)
  {
    LeadingDigitsOfDigits(ds);
    assert |ds| >= 2 ==> IsDigit(ds[1]);
  }

  /** UnsignedToIOfDigits, for the case where its precondition holds; a run of
      digits starts with neither white space nor a sign. */
  lemma DigitsReadAsValue(s: string)
    ensures AllDigits(s) ==> SkipSpace(s) == s && UnsignedToI(s) == DigitsValue(s)
  {
    if AllDigits(s) {
      UnsignedToIOfDigits(s);
      assert s != [] ==> IsDigit(s[0]);
    }
  }

  /** String#to_i inverts Integer#to_s: an id written into a descriptor reads back as the same id. */
  lemma StrToIOfIntToStr(n: int)
    ensures StrToI(IntToStr(n)) == n
  {
    var m: nat := if n < 0 then -n else n;
    var ds := NatToStr(m);
    UnsignedToIOfDigits(ds);
    DigitsValueOfNat(m);
    if n < 0 {
      assert ("-" + ds)[1..] == ds;
    } else {
      assert IsDigit(ds[0]);
    }
  }

  // ---------------------------------------------------------------------
  // Array#join(sep) over strings and String#split(sep)
  // ---------------------------------------------------------------------

  /** ss.join(sep) for an array of strings. */
  function Join(ss: seq<string>, sep: char): string
  {
    if |ss| == 0 then "" else if |ss| == 1 then ss[0] else ss[0] + [sep] + Join(ss[1..], sep)
  }

  /** Every piece between separators, empty ones included: the split with a negative limit. */
  function Split(s: string, sep: char): (ps: seq<string>)
    ensures |ps| >= 1
  {
    if s == [] then [[]]
    else
      var rest := Split(s[1..], sep);
      if s[0] == sep then [[]] + rest else [[s[0]] + rest[0]] + rest[1..]
  }

  function DropTrailingEmpty(ps: seq<string>): (r: seq<string>)
    ensures |r| <= |ps| && r == ps[..|r|]
    ensures r == [] || r[|r| - 1] != []
  {
    if ps != [] && ps[|ps| - 1] == [] then DropTrailingEmpty(ps[..|ps| - 1]) else ps
  }

  /** s.split(sep) for a one-character string separator: the pieces, with trailing
      empty pieces removed (so "" splits into no pieces at all). */
  function RubySplit(s: string, sep: char): (r: seq<string>)
    ensures forall i :: 0 <= i < |r| ==> sep !in r[i]
    ensures r == [] || r[|r| - 1] != []
  {
    SplitPiecesFree(s, sep);
    DropTrailingEmpty(Split(s, sep))
  }

  /** No piece of a split holds the separator. */
  lemma {:induction false} SplitPiecesFree(s: string, sep: char)
    ensures forall i :: 0 <= i < |Split(s, sep)| ==> sep !in Split(s, sep)[i]
  {
    if s != [] {
      SplitPiecesFree(s[1..], sep);
    }
  }

  /** Joining is associative across the boundary: the last piece of a is
      followed by one separator and the first piece of b. */
  lemma {:induction false} JoinAppend(a: seq<string>, b: seq<string>, sep: char)
    requires |a| >= 1 && |b| >= 1
    ensures Join(a + b, sep) == Join(a, sep) + [sep] + Join(b, sep)
  {
    if |a| > 1 {
      assert (a + b)[1..] == a[1..] + b;
      JoinAppend(a[1..], b, sep);
    } else {
      assert (a + b)[1..] == b;
    }
  }

  lemma {:induction false} SplitFree(s: string, sep: char)
    requires sep !in s
    ensures Split(s, sep) == [s]
  {
    if s != [] {
      SplitFree(s[1..], sep);
      assert s[0] != sep && [s[0]] + s[1..] == s;
    }
  }

  lemma {:induction false} SplitCons(a: string, rest: string, sep: char)
    requires sep !in a
    ensures Split(a + [sep] + rest, sep) == [a] + Split(rest, sep)
  {
    if a == [] {
      assert a + [sep] + rest == [sep] + rest;
      assert ([sep] + rest)[1..] == rest;
    } else {
      assert (a + [sep] + rest)[1..] == a[1..] + [sep] + rest;
      SplitCons(a[1..], rest, sep);
      assert (a + [sep] + rest)[0] == a[0] != sep;
      assert [a[0]] + a[1..] == a;
    }
  }

  /** Splitting undoes joining when no piece contains the separator. */
  lemma {:induction false} SplitJoin(ss: seq<string>, sep: char)
    requires |ss| >= 1
    requires forall i :: 0 <= i < |ss| ==> sep !in ss[i]
    ensures Split(Join(ss, sep), sep) == ss
  {
    if |ss| == 1 {
      SplitFree(ss[0], sep);
    } else {
      SplitJoin(ss[1..], sep);
      SplitCons(ss[0], Join(ss[1..], sep), sep);
    }
  }

  /** Ruby's split undoes joining when no piece contains the separator and the
      last piece is not empty, so no trailing piece is dropped. */
  lemma RubySplitJoin(ss: seq<string>, sep: char)
    requires |ss| >= 1 && ss[|ss| - 1] != []
    requires forall i :: 0 <= i < |ss| ==> sep !in ss[i]
    ensures RubySplit(Join(ss, sep), sep) == ss
  {
    SplitJoin(ss, sep);
  }

  // ---------------------------------------------------------------------
  // stack =~ /^(1|true)$/i
  // ---------------------------------------------------------------------

  function Lower(c: char): char
  {
    if 'A' <= c <= 'Z' then (c as int - 'A' as int + 'a' as int) as char else c
  }

  /** A whole line the pattern accepts: "1", or "true" in any mix of cases. */
  predicate IsStackWord(line: string)
  {
    line == "1" || (|line| == 4 && Lower(line[0]) == 't' && Lower(line[1]) == 'r'
                                 && Lower(line[2]) == 'u' && Lower(line[3]) == 'e')
  }

  /** token =~ /^(1|true)$/i: in Ruby ^ and $ anchor at line boundaries, so the
      token matches when one of its lines is a stack word. */
  function MatchesStack(token: string): (r: bool)
    ensures IsStackWord(token) ==> r
  {
    StackWordOneLine(token);
    var lines := Split(token, '\n');
    assert IsStackWord(token) ==> IsStackWord(lines[0]);
    exists i :: 0 <= i < |lines| && IsStackWord(lines[i])
  }

  /** A stack word is a single line. */
  lemma StackWordOneLine(token: string)
    ensures IsStackWord(token) ==> Split(token, '\n') == [token]
  {
    if IsStackWord(token) {
      assert '\n' !in token;
      SplitFree(token, '\n');
    }
  }

  /** For a one-line token the match is exactly "1" or a case variant of "true". */
  lemma MatchesStackOneLine(token: string)
    requires '\n' !in token
    ensures MatchesStack(token) <==> token == "1" || (|token| == 4 && Lower(token[0]) == 't' && Lower(token[1]) == 'r'
                                                      && Lower(token[2]) == 'u' && Lower(token[3]) == 'e')
  {
    SplitFree(token, '\n');
    assert Split(token, '\n')[0] == token;
  }
}
