/** Python text: decimal integers in both directions, `str.split` and `str.join` on one
    separator character, `str.upper` as far as ASCII text can observe it. */
module TextCodec {
  import opened Outcomes

  predicate Ascii(s: string) {
    forall i :: 0 <= i < |s| ==> s[i] as int < 128
  }

  // ---------------------------------------------------------------------------
  // Decimal integers
  // ---------------------------------------------------------------------------

  predicate IsDigit(c: char) {
    '0' <= c <= '9'
  }

  predicate AllDigits(s: string) {
    forall i :: 0 <= i < |s| ==> IsDigit(s[i])
  }

  function DigitChar(d: nat): (c: char)
    requires d < 10
    ensures IsDigit(c) && DigitValue(c) == d
  {
    d as char + '0'
  }

  function DigitValue(c: char): (d: nat)
    requires IsDigit(c)
    ensures d < 10
  {
    (c - '0') as nat
  }

  function PrintNat(n: nat): (s: string)
    ensures s != "" && AllDigits(s)
  {
    if n < 10 then [DigitChar(n)] else PrintNat(n / 10) + [DigitChar(n % 10)]
  }

  /** `str(n)` */
  function PrintInt(n: int): string {
    if n < 0 then "-" + PrintNat(-n) else PrintNat(n)
  }

  /** Numbers are printed in decimal, the last digit last, with ASCII digits. */
  lemma PrintedInDecimal(n: nat)
    ensures var s := PrintNat(n);
      && s[|s| - 1] as int == 48 + n % 10
      && s[..|s| - 1] == (if n < 10 then "" else PrintNat(n / 10))
      && PrintInt(n) == s && (n > 0 ==> PrintInt(0 - n) == "-" + s)
    ensures forall c | IsDigit(c) :: DigitValue(c) == c as int - 48
  {
  }

  predicate IsSpace(c: char) {
    c == ' ' || 9 <= c as int <= 13
  }

  function StripLeft(s: string): string {
    if s != "" && IsSpace(s[0]) then StripLeft(s[1..]) else s
  }

  function StripRight(s: string): string {
    if s != "" && IsSpace(s[|s| - 1]) then StripRight(s[..|s| - 1]) else s
  }

  /** Digits with single underscores between them. */
  function ParseNat(s: string): Option<nat> {
    if s == "" || !IsDigit(s[|s| - 1]) then None
    else
      var d := DigitValue(s[|s| - 1]);
      if |s| == 1 then Some(d)
      else
        var front := if s[|s| - 2] == '_' then ParseNat(s[..|s| - 2]) else ParseNat(s[..|s| - 1]);
        if front.Some? then Some(10 * front.value + d) else None
  }

  /** `int(s)` for ASCII `s`; `None` is its `ValueError`. */
  function ParseInt(s: string): Option<int> {
    var t := StripRight(StripLeft(s));
    if t != "" && (t[0] == '-' || t[0] == '+') then
      var n := ParseNat(t[1..]);
      if n.None? then None
      else
        var value: int := n.value;
        Some(if t[0] == '-' then -value else value)
    else
      var n := ParseNat(t);
      if n.None? then None else Some(n.value)
  }

  lemma {:induction false} StripLeftOfAppended(s: string, c: char)
    requires IsSpace(c)
    ensures StripLeft(s + [c]) == if StripLeft(s) == "" then "" else StripLeft(s) + [c]
  {
    if s == "" {
      assert s + [c] == [c];
    } else {
      assert (s + [c])[1..] == s[1..] + [c];
      if IsSpace(s[0]) {
        StripLeftOfAppended(s[1..], c);
      }
    }
  }

  /** White space around a number does not matter: a space, or one of tab to carriage return. */
  lemma SpaceAround(s: string, c: char)
    requires c as int in {9, 10, 11, 12, 13, 32}
    ensures ParseInt([c] + s) == ParseInt(s) == ParseInt(s + [c])
  {
    assert ([c] + s)[1..] == s;
    StripLeftOfAppended(s, c);
    var t := StripLeft(s);
    assert t != "" ==> (t + [c])[..|t|] == t;
  }

  lemma {:induction false} ParsePrintNat(n: nat)
    ensures ParseNat(PrintNat(n)) == Some(n)
  {
    if n >= 10 {
      ParsePrintNat(n / 10);
      var s := PrintNat(n);
      assert s[..|s| - 1] == PrintNat(n / 10);
      assert s[|s| - 2] == PrintNat(n / 10)[|s| - 2];
    }
  }

  /** Printing and parsing are inverse on every integer. */
  lemma ParsePrintInt(n: int)
    ensures ParseInt(PrintInt(n)) == Some(n)
  {
    var s := PrintInt(n);
    var digits := PrintNat(if n < 0 then -n else n);
    ParsePrintNat(if n < 0 then -n else n);
    assert s[|s| - 1] == digits[|digits| - 1];
    assert StripRight(StripLeft(s)) == s;
    assert n < 0 ==> s[1..] == digits;
  }

  lemma PrintIntChars(n: int)
    ensures PrintInt(n) != ""
    ensures forall i :: 0 <= i < |PrintInt(n)| ==> IsDigit(PrintInt(n)[i]) || PrintInt(n)[i] == '-'
  {
  }

  // ---------------------------------------------------------------------------
  // Split and join
  // ---------------------------------------------------------------------------

  /** `s.split(sep)` */
  function Split(s: string, sep: char): (parts: seq<string>)
    ensures parts != []
  {
    if s == "" then [""]
    else
      var rest := Split(s[1..], sep);
      if s[0] == sep then [""] + rest else [[s[0]] + rest[0]] + rest[1..]
  }

  /** `sep.join(parts)` */
  function Join(parts: seq<string>, sep: char): string
    requires parts != []
  {
    if |parts| == 1 then parts[0] else parts[0] + [sep] + Join(parts[1..], sep)
  }

  function Count(s: string, c: char): nat {
    if s == "" then 0 else (if s[0] == c then 1 else 0) + Count(s[1..], c)
  }

  lemma {:induction false} SplitCounts(s: string, sep: char)
    ensures |Split(s, sep)| == 1 + Count(s, sep)
  {
    if s != "" {
      SplitCounts(s[1..], sep);
    }
  }

  lemma {:induction false} CountConcat(a: string, b: string, c: char)
    ensures Count(a + b, c) == Count(a, c) + Count(b, c)
  {
    if a == "" {
      assert a + b == b;
    } else {
      CountConcat(a[1..], b, c);
      assert (a + b)[1..] == a[1..] + b;
    }
  }

  lemma {:induction false} CountZero(s: string, c: char)
    ensures Count(s, c) == 0 <==> c !in s
  {
    if s != "" {
      CountZero(s[1..], c);
      assert s == [s[0]] + s[1..];
    }
  }

  lemma {:induction false} SplitPrefix(part: string, rest: string, sep: char)
    requires sep !in part
    ensures Split(part + [sep] + rest, sep) == [part] + Split(rest, sep)
  {
    var s := part + [sep] + rest;
    if part == "" {
      assert s[1..] == rest;
    } else {
      SplitPrefix(part[1..], rest, sep);
      assert s[1..] == part[1..] + [sep] + rest;
      assert s[0] == part[0] != sep && [part[0]] + part[1..] == part;
      assert ([part[1..]] + Split(rest, sep))[1..] == Split(rest, sep);
    }
  }

  lemma {:induction false} SplitPlain(part: string, sep: char)
    requires sep !in part
    ensures Split(part, sep) == [part]
  {
    if part != "" {
      SplitPlain(part[1..], sep);
      assert part[0] != sep && [part[0]] + part[1..] == part;
    }
  }

  function CountAll(parts: seq<string>, sep: char): nat {
    if parts == [] then 0 else Count(parts[0], sep) + CountAll(parts[1..], sep)
  }

  lemma {:induction false} JoinCounts(parts: seq<string>, sep: char)
    requires parts != []
    ensures Count(Join(parts, sep), sep) == |parts| - 1 + CountAll(parts, sep)
  {
    if |parts| > 1 {
      JoinCounts(parts[1..], sep);
      var tail := Join(parts[1..], sep);
      CountConcat(parts[0] + [sep], tail, sep);
      CountConcat(parts[0], [sep], sep);
    } else {
      assert CountAll(parts[1..], sep) == 0;
    }
  }

  lemma {:induction false} SplitJoinClean(parts: seq<string>, sep: char)
    requires parts != []
    requires forall i :: 0 <= i < |parts| ==> sep !in parts[i]
    ensures Split(Join(parts, sep), sep) == parts
  {
    if |parts| == 1 {
      SplitPlain(parts[0], sep);
    } else {
      SplitJoinClean(parts[1..], sep);
      SplitPrefix(parts[0], Join(parts[1..], sep), sep);
    }
  }

  lemma {:induction false} CountAllZero(parts: seq<string>, sep: char)
    ensures CountAll(parts, sep) == 0 <==> forall i :: 0 <= i < |parts| ==> sep !in parts[i]
  {
    if parts != [] {
      CountZero(parts[0], sep);
      CountAllZero(parts[1..], sep);
      assert forall i :: 1 <= i < |parts| ==> parts[i] == parts[1..][i - 1];
      assert forall i :: 0 <= i < |parts| - 1 ==> parts[1..][i] == parts[i + 1];
    }
  }

  /** Splitting what was joined gives back the parts exactly when no part holds a separator;
      otherwise it gives back too many. */
  lemma SplitJoin(parts: seq<string>, sep: char)
    requires parts != []
    ensures Split(Join(parts, sep), sep) == parts <==> forall i :: 0 <= i < |parts| ==> sep !in parts[i]
    ensures |Split(Join(parts, sep), sep)| == |parts| <==> forall i :: 0 <= i < |parts| ==> sep !in parts[i]
  {
    SplitCounts(Join(parts, sep), sep);
    JoinCounts(parts, sep);
    CountAllZero(parts, sep);
    if forall i :: 0 <= i < |parts| ==> sep !in parts[i] {
      SplitJoinClean(parts, sep);
    }
  }

  /** Joining what was split always gives back the text. */
  lemma {:induction false} JoinSplit(s: string, sep: char)
    ensures Join(Split(s, sep), sep) == s
  {
    if s != "" {
      JoinSplit(s[1..], sep);
      var rest := Split(s[1..], sep);
      if s[0] == sep {
        assert Split(s, sep)[1..] == rest;
      } else if |rest| > 1 {
        assert Split(s, sep)[1..] == rest[1..];
      }
    }
  }

  lemma JoinCons(part: string, rest: seq<string>, sep: char)
    requires rest != []
    ensures Join([part] + rest, sep) == part + [sep] + Join(rest, sep)
  {
  }

  lemma JoinThree(x: string, y: string, z: string, sep: char)
    ensures Join([x, y, z], sep) == x + [sep] + y + [sep] + z
  {
    JoinCons(x, [y, z], sep);
    JoinCons(y, [z], sep);
    assert [x, y, z] == [x] + [y, z] && [y, z] == [y] + [z];
  }

  lemma {:induction false} JoinAscii(parts: seq<string>, sep: char)
    requires parts != [] && sep as int < 128
    ensures Ascii(Join(parts, sep)) <==> forall i :: 0 <= i < |parts| ==> Ascii(parts[i])
  {
    if |parts| > 1 {
      JoinAscii(parts[1..], sep);
      var tail := Join(parts[1..], sep);
      AsciiConcat(parts[0] + [sep], tail);
      AsciiConcat(parts[0], [sep]);
      assert forall i :: 1 <= i < |parts| ==> parts[i] == parts[1..][i - 1];
      assert forall i :: 0 <= i < |parts| - 1 ==> parts[1..][i] == parts[i + 1];
    }
  }

  lemma AsciiConcat(a: string, b: string)
    ensures Ascii(a + b) <==> Ascii(a) && Ascii(b)
  {
    assert forall i :: 0 <= i < |a| ==> (a + b)[i] == a[i];
    assert forall i :: 0 <= i < |b| ==> (a + b)[|a| + i] == b[i];
  }

  // ---------------------------------------------------------------------------
  // Upper case
  // ---------------------------------------------------------------------------

  /** `str.upper` on one character. The listed non-ASCII characters are those with an ASCII
      upper case. Every other non-ASCII character has a non-ASCII one; which one it is cannot
      matter here, since it is only ever compared with, or encoded as, ASCII. */
  function UpperChar(c: char): (u: string)
    ensures u != "" && (c as int < 128 ==> |u| == 1)
    ensures ':' in u <==> c == ':'
  {
    if 'a' <= c <= 'z' then [c - 'a' + 'A']
    else if c == '\U{131}' then "I"
    else if c == '\U{17F}' then "S"
    else if c == '\U{DF}' then "SS"
    else if c == '\U{FB00}' then "FF"
    else if c == '\U{FB01}' then "FI"
    else if c == '\U{FB02}' then "FL"
    else if c == '\U{FB03}' then "FFI"
    else if c == '\U{FB04}' then "FFL"
    else if c == '\U{FB05}' || c == '\U{FB06}' then "ST"
    else [c]
  }

  /** The ASCII letters move 32 down, the other ASCII characters stay, and of the rest exactly ten
      upper-case into ASCII. */
  lemma UpperCharMeans(c: char)
    ensures c as int < 128 ==> UpperChar(c) == [if 97 <= c as int <= 122 then (c as int - 32) as char else c]
    ensures Ascii(UpperChar(c)) <==>
      c as int < 128 || c as int in {0x131, 0x17f, 0xdf, 0xfb00, 0xfb01, 0xfb02, 0xfb03, 0xfb04, 0xfb05, 0xfb06}
  {
    assert !Ascii(UpperChar(c)) || UpperChar(c)[0] as int < 128;
  }

  function Upper(s: string): string {
    if s == "" then "" else UpperChar(s[0]) + Upper(s[1..])
  }

  lemma {:induction false} UpperKeepsColons(s: string)
    ensures ':' in Upper(s) <==> ':' in s
  {
    if s != "" {
      UpperKeepsColons(s[1..]);
      assert s == [s[0]] + s[1..];
    }
  }

  lemma UpperCons(c: char, s: string)
    ensures Upper([c] + s) == UpperChar(c) + Upper(s)
  {
  }

  lemma Regroup(a: string, b: string, c: string)
    ensures a + (b + c) == (a + b) + c
  {
  }

  lemma UpperConcatStep(c: char, t: string, b: string)
    requires Upper(t + b) == Upper(t) + Upper(b)
    ensures Upper(([c] + t) + b) == Upper([c] + t) + Upper(b)
  {
    UpperCons(c, t);
    UpperCons(c, t + b);
    hide Upper, UpperChar;
    Regroup([c], t, b);
    Regroup(UpperChar(c), Upper(t), Upper(b));
  }

  lemma {:induction false} UpperOfConcat(a: string, b: string)
    ensures Upper(a + b) == Upper(a) + Upper(b)
  {
    if a == "" {
      assert a + b == b;
    } else {
      hide Upper;
      UpperOfConcat(a[1..], b);
      UpperConcatStep(a[0], a[1..], b);
      assert a == [a[0]] + a[1..];
    }
  }

  lemma {:induction false} UpperOfFixed(s: string)
    requires forall i :: 0 <= i < |s| ==> UpperChar(s[i]) == [s[i]]
    ensures Upper(s) == s
  {
    hide UpperChar;
    if s != "" {
      UpperOfFixed(s[1..]);
    }
  }

  lemma UpperCharIsFixed(c: char)
    ensures forall i :: 0 <= i < |UpperChar(c)| ==> UpperChar(UpperChar(c)[i]) == [UpperChar(c)[i]]
  {
  }

  /** Upper-casing twice is upper-casing once. */
  lemma {:induction false} UpperIsStable(s: string)
    ensures Upper(Upper(s)) == Upper(s)
  {
    hide UpperChar;
    if s != "" {
      UpperIsStable(s[1..]);
      UpperOfConcat(UpperChar(s[0]), Upper(s[1..]));
      UpperCharIsFixed(s[0]);
      UpperOfFixed(UpperChar(s[0]));
    }
  }
}
