/** Splitting and printing of strings as the encodings of pkg/job and pkg/config use them. */
module Strings {

  /** strings.Split for a separator of one character. */
  function Split(s: string, sep: char): (parts: seq<string>)
    ensures parts != []
  {
    if s == "" then [""]
    else if s[0] == sep then [""] + Split(s[1..], sep)
    else
      var rest := Split(s[1..], sep);
      [[s[0]] + rest[0]] + rest[1..]
  }

  lemma {:induction false} SplitIsWholeIff(s: string, sep: char)
    ensures sep !in s ==> Split(s, sep) == [s]
    ensures sep in s ==> |Split(s, sep)| > 1
  {
    if s != "" {
      SplitIsWholeIff(s[1..], sep);
      assert s == [s[0]] + s[1..];
    }
  }

  function Glue(ch: char, parts: seq<string>): seq<string>
    requires parts != []
  {
    [[ch] + parts[0]] + parts[1..]
  }

  lemma SplitCons(ch: char, s: string, sep: char)
    ensures Split([ch] + s, sep) == if ch == sep then [""] + Split(s, sep) else Glue(ch, Split(s, sep))
  {
    assert ([ch] + s)[1..] == s;
  }

  lemma GlueJoined(ch: char, parts: seq<string>, more: seq<string>)
    requires parts != []
    ensures Glue(ch, parts + more) == Glue(ch, parts) + more
  {
    assert (parts + more)[1..] == parts[1..] + more;
  }

  lemma PrependJoined(part: string, parts: seq<string>, more: seq<string>)
    ensures [part] + (parts + more) == [part] + parts + more
  {
  }

  lemma SplitJoinedCons(ch: char, rest: string, sep: char, b: string)
    requires Split(rest + [sep] + b, sep) == Split(rest, sep) + Split(b, sep)
    ensures Split([ch] + (rest + [sep] + b), sep) == Split([ch] + rest, sep) + Split(b, sep)
  {
    SplitCons(ch, rest + [sep] + b, sep);
    SplitCons(ch, rest, sep);
    PrependJoined("", Split(rest, sep), Split(b, sep));
    GlueJoined(ch, Split(rest, sep), Split(b, sep));
  }

  /** Splitting takes joined strings apart at the separator between them. */
  lemma {:induction false} SplitJoined(a: string, sep: char, b: string)
    ensures Split(a + [sep] + b, sep) == Split(a, sep) + Split(b, sep)
  {
    if a == "" {
      SplitCons(sep, b, sep);
      assert a + [sep] + b == [sep] + b;
    } else {
      SplitJoined(a[1..], sep, b);
      SplitJoinedCons(a[0], a[1..], sep, b);
      assert [a[0]] + a[1..] == a;
      assert [a[0]] + (a[1..] + [sep] + b) == a + [sep] + b;
    }
  }

  function Before(s: string, sep: char): string {
    Split(s, sep)[0]
  }

  function Digit(d: nat): char
    requires d < 10
  {
    '0' + d as char
  }

  function Decimal(n: nat): (s: string)
    ensures s != "" && forall ch | ch in s :: '0' <= ch <= '9'
  {
    if n < 10 then [Digit(n)] else Decimal(n / 10) + [Digit(n % 10)]
  }

  /** strconv.Itoa */
  function Itoa(n: int): string {
    if n < 0 then "-" + Decimal(-n) else Decimal(n)
  }

  function DigitValue(ch: char): nat {
    if '0' <= ch <= '9' then ch as int - '0' as int else 0
  }

  function Parsed(s: string): nat {
    if s == "" then 0 else 10 * Parsed(s[..|s| - 1]) + DigitValue(s[|s| - 1])
  }

  /** The number a decimal with or without a sign stands for. */
  function ParsedInt(s: string): int {
    if s != "" && s[0] == '-' then 0 - Parsed(s[1..]) else Parsed(s)
  }

  lemma ItoaParsesBack(n: int)
    ensures ParsedInt(Itoa(n)) == n
  {
    DecimalParsesBack(if n < 0 then -n else n);
    if n < 0 {
      assert Itoa(n)[1..] == Decimal(-n);
    } else {
      assert Decimal(n)[0] in Decimal(n);
    }
  }

  lemma {:induction false} DecimalParsesBack(n: nat)
    ensures Parsed(Decimal(n)) == n
  {
    if n >= 10 {
      DecimalParsesBack(n / 10);
      var s := Decimal(n);
      assert s[..|s| - 1] == Decimal(n / 10);
    } else {
      assert Decimal(n)[..0] == "";
    }
  }
}
