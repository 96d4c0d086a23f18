/** The few `java.lang.String`, `Boolean` and `Integer` operations the configuration code relies on. */
module JavaStrings {
  import opened Wrappers
  import opened JavaInts

  /** `s.replace(from, to)` for single characters: every occurrence of `from` becomes `to`. */
  function ReplaceChar(s: string, from: char, to: char): (r: string)
    ensures |r| == |s|
    ensures forall i :: 0 <= i < |s| ==> r[i] == (if s[i] == from then to else s[i])
  {
    if |s| == 0 then ""
    else [if s[0] == from then to else s[0]] + ReplaceChar(s[1..], from, to)
  }

  /** Replacing a character that no longer occurs changes nothing: replacing twice is replacing once. */
  lemma ReplaceCharIdempotent(s: string, from: char, to: char)
    ensures ReplaceChar(ReplaceChar(s, from, to), from, to) == ReplaceChar(s, from, to)
  {
  }

  /** The text between consecutive occurrences of `sep`, empty pieces included:
      there is always one piece more than there are separators. */
  function Pieces(s: string, sep: char): (r: seq<string>)
    ensures |r| >= 1
    ensures forall k :: 0 <= k < |r| ==> sep !in r[k]
    decreases |s|
  {
    if |s| == 0 then [""]
    else
      var rest := Pieces(s[1..], sep);
      if s[0] == sep then [""] + rest else [[s[0]] + rest[0]] + rest[1..]
  }

  /** Glues pieces back together with `sep` between neighbours. */
  function Join(ps: seq<string>, sep: char): string
    requires |ps| >= 1
  {
    if |ps| == 1 then ps[0] else ps[0] + [sep] + Join(ps[1..], sep)
  }

  /** Cutting at every separator loses nothing: joining the pieces gives the string back. */
  lemma {:induction false} JoinPieces(s: string, sep: char)
    ensures Join(Pieces(s, sep), sep) == s
    decreases |s|
  {
    if |s| > 0 {
      var rest := Pieces(s[1..], sep);
      JoinPieces(s[1..], sep);
      if s[0] == sep {
        assert Pieces(s, sep) == [""] + rest;
        assert ([""] + rest)[1..] == rest;
        assert s == [s[0]] + s[1..];
      } else {
        var ps := [[s[0]] + rest[0]] + rest[1..];
        assert ps[1..] == rest[1..];
        if |rest| == 1 {
          assert Join(ps, sep) == [s[0]] + rest[0];
        } else {
          assert Join(rest, sep) == rest[0] + [sep] + Join(rest[1..], sep);
          assert Join(ps, sep) == [s[0]] + rest[0] + [sep] + Join(rest[1..], sep);
        }
        assert s == [s[0]] + s[1..];
      }
    }
  }

  /** Removes the empty strings at the end of `ps`. */
  function DropTrailingEmpty(ps: seq<string>): (r: seq<string>)
    ensures |r| <= |ps| && r == ps[..|r|]
    ensures |r| > 0 ==> r[|r| - 1] != ""
    ensures forall k :: |r| <= k < |ps| ==> ps[k] == ""
  {
    if |ps| > 0 && ps[|ps| - 1] == "" then DropTrailingEmpty(ps[..|ps| - 1]) else ps
  }

  /** `s.split(sep)` with Java's limit-0 semantics: a string without the separator splits into itself
      (so "" gives [""]); otherwise the pieces, with trailing empty pieces removed (so " " gives []). */
  function Split(s: string, sep: char): (r: seq<string>)
    ensures forall k :: 0 <= k < |r| ==> sep !in r[k]
    ensures sep !in s ==> r == [s]
    ensures sep in s ==> |r| <= |Pieces(s, sep)| && r == Pieces(s, sep)[..|r|]
    ensures sep in s ==> |r| == 0 || r[|r| - 1] != ""
    ensures sep in s ==> forall k :: |r| <= k < |Pieces(s, sep)| ==> Pieces(s, sep)[k] == ""
  {
    if sep !in s then [s] else DropTrailingEmpty(Pieces(s, sep))
  }

  lemma SplitSeparatorOnly(sep: char)
    ensures Split([sep], sep) == []
  {
    assert Pieces([sep], sep) == [""] + Pieces([], sep);
  }

  /** ASCII lower-casing. */
  function ToLower(c: char): char {
    if 'A' <= c <= 'Z' then (c as int - 'A' as int + 'a' as int) as char else c
  }

  /** `Boolean.parseBoolean(s)`: true exactly for a non-null `s` equal to "true" ignoring case.
      (No character outside ASCII case-folds onto 't', 'r', 'u' or 'e', so ASCII folding is exact here.) */
  function ParseBoolean(s: Option<string>): (r: bool)
    ensures r <==> s.Some? && |s.value| == 4 && forall i :: 0 <= i < 4 ==> ToLower(s.value[i]) == "true"[i]
    ensures s == Some("true") || s == Some("True") || s == Some("TRUE") ==> r
    ensures s == None || s == Some("false") || s == Some("False") || s == Some("") ==> !r
  {
    match s
    case None => false
    case Some(t) => |t| == 4 && ToLower(t[0]) == 't' && ToLower(t[1]) == 'r' && ToLower(t[2]) == 'u' && ToLower(t[3]) == 'e'
  }

  predicate IsDigit(c: char) {
    '0' <= c <= '9'
  }

  predicate AllDigits(s: string) {
    forall i :: 0 <= i < |s| ==> IsDigit(s[i])
  }

  /** The value of a string of decimal digits, most significant first. */
  function DigitsValue(s: string): nat
    requires AllDigits(s)
  {
    if |s| == 0 then 0 else DigitsValue(s[..|s| - 1]) * 10 + (s[|s| - 1] as int - '0' as int)
  }

  /** The digits of a natural number, most significant first, without leading zeros. */
  function Digits(n: nat): (s: string)
    ensures |s| >= 1 && AllDigits(s)
  {
    if n < 10 then [('0' as int + n) as char] else Digits(n / 10) + [('0' as int + n % 10) as char]
  }

  /** Reading back the digits of a number gives the number. */
  lemma {:induction false} DigitsRoundTrip(n: nat)
    ensures DigitsValue(Digits(n)) == n
  {
    if n >= 10 {
      DigitsRoundTrip(n / 10);
      var s := Digits(n);
      assert s[..|s| - 1] == Digits(n / 10);
    }
  }

  /** The string starts with a '+' or '-' sign. */
  predicate HasSign(s: string) {
    |s| >= 1 && (s[0] == '-' || s[0] == '+')
  }

  /** The string without its sign, if it has one. */
  function Magnitude(s: string): string {
    if HasSign(s) then s[1..] else s
  }

  /** The syntax `Integer.parseInt` accepts: an optional sign, then one or more decimal digits. */
  predicate IntSyntax(s: string) {
    |Magnitude(s)| >= 1 && AllDigits(Magnitude(s))
  }

  /** The mathematical value of a string in that syntax. */
  function SignedValue(s: string): int
    requires IntSyntax(s)
  {
    if s[0] == '-' then 0 - DigitsValue(Magnitude(s)) as int else DigitsValue(Magnitude(s))
  }

  /** `Integer.parseInt(s)`: an optional sign followed by at least one decimal digit, whose value fits a
      Java `int`; `None` stands for the `NumberFormatException` thrown otherwise. */
  function ParseInt(s: string): (r: Option<Int32>)
    ensures r.Some? <==> IntSyntax(s) && IsInt(SignedValue(s))
    ensures r.Some? ==> r.value == SignedValue(s)
    ensures AllDigits(s) && |s| >= 1 && DigitsValue(s) <= INT_MAX ==> r == Some(DigitsValue(s))
  {
    if |s| == 0 then None
    else if s[0] == '-' || s[0] == '+' then
      var body := s[1..];
      if |body| == 0 || !AllDigits(body) then None
      else
        var v: int := if s[0] == '-' then 0 - DigitsValue(body) as int else DigitsValue(body);
        if IsInt(v) then Some(v) else None
    else if !AllDigits(s) then None
    else if DigitsValue(s) <= INT_MAX then Some(DigitsValue(s))
    else None
  }

  /** `Integer.parseInt` inverts the decimal rendering of every non-negative `int`. */
  lemma ParseDigits(n: nat)
    requires n <= INT_MAX
    ensures ParseInt(Digits(n)) == Some(n)
  {
    DigitsRoundTrip(n);
  }

  /** A signed decimal rendering parses back too, down to `Integer.MIN_VALUE` ("-2147483648") and up to
      `Integer.MAX_VALUE` with an explicit '+'. */
  lemma ParseSignedDigits(n: nat)
    requires n <= INT_MAX + 1
    ensures ParseInt(['-'] + Digits(n)) == Some(0 - n)
    ensures n <= INT_MAX ==> ParseInt(['+'] + Digits(n)) == Some(n)
  {
    DigitsRoundTrip(n);
    assert Magnitude(['-'] + Digits(n)) == Digits(n);
    assert Magnitude(['+'] + Digits(n)) == Digits(n);
  }

  /** The numeric defaults the configuration code writes as string literals parse to their values. */
  lemma DefaultLiteralsParse()
    ensures ParseInt("1024") == Some(1024)
    ensures ParseInt("256") == Some(256)
    ensures ParseInt("32") == Some(32)
    ensures ParseInt("4") == Some(4)
  {
    assert Digits(1) == "1" && Digits(2) == "2" && Digits(3) == "3" && Digits(4) == "4";
    assert Digits(10) == "10";
    assert Digits(25) == "25";
    assert Digits(102) == "102";
    assert Digits(1024) == "1024";
    assert Digits(256) == "256";
    assert Digits(32) == "32";
    ParseDigits(1024);
    ParseDigits(256);
    ParseDigits(32);
    ParseDigits(4);
  }
}
