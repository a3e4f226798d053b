/** The text of the protocol: the `printf` conversions the server uses for its lines, and the
    `sscanf` conversions the client uses to read a PLAYER line back. */
module Text {
  import opened Common

  // ---------------------------------------------------------------- printing

  function Digit(d: int): char
    requires 0 <= d < 10
  {
    '0' + d as char
  }

  function Digits(n: nat): string {
    if n < 10 then [Digit(n)] else Digits(n / 10) + [Digit(n % 10)]
  }

  /** `%d` and `%ld`. */
  function Decimal(n: int): string {
    if n < 0 then "-" + Digits(-n) else Digits(n)
  }

  /** What remains of a formatted text: it ends at its first zero byte. */
  function CString(s: string): (r: string)
    ensures |r| <= |s|
  {
    if s == "" || s[0] == '\0' then "" else [s[0]] + CString(s[1..])
  }

  /** `%d` of a C flag. */
  function Bit(b: bool): string { if b then "1" else "0" }

  /** The nearest integer, an exact half going to the even side. */
  function RoundHalfEven(v: real): int {
    var t := v.Floor;
    var rest := v - t as real;
    if rest < 0.5 || (rest == 0.5 && t % 2 == 0) then t else t + 1
  }

  /** It is within a half of the value, and even if there are two. */
  lemma RoundedToNearest(v: real)
    ensures -0.5 <= v - RoundHalfEven(v) as real <= 0.5
    ensures v - RoundHalfEven(v) as real == 0.5 || v - RoundHalfEven(v) as real == -0.5 ==> RoundHalfEven(v) % 2 == 0
  {
  }

  function Thousandths(v: real): int { RoundHalfEven(v * 1000.0) }

  function Magnitude(n: int): nat { if n < 0 then -n else n }

  /** The unsigned part of `%.3f`, for a number of thousandths. */
  function FixedDigits(m: nat): string {
    var tens, hundreds := m / 10, m / 10 / 10;
    Digits(hundreds / 10) + ("." + [Digit(hundreds % 10), Digit(tens % 10), Digit(m % 10)])
  }

  /** `%.3f`. */
  function Fixed3(v: real): string {
    (if v < 0.0 then "-" else "") + FixedDigits(Magnitude(Thousandths(v)))
  }

  /** `%.1f`, for the non-negative coordinates it is used with. */
  function Fixed1(v: real): string {
    var m := Magnitude(RoundHalfEven(v * 10.0));
    Digits(m / 10) + ("." + [Digit(m % 10)])
  }

  /** The choice column: a player who has not chosen shows a question mark. */
  function ShownChoice(p: Player): char { if p.choiceChosen then p.choice else '?' }

  /** "PLAYER %s %c %.3f %.3f %d %d" */
  function PlayerLine(p: Player): string {
    "PLAYER " + (p.name + (" " + ([ShownChoice(p)] + (" " + (Fixed3(p.x) + (" " + (Fixed3(p.y)
    + (" " + (Bit(p.alive) + (" " + Bit(p.waiting)))))))))))
  }

  function SecondsLeft(deadline: int, now: int): int {
    if deadline - now > 0 then deadline - now else 0
  }

  function LobbyOpenLine(seconds: int): string { "LOBBY_OPEN " + Decimal(seconds) }

  function SetupOpenLine(seconds: int): string { "SETUP_OPEN " + Decimal(seconds) }

  function RoundStartLine(roundNo: int, seconds: int): string {
    "ROUND_START " + (Decimal(roundNo) + (" " + Decimal(seconds)))
  }

  // ---------------------------------------------------------------- scanning

  predicate IsDigit(c: char) { '0' <= c <= '9' }

  function DigitValue(c: char): nat
    requires IsDigit(c)
  {
    c as int - '0' as int
  }

  predicate StartsWith(s: string, prefix: string) {
    |prefix| <= |s| && s[..|prefix|] == prefix
  }

  function SkipSpaces(s: string): string {
    if s != "" && IsSpace(s[0]) then SkipSpaces(s[1..]) else s
  }

  /** The value of the digits at the front of `s`, continuing from `acc`, and what follows. */
  function ScanDigits(s: string, acc: nat): (nat, string) {
    if s != "" && IsDigit(s[0]) then ScanDigits(s[1..], 10 * acc + DigitValue(s[0])) else (acc, s)
  }

  function ScanFraction(s: string, acc: real, scale: real): (real, string) {
    if s != "" && IsDigit(s[0]) then
      ScanFraction(s[1..], acc + DigitValue(s[0]) as real * scale, scale / 10.0)
    else
      (acc, s)
  }

  function ScanSign(s: string): (bool, string) {
    if s != "" && (s[0] == '-' || s[0] == '+') then (s[0] == '-', s[1..]) else (false, s)
  }

  /** `%d` */
  function ScanInt(s: string): Option<(int, string)> {
    var (negative, body) := ScanSign(SkipSpaces(s));
    if body == "" || !IsDigit(body[0]) then
      None
    else
      var (n, rest) := ScanDigits(body, 0);
      Some((if negative then -(n as int) else n, rest))
  }

  /** Digits with an optional decimal point and further digits. */
  function ScanMagnitude(body: string): (real, string) {
    var (n, rest) := ScanDigits(body, 0);
    if rest != "" && rest[0] == '.' then ScanFraction(rest[1..], n as real, 0.1) else (n as real, rest)
  }

  /** `%f`, restricted to plain decimals: no exponent, hexadecimal, infinity or NaN. */
  function ScanReal(s: string): Option<(real, string)> {
    var (negative, body) := ScanSign(SkipSpaces(s));
    if body == "" || !IsDigit(body[0]) then
      None
    else
      var (v, rest) := ScanMagnitude(body);
      Some((if negative then -v else v, rest))
  }

  function TokenLength(s: string, limit: nat): (n: nat)
    ensures n <= |s| && n <= limit
  {
    if s == "" || limit == 0 || IsSpace(s[0]) then 0 else 1 + TokenLength(s[1..], limit - 1)
  }

  /** `%31s` */
  function ScanToken(s: string): Option<(string, string)> {
    var body := SkipSpaces(s);
    var n := TokenLength(body, MAX_NAME_LENGTH - 1);
    if n == 0 then None else Some((body[..n], body[n..]))
  }

  /** ` %c` */
  function ScanChar(s: string): Option<(char, string)> {
    var body := SkipSpaces(s);
    if body == "" then None else Some((body[0], body[1..]))
  }

  datatype PlayerReport = PlayerReport(name: string, choice: char, x: real, y: real, alive: int, waiting: int)

  /** The four conversions " %f %f %d %d" at the end of a PLAYER line. */
  function ScanPlayerTail(name: string, choice: char, s: string): Option<PlayerReport> {
    match ScanReal(s) case None => None case Some((x, r1)) =>
    match ScanReal(r1) case None => None case Some((y, r2)) =>
    match ScanInt(r2) case None => None case Some((alive, r3)) =>
    match ScanInt(r3) case None => None case Some((waiting, _)) =>
    Some(PlayerReport(name, choice, x, y, alive, waiting))
  }

  /** `sscanf(line, "PLAYER %31s %c %f %f %d %d", ...) == 6` */
  function ScanPlayer(line: string): Option<PlayerReport> {
    if !StartsWith(line, "PLAYER") then None else
    match ScanToken(line[6..]) case None => None case Some((name, r1)) =>
    match ScanChar(r1) case None => None case Some((choice, r2)) =>
    ScanPlayerTail(name, choice, r2)
  }

  datatype PairReport = PairReport(name1: string, name2: string, winner: string, x: real, y: real)

  /** A literal word of a format, after any spaces. */
  function ScanWord(s: string, word: string): Option<string> {
    var body := SkipSpaces(s);
    if StartsWith(body, word) then Some(body[|word|..]) else None
  }

  /** The conversions of a PAIR line after the first name. */
  function ScanPairTail(name1: string, s: string): Option<PairReport> {
    match ScanToken(s) case None => None case Some((name2, r2)) =>
    match ScanChar(r2) case None => None case Some((_, r3)) =>
    match ScanChar(r3) case None => None case Some((_, r4)) =>
    match ScanWord(r4, "WINNER") case None => None case Some(r5) =>
    match ScanToken(r5) case None => None case Some((winner, r6)) =>
    match ScanWord(r6, "MOVE") case None => None case Some(r7) =>
    match ScanReal(r7) case None => None case Some((x, r8)) =>
    match ScanReal(r8) case None => None case Some((y, _)) =>
    Some(PairReport(name1, name2, winner, x, y))
  }

  /** `sscanf(line, "PAIR %31s %31s %c %c WINNER %31s MOVE %f %f", ...) == 7` */
  function ScanPair(line: string): Option<PairReport> {
    if !StartsWith(line, "PAIR") then None else
    match ScanToken(line[4..]) case None => None case Some((name1, r1)) => ScanPairTail(name1, r1)
  }

  // ---------------------------------------------------------------- printing and scanning agree

  /** A text without a zero byte remains whole. */
  lemma {:induction false} CStringWhole(s: string)
    requires forall k :: 0 <= k < |s| ==> s[k] != '\0'
    ensures CString(s) == s
  {
    if s != "" {
      CStringWhole(s[1..]);
    }
  }

  lemma {:induction false} DigitsAreDigits(n: nat)
    ensures |Digits(n)| >= 1 && forall k :: 0 <= k < |Digits(n)| ==> IsDigit(Digits(n)[k])
  {
    if n >= 10 {
      DigitsAreDigits(n / 10);
    }
  }

  lemma {:induction false} ScanDigitsPrinted(n: nat, rest: string)
    ensures ScanDigits(Digits(n) + rest, 0) == ScanDigits(rest, n)
  {
    if n < 10 {
      assert (Digits(n) + rest)[1..] == rest;
    } else {
      var last := [Digit(n % 10)];
      ScanDigitsPrinted(n / 10, last + rest);
      assert Digits(n) + rest == Digits(n / 10) + (last + rest);
      assert (last + rest)[1..] == rest;
    }
  }

  /** Three printed decimals are read back as that many thousandths. */
  lemma ScanThreeDecimals(a: int, b: int, c: int, whole: nat, rest: string)
    requires 0 <= a < 10 && 0 <= b < 10 && 0 <= c < 10
    requires rest == "" || !IsDigit(rest[0])
    ensures ScanFraction([Digit(a), Digit(b), Digit(c)] + rest, whole as real, 0.1)
         == ((whole * 1000 + a * 100 + b * 10 + c) as real / 1000.0, rest)
  {
    var s := [Digit(a), Digit(b), Digit(c)] + rest;
    assert s[1..] == [Digit(b), Digit(c)] + rest;
    assert s[1..][1..] == [Digit(c)] + rest;
    assert s[1..][1..][1..] == rest;
    var w := whole as real;
    assert ScanFraction(s, w, 0.1) == ScanFraction(s[1..], w + a as real * 0.1, 0.01);
    assert ScanFraction(s[1..], w + a as real * 0.1, 0.01)
        == ScanFraction(s[1..][1..], w + a as real * 0.1 + b as real * 0.01, 0.001);
    assert ScanFraction(s[1..][1..], w + a as real * 0.1 + b as real * 0.01, 0.001)
        == ScanFraction(rest, w + a as real * 0.1 + b as real * 0.01 + c as real * 0.001, 0.0001);
  }

  lemma ThousandthsSign(v: real)
    ensures v < 0.0 ==> Thousandths(v) <= 0
    ensures v >= 0.0 ==> Thousandths(v) >= 0
  {
  }

  lemma ScanMagnitudePrinted(m: nat, rest: string)
    requires rest == "" || !IsDigit(rest[0])
    ensures ScanMagnitude(FixedDigits(m) + rest) == (m as real / 1000.0, rest)
    ensures FixedDigits(m) != "" && IsDigit(FixedDigits(m)[0])
  {
    var tens, hundreds := m / 10, m / 10 / 10;
    var whole := hundreds / 10;
    var decimals := [Digit(hundreds % 10), Digit(tens % 10), Digit(m % 10)];
    var point := "." + (decimals + rest);
    LastThreeDigits(m);
    ScanThreeDecimals(hundreds % 10, tens % 10, m % 10, whole, rest);
    hide Digit, Digits, ScanFraction;
    assert FixedDigits(m) + rest == Digits(whole) + point;
    DigitsAreDigits(whole);
    ScanDigitsPrinted(whole, point);
    assert point[1..] == decimals + rest;
  }

  lemma LastThreeDigits(m: nat)
    ensures m / 10 / 10 / 10 * 1000 + m / 10 / 10 % 10 * 100 + m / 10 % 10 * 10 + m % 10 == m
  {
    var tens, hundreds := m / 10, m / 10 / 10;
    assert m == 10 * tens + m % 10 && tens == 10 * hundreds + tens % 10;
    assert hundreds == 10 * (hundreds / 10) + hundreds % 10;
  }

  /** `%.3f` followed by a separator is read by `%f` as the value rounded to thousandths. */
  lemma ScanRealPrinted(v: real, rest: string)
    requires rest == "" || !IsDigit(rest[0])
    ensures ScanReal(" " + (Fixed3(v) + rest)) == Some((Thousandths(v) as real / 1000.0, rest))
  {
    hide FixedDigits, ScanMagnitude;
    var m := Magnitude(Thousandths(v));
    ScanMagnitudePrinted(m, rest);
    var unsigned := FixedDigits(m) + rest;
    var printed := (if v < 0.0 then "-" else "") + unsigned;
    assert Fixed3(v) + rest == printed;
    SkipOneSpace(printed);
    assert v < 0.0 ==> printed[1..] == unsigned;
    assert v >= 0.0 ==> printed == unsigned;
    ThousandthsSign(v);
  }

  /** `%.1f` is read back as the value rounded to tenths. */
  lemma ScanTenthsPrinted(v: real, rest: string)
    requires v >= 0.0 && (rest == "" || !IsDigit(rest[0]))
    ensures ScanReal(" " + (Fixed1(v) + rest)) == Some((RoundHalfEven(v * 10.0) as real / 10.0, rest))
  {
    var m := RoundHalfEven(v * 10.0);
    var whole, d := m / 10, m % 10;
    var decimals := [Digit(d)] + rest;
    var point := "." + decimals;
    assert m >= 0;
    assert Fixed1(v) + rest == Digits(whole) + point;
    DigitsAreDigits(whole);
    ScanDigitsPrinted(whole, point);
    SkipOneSpace(Digits(whole) + point);
    assert point[1..] == decimals && decimals[1..] == rest;
    hide Digits, RoundHalfEven;
    assert ScanFraction(decimals, whole as real, 0.1) == ScanFraction(rest, whole as real + d as real * 0.1, 0.01);
    assert whole as real + d as real * 0.1 == m as real / 10.0;
  }

  /** `%d` is read back as the number. */
  lemma ScanDecimalPrinted(n: int, rest: string)
    requires rest == "" || !IsDigit(rest[0])
    ensures ScanInt(" " + (Decimal(n) + rest)) == Some((n, rest))
  {
    var m := Magnitude(n);
    var unsigned := Digits(m) + rest;
    DigitsAreDigits(m);
    ScanDigitsPrinted(m, rest);
    hide Digits;
    assert Decimal(n) + rest == if n < 0 then "-" + unsigned else unsigned;
    SkipOneSpace(Decimal(n) + rest);
    assert ("-" + unsigned)[1..] == unsigned;
  }

  lemma SkipOneSpace(s: string)
    requires s != "" && !IsSpace(s[0])
    ensures SkipSpaces(" " + s) == s
  {
    assert (" " + s)[1..] == s;
    assert SkipSpaces(" " + s) == SkipSpaces(s);
  }

  lemma ScanBitPrinted(b: bool, rest: string)
    requires rest == "" || !IsDigit(rest[0])
    ensures ScanInt(" " + (Bit(b) + rest)) == Some((if b then 1 else 0, rest))
  {
    var body := Bit(b) + rest;
    SkipOneSpace(body);
    assert body[1..] == rest;
    assert ScanDigits(body, 0) == ScanDigits(rest, if b then 1 else 0);
  }

  lemma {:induction false} TokenLengthOf(name: string, rest: string, limit: nat)
    requires |name| <= limit
    requires forall k :: 0 <= k < |name| ==> !IsSpace(name[k])
    requires rest != "" && IsSpace(rest[0])
    ensures TokenLength(name + rest, limit) == |name|
  {
    if name == "" {
      assert name + rest == rest;
    } else {
      assert (name + rest)[1..] == name[1..] + rest;
      TokenLengthOf(name[1..], rest, limit - 1);
    }
  }

  lemma ScanTailPrinted(p: Player, name: string, choice: char)
    ensures ScanPlayerTail(name, choice, " " + (Fixed3(p.x) + (" " + (Fixed3(p.y)
              + (" " + (Bit(p.alive) + (" " + Bit(p.waiting))))))))
         == Some(PlayerReport(name, choice,
                              Thousandths(p.x) as real / 1000.0, Thousandths(p.y) as real / 1000.0,
                              if p.alive then 1 else 0, if p.waiting then 1 else 0))
  {
    hide Fixed3, ScanReal, ScanInt, Thousandths;
    var t4 := " " + Bit(p.waiting);
    var t3 := " " + (Bit(p.alive) + t4);
    var t2 := " " + (Fixed3(p.y) + t3);
    ScanRealPrinted(p.x, t2);
    ScanRealPrinted(p.y, t3);
    ScanBitPrinted(p.alive, t4);
    assert t4 == " " + (Bit(p.waiting) + "");
    ScanBitPrinted(p.waiting, "");
  }

  /** A printed PLAYER line is read back as the player it was printed for, with the
      coordinates rounded to thousandths. */
  lemma ScanPlayerPrinted(p: Player)
    requires IsName(p.name) && !IsSpace(ShownChoice(p))
    ensures ScanPlayer(PlayerLine(p)) == Some(PlayerReport(
              p.name, ShownChoice(p),
              Thousandths(p.x) as real / 1000.0, Thousandths(p.y) as real / 1000.0,
              if p.alive then 1 else 0, if p.waiting then 1 else 0))
  {
    hide Fixed3, ScanPlayerTail, Thousandths;
    var t2 := " " + (Fixed3(p.x) + (" " + (Fixed3(p.y)
              + (" " + (Bit(p.alive) + (" " + Bit(p.waiting)))))));
    var t1 := " " + ([ShownChoice(p)] + t2);
    var line := PlayerLine(p);
    assert line == "PLAYER " + (p.name + t1);
    assert line[..6] == "PLAYER";
    assert line[6..] == " " + (p.name + t1);
    assert ScanToken(line[6..]) == Some((p.name, t1)) by {
      SkipOneSpace(p.name + t1);
      TokenLengthOf(p.name, t1, MAX_NAME_LENGTH - 1);
      assert (p.name + t1)[..|p.name|] == p.name;
      assert (p.name + t1)[|p.name|..] == t1;
    }
    assert ScanChar(t1) == Some((ShownChoice(p), t2)) by {
      SkipOneSpace([ShownChoice(p)] + t2);
      assert ([ShownChoice(p)] + t2)[1..] == t2;
    }
    ScanTailPrinted(p, p.name, ShownChoice(p));
  }
}
