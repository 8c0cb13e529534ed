/**
 The cursor codec: a position as fixed-shape JSON, in unpadded base64url (section 5 of RFC 4648).
 The text is ASCII, so a byte is a character code.
 */
module Cursor {
  import opened Wrappers
  import opened Notifications
  import opened Pagination

  // --------------------------------------------------------------- base64url

  predicate IsByte(n: int) {
    0 <= n < 256
  }

  predicate AreBytes(bytes: seq<int>) {
    forall i | 0 <= i < |bytes| :: IsByte(bytes[i])
  }

  function Symbol(n: int): char
    requires 0 <= n < 64
  {
    if n < 26 then 'A' + n as char
    else if n < 52 then 'a' + (n - 26) as char
    else if n < 62 then '0' + (n - 52) as char
    else if n == 62 then '-' else '_'
  }

  // The decoder reads both alphabets and skips what is in neither.
  function Value(c: char): Option<int> {
    if 'A' <= c <= 'Z' then Some(c as int - 'A' as int)
    else if 'a' <= c <= 'z' then Some(c as int - 'a' as int + 26)
    else if '0' <= c <= '9' then Some(c as int - '0' as int + 52)
    else if c == '-' || c == '+' then Some(62)
    else if c == '_' || c == '/' then Some(63)
    else None
  }

  // Three bytes as four six-bit values.
  function Cut(a: int, b: int, c: int): (n: seq<int>)
    requires IsByte(a) && IsByte(b) && IsByte(c)
    ensures |n| == 4 && AreSixBits(n)
  {
    [a / 4, a % 4 * 16 + b / 16, b % 16 * 4 + c / 64, c % 64]
  }

  predicate AreSixBits(n: seq<int>) {
    forall i | 0 <= i < |n| :: 0 <= n[i] < 64
  }

  function Symbols(n: seq<int>): (text: string)
    requires AreSixBits(n)
    ensures |text| == |n|
  {
    seq(|n|, i requires 0 <= i < |n| => Symbol(n[i]))
  }

  // Three bytes to four symbols; one left over to two, two to three.
  function EncodeBytes(b: seq<int>): (text: string)
    requires AreBytes(b)
    ensures |text| == 4 * (|b| / 3) + (if |b| % 3 == 0 then 0 else |b| % 3 + 1)
  {
    if |b| == 0 then ""
    else if |b| == 1 then Symbols(Cut(b[0], 0, 0)[..2])
    else if |b| == 2 then Symbols(Cut(b[0], b[1], 0)[..3])
    else Symbols(Cut(b[0], b[1], b[2])) + EncodeBytes(b[3..])
  }

  function Kept(c: char): seq<int> {
    if Value(c).Some? then [Value(c).value] else []
  }

  function Values(text: string): seq<int> {
    if text == "" then [] else Kept(text[0]) + Values(text[1..])
  }

  function Join(p: int, q: int, r: int, s: int): seq<int> {
    [p * 4 + q / 16, q % 16 * 16 + r / 4, r % 4 * 64 + s]
  }

  function DecodeValues(v: seq<int>): seq<int> {
    if |v| <= 1 then []
    else if |v| == 2 then Join(v[0], v[1], 0, 0)[..1]
    else if |v| == 3 then Join(v[0], v[1], v[2], 0)[..2]
    else Join(v[0], v[1], v[2], v[3]) + DecodeValues(v[4..])
  }

  function DecodeBytes(text: string): seq<int> {
    DecodeValues(Values(text))
  }

  lemma SymbolValue(n: int)
    requires 0 <= n < 64
    ensures Value(Symbol(n)) == Some(n)
  {
  }

  lemma Associate<T>(a: seq<T>, b: seq<T>, c: seq<T>)
    ensures a + (b + c) == (a + b) + c
  {
  }

  lemma {:induction false} ValuesConcat(a: string, b: string)
    ensures Values(a + b) == Values(a) + Values(b)
  {
    if a == "" {
      assert a + b == b;
    } else {
      assert (a + b)[1..] == a[1..] + b;
      ValuesConcat(a[1..], b);
      Associate(Kept(a[0]), Values(a[1..]), Values(b));
    }
  }

  lemma {:induction false} ValuesOfSymbols(n: seq<int>)
    requires AreSixBits(n)
    ensures Values(Symbols(n)) == n
  {
    if |n| > 0 {
      SymbolValue(n[0]);
      ValuesOfSymbols(n[1..]);
      assert Symbols(n)[1..] == Symbols(n[1..]);
      assert n == [n[0]] + n[1..];
    }
  }

  lemma CutJoin(a: int, b: int, c: int)
    requires IsByte(a) && IsByte(b) && IsByte(c)
    ensures var n := Cut(a, b, c); Join(n[0], n[1], n[2], n[3]) == [a, b, c]
  {
  }

  lemma DecodeGroup(n: seq<int>, rest: seq<int>)
    requires |n| == 4
    ensures DecodeValues(n + rest) == Join(n[0], n[1], n[2], n[3]) + DecodeValues(rest)
  {
    assert (n + rest)[4..] == rest;
  }

  // A group cut short loses only zero bits.
  lemma OneByte(a: int)
    requires IsByte(a)
    ensures Join(Cut(a, 0, 0)[0], Cut(a, 0, 0)[1], 0, 0)[..1] == [a]
  {
  }

  lemma TwoBytes(a: int, b: int)
    requires IsByte(a) && IsByte(b)
    ensures Join(Cut(a, b, 0)[0], Cut(a, b, 0)[1], Cut(a, b, 0)[2], 0)[..2] == [a, b]
  {
  }

  lemma ShortGroup(b: seq<int>, n: seq<int>)
    requires AreBytes(b) && 1 <= |b| <= 2 && n == (if |b| == 1 then Cut(b[0], 0, 0)[..2] else Cut(b[0], b[1], 0)[..3])
    ensures DecodeValues(n) == b
  {
    if |b| == 1 {
      OneByte(b[0]);
    } else {
      TwoBytes(b[0], b[1]);
    }
  }

  lemma WholeGroup(a: int, b: int, c: int, rest: string)
    requires IsByte(a) && IsByte(b) && IsByte(c)
    ensures DecodeBytes(Symbols(Cut(a, b, c)) + rest) == [a, b, c] + DecodeBytes(rest)
  {
    var n := Cut(a, b, c);
    CutJoin(a, b, c);
    ValuesOfSymbols(n);
    ValuesConcat(Symbols(n), rest);
    DecodeGroup(n, Values(rest));
  }

  /** Decoding undoes encoding, for byte strings of every length. */
  lemma {:induction false} BytesRoundTrip(b: seq<int>)
    requires AreBytes(b)
    ensures DecodeBytes(EncodeBytes(b)) == b
  {
    if 1 <= |b| <= 2 {
      var n := if |b| == 1 then Cut(b[0], 0, 0)[..2] else Cut(b[0], b[1], 0)[..3];
      ShortGroup(b, n);
      ValuesOfSymbols(n);
    } else if |b| >= 3 {
      WholeGroup(b[0], b[1], b[2], EncodeBytes(b[3..]));
      BytesRoundTrip(b[3..]);
      assert b == [b[0], b[1], b[2]] + b[3..];
    }
  }

  /** The alphabet, spelled out: table 2 of RFC 4648. */
  lemma SymbolsAreTheAlphabet()
    ensures Symbols([0, 1, 2, 3, 4, 5, 6, 7]) == "ABCDEFGH"
    ensures Symbols([8, 9, 10, 11, 12, 13, 14, 15]) == "IJKLMNOP"
    ensures Symbols([16, 17, 18, 19, 20, 21, 22, 23]) == "QRSTUVWX"
    ensures Symbols([24, 25, 26, 27, 28, 29, 30, 31]) == "YZabcdef"
    ensures Symbols([32, 33, 34, 35, 36, 37, 38, 39]) == "ghijklmn"
    ensures Symbols([40, 41, 42, 43, 44, 45, 46, 47]) == "opqrstuv"
    ensures Symbols([48, 49, 50, 51, 52, 53, 54, 55]) == "wxyz0123"
    ensures Symbols([56, 57, 58, 59, 60, 61, 62, 63]) == "456789-_"
  {
  }

  /** Vectors of section 10 of RFC 4648, unpadded, and two bytes that need both url-safe symbols. */
  lemma KnownEncodings()
    ensures EncodeBytes([102, 111, 111]) == "Zm9v" && EncodeBytes([102]) == "Zg" && EncodeBytes([102, 111]) == "Zm8"
    ensures EncodeBytes([255, 239]) == "_-8"
  {
    KnownGroup();
    assert [102, 111, 111][3..] == [];
    assert Cut(102, 0, 0)[..2] == [25, 32] && Cut(102, 111, 0)[..3] == [25, 38, 60];
    assert Cut(255, 239, 0)[..3] == [63, 62, 60];
    assert Symbols([25, 32]) == "Zg" && Symbols([25, 38, 60]) == "Zm8" && Symbols([63, 62, 60]) == "_-8";
  }

  lemma KnownGroup()
    ensures Symbols(Cut(102, 111, 111)) == "Zm9v"
  {
    assert Cut(102, 111, 111) == [25, 38, 61, 47];
    assert Symbols([25, 38, 61, 47]) == "Zm9v";
  }

  // ------------------------------------------------------------------ decimals

  predicate IsDigit(c: char) {
    '0' <= c <= '9'
  }

  predicate AreDigits(s: string) {
    forall i | 0 <= i < |s| :: IsDigit(s[i])
  }

  function Digit(n: int): (c: char)
    requires 0 <= n < 10
    ensures IsDigit(c)
  {
    '0' + n as char
  }

  function Number(s: string): nat
    requires AreDigits(s)
  {
    if s == "" then 0 else Number(s[..|s| - 1]) * 10 + (s[|s| - 1] as int - '0' as int)
  }

  // As JSON.stringify writes an integer: no leading zeros.
  function Decimal(n: nat): (s: string)
    ensures s != "" && AreDigits(s) && Number(s) == n && (s[0] == '0' ==> n == 0)
  {
    if n < 10 then
      assert Number([Digit(n)]) == n by { assert [Digit(n)][..0] == ""; }
      [Digit(n)]
    else
      var front := Decimal(n / 10);
      assert (front + [Digit(n % 10)])[..|front|] == front;
      front + [Digit(n % 10)]
  }

  function Pow10(k: nat): nat {
    if k == 0 then 1 else 10 * Pow10(k - 1)
  }

  // As to_char writes a field: exactly `width` digits.
  function Padded(n: nat, width: nat): (s: string)
    requires n < Pow10(width)
    ensures |s| == width && AreDigits(s) && Number(s) == n
  {
    if width == 0 then ""
    else
      var front := Padded(n / 10, width - 1);
      assert (front + [Digit(n % 10)])[..width - 1] == front;
      front + [Digit(n % 10)]
  }

  lemma {:induction false} DecimalLength(n: nat, k: nat)
    requires n < Pow10(k) && k >= 1
    ensures |Decimal(n)| <= k
  {
    if n >= 10 {
      DecimalLength(n / 10, k - 1);
    }
  }

  // ---------------------------------------------------------------- timestamps

  // YYYY-MM-DD"T"HH24:MI:SS.US"Z"
  function Render(t: Timestamp): (s: string)
    requires IsMoment(t)
    ensures |s| == 27
  {
    assert Pow10(6) == 1000000;
    DateText(t) + "T" + TimeText(t) + "." + Padded(t.micro, 6) + "Z"
  }

  function DateText(t: Timestamp): (s: string)
    requires IsMoment(t)
    ensures |s| == 10
  {
    assert Pow10(4) == 10000 && Pow10(2) == 100;
    Padded(t.year, 4) + "-" + Padded(t.month, 2) + "-" + Padded(t.day, 2)
  }

  function TimeText(t: Timestamp): (s: string)
    requires IsMoment(t)
    ensures |s| == 8
  {
    assert Pow10(2) == 100;
    Padded(t.hour, 2) + ":" + Padded(t.minute, 2) + ":" + Padded(t.second, 2)
  }

  // YYYY-MM-DDTHH:MM, a date of the calendar and a time of day.
  predicate HasDateAndMinutes(s: string) {
    && |s| >= 16 && s[4] == '-' && s[7] == '-' && s[10] == 'T' && s[13] == ':'
    && AreDigits(s[..4]) && AreDigits(s[5..7]) && AreDigits(s[8..10]) && AreDigits(s[11..13]) && AreDigits(s[14..16])
    && 1 <= Number(s[5..7]) <= 12 && 1 <= Number(s[8..10]) <= DaysIn(Number(s[..4]), Number(s[5..7]))
    && Number(s[11..13]) < 24 && Number(s[14..16]) < 60
  }

  predicate HasSeconds(s: string) {
    |s| >= 19 && s[16] == ':' && AreDigits(s[17..19]) && Number(s[17..19]) < 60
  }

  function LeadingDigits(s: string): (n: nat)
    ensures n <= |s| && AreDigits(s[..n]) && (n < |s| ==> !IsDigit(s[n]))
  {
    if s == "" || !IsDigit(s[0]) then 0
    else
      var n := LeadingDigits(s[1..]);
      assert s[..n + 1] == [s[0]] + s[1..][..n];
      n + 1
  }

  predicate IsZone(s: string) {
    || s == "Z"
    || (&& |s| == 6 && (s[0] == '+' || s[0] == '-') && s[3] == ':' && AreDigits(s[1..3]) && AreDigits(s[4..6])
        && Number(s[1..3]) < 24 && Number(s[4..6]) < 60)
  }

  predicate IsFractionAndZone(s: string) {
    s != "" && s[0] == '.' && LeadingDigits(s[1..]) > 0 && IsZone(s[1..][LeadingDigits(s[1..])..])
  }

  // As the cursor schema demands: seconds and their fraction are optional, the zone is not.
  predicate IsDatetime(s: string) {
    && HasDateAndMinutes(s)
    && (IsZone(s[16..]) || (HasSeconds(s) && (IsZone(s[19..]) || IsFractionAndZone(s[19..]))))
  }

  // What the database reads such a text as.
  function ReadTimestamp(s: string): Option<Timestamp> {
    if HasDateAndMinutes(s) && HasSeconds(s) && |s| == 27 && s[19] == '.' && AreDigits(s[20..26]) && s[26] == 'Z'
    then Some(Timestamp(Number(s[..4]), Number(s[5..7]), Number(s[8..10]), Number(s[11..13]),
                        Number(s[14..16]), Number(s[17..19]), Number(s[20..26])))
    else None
  }

  lemma RenderedParts(t: Timestamp)
    requires IsMoment(t)
    ensures var s := Render(t);
            && s[..10] == DateText(t) && s[10] == 'T' && s[11..19] == TimeText(t) && s[19] == '.'
            && t.micro < Pow10(6) && s[20..26] == Padded(t.micro, 6) && s[26] == 'Z'
  {
    assert Pow10(6) == 1000000;
  }

  lemma DateFields(t: Timestamp)
    requires IsMoment(t)
    ensures Pow10(4) == 10000 && Pow10(2) == 100
    ensures var s := DateText(t);
            && s[..4] == Padded(t.year, 4) && s[4] == '-' && s[5..7] == Padded(t.month, 2)
            && s[7] == '-' && s[8..10] == Padded(t.day, 2)
  {
    assert Pow10(4) == 10000 && Pow10(2) == 100;
  }

  lemma TimeFields(t: Timestamp)
    requires IsMoment(t)
    ensures Pow10(2) == 100
    ensures var s := TimeText(t);
            && s[..2] == Padded(t.hour, 2) && s[2] == ':' && s[3..5] == Padded(t.minute, 2)
            && s[5] == ':' && s[6..8] == Padded(t.second, 2)
  {
    assert Pow10(2) == 100;
  }

  lemma RenderedFields(t: Timestamp)
    requires IsMoment(t)
    ensures Pow10(4) == 10000 && Pow10(2) == 100 && Pow10(6) == 1000000
    ensures var s := Render(t);
            && s[4] == '-' && s[7] == '-' && s[10] == 'T' && s[13] == ':' && s[16] == ':'
            && s[19] == '.' && s[26] == 'Z'
            && s[..4] == Padded(t.year, 4) && s[5..7] == Padded(t.month, 2) && s[8..10] == Padded(t.day, 2)
            && s[11..13] == Padded(t.hour, 2) && s[14..16] == Padded(t.minute, 2) && s[17..19] == Padded(t.second, 2)
            && s[20..26] == Padded(t.micro, 6)
  {
    RenderedParts(t);
    DateFields(t);
    TimeFields(t);
    assert Pow10(6) == 1000000;
    var s := Render(t);
    SubSlices(s);
  }

  lemma SubSlices(s: string)
    requires |s| == 27
    ensures s[..4] == s[..10][..4] && s[5..7] == s[..10][5..7] && s[8..10] == s[..10][8..10]
    ensures s[4] == s[..10][4] && s[7] == s[..10][7] && s[13] == s[11..19][2] && s[16] == s[11..19][5]
    ensures s[11..13] == s[11..19][..2] && s[14..16] == s[11..19][3..5] && s[17..19] == s[11..19][6..8]
  {
  }

  lemma RenderedDateAndTime(t: Timestamp)
    requires IsMoment(t)
    ensures HasDateAndMinutes(Render(t)) && HasSeconds(Render(t)) && ReadTimestamp(Render(t)) == Some(t)
  {
    RenderedFields(t);
  }

  /** The text of a timestamp passes the cursor schema and is read back as the same microsecond. */
  lemma TimestampRoundTrip(t: Timestamp)
    requires IsMoment(t)
    ensures IsDatetime(Render(t)) && ReadTimestamp(Render(t)) == Some(t)
  {
    RenderedDateAndTime(t);
    RenderedTail(t);
    FractionThenZone(Padded(t.micro, 6));
  }

  lemma RenderedTail(t: Timestamp)
    requires IsMoment(t)
    ensures t.micro < Pow10(6) && Render(t)[19..] == "." + (Padded(t.micro, 6) + "Z")
  {
    RenderedParts(t);
    TailSlices(Render(t));
  }

  lemma TailSlices(s: string)
    requires |s| == 27
    ensures s[19..] == [s[19]] + (s[20..26] + [s[26]])
  {
  }

  /** What the schema lets through: a real date, a time of day, and a zone that is Z or an offset within a day. */
  lemma DatetimeInColumns(s: string)
    requires IsDatetime(s)
    ensures |s| >= 17 && s[4] == '-' && s[7] == '-' && s[10] == 'T' && s[13] == ':'
    ensures forall i | i in {0, 1, 2, 3, 5, 6, 8, 9, 11, 12, 14, 15} :: '0' <= s[i] <= '9'
    ensures var month, day := Number(s[5..7]), Number(s[8..10]);
            && 1 <= month <= 12 && 1 <= day <= 31 && (month in {4, 6, 9, 11} ==> day <= 30)
            && (month == 2 ==> day <= 29 && (day == 29 ==> Number(s[..4]) % 4 == 0))
            && (month == 2 && Number(s[..4]) % 100 == 0 && Number(s[..4]) % 400 != 0 ==> day <= 28)
            && Number(s[11..13]) <= 23 && Number(s[14..16]) <= 59
    ensures s[16] == 'Z' || s[16] == '+' || s[16] == '-' || (s[16] == ':' && |s| >= 20 && Number(s[17..19]) <= 59)
    ensures s[|s| - 1] == 'Z'
            || (s[|s| - 3] == ':' && (s[|s| - 6] == '+' || s[|s| - 6] == '-'))
  {
    assert s[..4][0] == s[0] && s[..4][1] == s[1] && s[..4][2] == s[2] && s[..4][3] == s[3];
    assert s[5..7][0] == s[5] && s[5..7][1] == s[6] && s[8..10][0] == s[8] && s[8..10][1] == s[9];
    assert s[11..13][0] == s[11] && s[11..13][1] == s[12] && s[14..16][0] == s[14] && s[14..16][1] == s[15];
    if !IsZone(s[16..]) {
      if !IsZone(s[19..]) {
        var rest := s[19..][1..];
        var zone := rest[LeadingDigits(rest)..];
        ZoneEnds(zone);
        assert zone == s[|s| - |zone|..];
      } else {
        ZoneEnds(s[19..]);
      }
    } else {
      ZoneEnds(s[16..]);
    }
  }

  // A date of the calendar and a time of day, in the columns.
  predicate IsDateAndMinutes(s: string) {
    && |s| >= 17 && s[4] == '-' && s[7] == '-' && s[10] == 'T' && s[13] == ':'
    && AreDigits(s[..4]) && AreDigits(s[5..7]) && AreDigits(s[8..10])
    && AreDigits(s[11..13]) && AreDigits(s[14..16])
    && IsDate(Number(s[..4]), Number(s[5..7]), Number(s[8..10]))
    && Number(s[11..13]) <= 23 && Number(s[14..16]) <= 59
  }

  predicate IsDate(year: nat, month: nat, day: nat) {
    && 1 <= month <= 12 && 1 <= day <= 31 && (month == 4 || month == 6 || month == 9 || month == 11 ==> day <= 30)
    && (month == 2 ==> day <= if (year % 4 == 0 && year % 100 != 0) || year % 400 == 0 then 29 else 28)
  }

  lemma DatesAgree(year: nat, month: nat, day: nat)
    ensures IsDate(year, month, day) <==> 1 <= month <= 12 && 1 <= day <= DaysIn(year, month)
  {
  }

  lemma DatePartSuffices(s: string)
    requires IsDateAndMinutes(s)
    ensures HasDateAndMinutes(s)
  {
    DatesAgree(Number(s[..4]), Number(s[5..7]), Number(s[8..10]));
  }

  lemma ZoneSuffices(rest: string)
    requires rest == "Z"
             || (&& |rest| == 6 && (rest[0] == '+' || rest[0] == '-') && rest[3] == ':'
                 && AreDigits(rest[1..3]) && AreDigits(rest[4..6])
                 && Number(rest[1..3]) <= 23 && Number(rest[4..6]) <= 59)
    ensures IsZone(rest)
  {
  }

  /** Nothing else is asked: seconds may be left out, their fraction too, and an offset does for the zone. */
  lemma DatetimeSuffices(s: string)
    requires IsDateAndMinutes(s)
    requires var rest := if s[16] == ':' && |s| >= 20 && AreDigits(s[17..19]) && Number(s[17..19]) <= 59
                         then s[19..] else s[16..];
             || rest == "Z"
             || (&& |rest| == 6 && (rest[0] == '+' || rest[0] == '-') && rest[3] == ':'
                 && AreDigits(rest[1..3]) && AreDigits(rest[4..6])
                 && Number(rest[1..3]) <= 23 && Number(rest[4..6]) <= 59)
    ensures IsDatetime(s)
  {
    DatePartSuffices(s);
    ZoneSuffices(if s[16] == ':' && |s| >= 20 && AreDigits(s[17..19]) && Number(s[17..19]) <= 59
                 then s[19..] else s[16..]);
  }

  lemma ZoneEnds(zone: string)
    requires IsZone(zone)
    ensures 1 <= |zone| <= 6 && (zone[0] == 'Z' || zone[0] == '+' || zone[0] == '-')
    ensures zone[|zone| - 1] == 'Z'
            || (|zone| == 6 && zone[3] == ':' && (zone[0] == '+' || zone[0] == '-'))
  {
  }

  lemma FractionThenZone(digits: string)
    requires AreDigits(digits) && digits != ""
    ensures LeadingDigits(digits + "Z") == |digits| && (digits + "Z")[|digits|..] == "Z"
  {
    AllLeading(digits, "Z");
  }

  lemma {:induction false} AllLeading(digits: string, rest: string)
    requires AreDigits(digits) && (rest != "" ==> !IsDigit(rest[0]))
    ensures LeadingDigits(digits + rest) == |digits|
  {
    if digits == "" {
      assert digits + rest == rest;
    } else {
      assert (digits + rest)[1..] == digits[1..] + rest;
      AllLeading(digits[1..], rest);
    }
  }

  // ---------------------------------------------------------------------- JSON

  datatype Payload = Payload(createdAt: string, id: nat)

  const OPENING := "{\"createdAt\":\""
  const MIDDLE := "\",\"id\":"
  const MAX_SAFE_INTEGER := 0x1F_FFFF_FFFF_FFFF

  function Json(createdAt: string, id: nat): string {
    OPENING + (createdAt + (MIDDLE + (Decimal(id) + "}")))
  }

  // Up to the next quote.
  function Unquoted(s: string): (n: nat)
    ensures n <= |s| && (n < |s| ==> s[n] == '\"') && forall i | 0 <= i < n :: s[i] != '\"'
  {
    if s == "" || s[0] == '\"' then 0 else Unquoted(s[1..]) + 1
  }

  predicate IsInteger(s: string) {
    s != "" && AreDigits(s) && (s[0] == '0' ==> |s| == 1)
  }

  // JSON.parse on the shape that encoding produces, from its end to its start.
  function ParseId(number: string): Option<nat> {
    if number != "" && number[|number| - 1] == '}' && IsInteger(number[..|number| - 1])
    then Some(Number(number[..|number| - 1])) else None
  }

  function ParseBody(rest: string): Option<Payload> {
    var n := Unquoted(rest);
    var tail := rest[n..];
    if !(MIDDLE <= tail) then None
    else
      var id := ParseId(tail[|MIDDLE|..]);
      if id.Some? then Some(Payload(rest[..n], id.value)) else None
  }

  function ParseJson(text: string): Option<Payload> {
    if OPENING <= text then ParseBody(text[|OPENING|..]) else None
  }

  function ToBytes(text: string): (b: seq<int>)
    requires forall i | 0 <= i < |text| :: text[i] as int < 128
    ensures AreBytes(b) && |b| == |text|
  {
    seq(|text|, i requires 0 <= i < |text| => text[i] as int)
  }

  // A byte that is not ASCII starts no character of the shape; any other character stands for it.
  function ToText(b: seq<int>): string {
    seq(|b|, i requires 0 <= i < |b| => if 0 <= b[i] < 128 then b[i] as char else '?')
  }

  predicate IsAscii(text: string) {
    forall i | 0 <= i < |text| :: text[i] as int < 128
  }

  // No quote and nothing outside ASCII.
  predicate IsPlain(s: string) {
    forall i | 0 <= i < |s| :: s[i] as int < 128 && s[i] != '\"'
  }

  lemma RenderedIsAscii(t: Timestamp)
    requires IsMoment(t)
    ensures IsAscii(Render(t)) && Unquoted(Render(t)) == 27
  {
    assert Pow10(4) == 10000 && Pow10(2) == 100 && Pow10(6) == 1000000;
    assert IsPlain(DateText(t)) && IsPlain(TimeText(t)) && IsPlain(Padded(t.micro, 6) + "Z");
    assert IsPlain(Render(t)) by {
      assert Render(t) == DateText(t) + "T" + TimeText(t) + "." + (Padded(t.micro, 6) + "Z");
    }
  }

  lemma JsonIsAscii(createdAt: string, id: nat)
    requires IsAscii(createdAt)
    ensures IsAscii(Json(createdAt, id))
  {
    assert IsAscii(OPENING) && IsAscii(MIDDLE) && IsAscii(Decimal(id)) && IsAscii("}");
  }

  function EncodeNotificationCursor(createdAt: Timestamp, id: nat): string
    requires IsMoment(createdAt)
  {
    RenderedIsAscii(createdAt);
    JsonIsAscii(Render(createdAt), id);
    EncodeBytes(ToBytes(Json(Render(createdAt), id)))
  }

  function DecodeNotificationCursor(cursor: string): Option<Payload> {
    var payload := ParseJson(ToText(DecodeBytes(cursor)));
    if payload.Some? && IsDatetime(payload.value.createdAt) && 0 < payload.value.id <= MAX_SAFE_INTEGER
    then payload else None
  }

  /** A cursor is accepted only for a positive safe integer and a text that the schema lets through. */
  lemma AcceptedCursor(cursor: string)
    requires DecodeNotificationCursor(cursor).Some?
    ensures var payload := DecodeNotificationCursor(cursor).value;
            && 1 <= payload.id <= 9_007_199_254_740_991 && IsDatetime(payload.createdAt)
            && "{\"createdAt\":\"" <= ToText(DecodeBytes(cursor))
  {
  }

  /** The shape of the text under a cursor. */
  lemma KnownJson()
    ensures Decimal(12) == "12" && Json("x", 12) == "{\"createdAt\":\"x\",\"id\":12}"
  {
    assert Decimal(1) == "1" && Decimal(12) == Decimal(1) + "2";
    assert Json("x", 12) == OPENING + ("x" + (MIDDLE + ("12" + "}")));
  }

  lemma {:induction false} UnquotedUntil(s: string, tail: string)
    requires Unquoted(s) == |s| && tail != "" && tail[0] == '\"'
    ensures Unquoted(s + tail) == |s|
  {
    if s == "" {
      assert s + tail == tail;
    } else {
      assert (s + tail)[1..] == s[1..] + tail;
      UnquotedUntil(s[1..], tail);
    }
  }

  lemma Split(a: string, b: string)
    ensures a <= a + b && (a + b)[|a|..] == b && (a + b)[..|a|] == a
  {
  }

  lemma IdRoundTrip(id: nat)
    ensures ParseId(Decimal(id) + "}") == Some(id)
  {
    Split(Decimal(id), "}");
    assert IsInteger(Decimal(id));
  }

  lemma {:induction false} BodyRoundTrip(createdAt: string, id: nat, number: string)
    requires Unquoted(createdAt) == |createdAt| && ParseId(number) == Some(id)
    ensures ParseBody(createdAt + (MIDDLE + number)) == Some(Payload(createdAt, id))
  {
    UnquotedUntil(createdAt, MIDDLE + number);
    Split(createdAt, MIDDLE + number);
    Split(MIDDLE, number);
  }

  lemma {:induction false} JsonRoundTrip(createdAt: string, id: nat)
    requires Unquoted(createdAt) == |createdAt|
    ensures ParseJson(Json(createdAt, id)) == Some(Payload(createdAt, id))
  {
    var number := Decimal(id) + "}";
    IdRoundTrip(id);
    BodyRoundTrip(createdAt, id, number);
    Split(OPENING, createdAt + (MIDDLE + number));
  }

  /** A cursor carries its position through, microseconds included, and is short enough to be sent back. */
  lemma {:induction false} CursorRoundTrip(createdAt: Timestamp, id: nat)
    requires IsMoment(createdAt) && 0 < id < 0x8000_0000
    ensures var cursor := EncodeNotificationCursor(createdAt, id);
            && 1 <= |cursor| <= 512
            && DecodeNotificationCursor(cursor) == Some(Payload(Render(createdAt), id))
            && ReadTimestamp(Render(createdAt)) == Some(createdAt)
  {
    RenderedIsAscii(createdAt);
    JsonIsAscii(Render(createdAt), id);
    var text := Json(Render(createdAt), id);
    BytesRoundTrip(ToBytes(text));
    assert ToText(ToBytes(text)) == text;
    JsonRoundTrip(Render(createdAt), id);
    TimestampRoundTrip(createdAt);
    assert Pow10(10) == 10000000000;
    DecimalLength(id, 10);
  }

  /** Two positions with one cursor are one position. */
  lemma {:induction false} CursorsAreDistinct(p: Position, q: Position)
    requires IsMoment(p.createdAt) && IsMoment(q.createdAt) && 0 < p.id < 0x8000_0000 && 0 < q.id < 0x8000_0000
    ensures EncodeNotificationCursor(p.createdAt, p.id) == EncodeNotificationCursor(q.createdAt, q.id) ==> p == q
  {
    CursorRoundTrip(p.createdAt, p.id);
    CursorRoundTrip(q.createdAt, q.id);
  }
}
