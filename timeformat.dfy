/**
 * The fixed textual forms the connector writes and reads:
 *   the bookmark form `%Y-%m-%dT%H:%M:%SZ`,
 *   the daily and monthly report dates `%Y-%m-%d` and `%Y-%m`,
 *   the extraction time `%Y-%m-%dT%H:%M:%S%z` on the fixed UTC timeline.
 * Bookmarks are read back with a strict parser of the bookmark form.
 */
module TimeFormat {
  import opened Wrappers
  import opened Calendar

  predicate IsDigit(c: char) {
    '0' <= c <= '9'
  }

  predicate AllDigits(s: string) {
    forall i :: 0 <= i < |s| ==> IsDigit(s[i])
  }

  function DigitChar(n: nat): (c: char)
    requires n < 10
    ensures IsDigit(c)
  {
    '0' + n as char
  }

  function DigitValue(c: char): (n: nat)
    requires IsDigit(c)
    ensures n < 10 && DigitChar(n) == c
  {
    (c - '0') as nat
  }

  function Pow10(w: nat): (p: nat)
    ensures 1 <= p
  {
    if w == 0 then 1 else 10 * Pow10(w - 1)
  }

  /** Decimal digits of `n`, left-padded with zeros to at least `width` digits (`%0<width>d`). */
  function Decimal(n: nat, width: nat): (s: string)
    ensures 1 <= |s| && width <= |s|
    ensures AllDigits(s)
    decreases n, width
  {
    var prefix := if n < 10 && width <= 1 then "" else Decimal(n / 10, if width == 0 then 0 else width - 1);
    prefix + [DigitChar(n % 10)]
  }

  /** The number a string of decimal digits denotes. */
  function DecimalValue(s: string): nat
    requires AllDigits(s)
  {
    if s == [] then 0 else DecimalValue(s[..|s| - 1]) * 10 + DigitValue(s[|s| - 1])
  }

  lemma {:induction false} DecimalExactWidth(n: nat, width: nat)
    requires 1 <= width && n < Pow10(width)
    ensures |Decimal(n, width)| == width
    decreases width
  {
    if !(n < 10 && width <= 1) {
      DecimalExactWidth(n / 10, width - 1);
    }
  }

  /** Reading the digits back gives the number. */
  lemma {:induction false} DecimalRoundTrip(n: nat, width: nat)
    ensures DecimalValue(Decimal(n, width)) == n
    decreases n, width
  {
    var s := Decimal(n, width);
    var prefix := if n < 10 && width <= 1 then "" else Decimal(n / 10, if width == 0 then 0 else width - 1);
    assert s[..|s| - 1] == prefix;
    if !(n < 10 && width <= 1) {
      DecimalRoundTrip(n / 10, if width == 0 then 0 else width - 1);
    }
  }

  /** A digit string of length `width` is the padded rendering of its value. */
  lemma {:induction false} DecimalOfValue(s: string)
    requires 1 <= |s| && AllDigits(s)
    ensures DecimalValue(s) < Pow10(|s|)
    ensures Decimal(DecimalValue(s), |s|) == s
  {
    var init := s[..|s| - 1];
    var v := DecimalValue(s);
    if |s| == 1 {
      assert init == [];
    } else {
      DecimalOfValue(init);
      assert v / 10 == DecimalValue(init) && v % 10 == DigitValue(s[|s| - 1]);
      assert s == init + [s[|s| - 1]];
    }
  }

  function Year(d: DateTime): string { Decimal(d.year as nat, 4) }
  function Two(n: nat): string { Decimal(n, 2) }

  /** `%Y-%m`: the report date of a monthly window. */
  function FormatMonth(d: DateTime): string {
    Year(d) + "-" + Two(d.month)
  }

  /** `%Y-%m-%d`: the report date of a daily window. */
  function FormatDay(d: DateTime): string {
    FormatMonth(d) + "-" + Two(d.day)
  }

  /** `%H:%M:%S`. */
  function ClockTime(d: DateTime): string {
    Two(d.hour) + ":" + Two(d.minute) + ":" + Two(d.second)
  }

  /** `%Y-%m-%dT%H:%M:%SZ`: the stored form of a bookmark. */
  function FormatBookmark(d: DateTime): string {
    FormatDay(d) + "T" + ClockTime(d) + "Z"
  }

  /** `%Y-%m-%dT%H:%M:%S%z` with the UTC offset of the fixed timeline. */
  function FormatTimeExtracted(d: DateTime): string {
    FormatDay(d) + "T" + ClockTime(d) + "+0000"
  }

  /** The field of `s` at `[i, j)`, when it is all digits. */
  function Field(s: string, i: nat, j: nat): Option<nat>
    requires i <= j <= |s|
  {
    if AllDigits(s[i..j]) then Some(DecimalValue(s[i..j])) else None
  }

  predicate Punctuated(s: string) {
    |s| == 20 && s[4] == '-' && s[7] == '-' && s[10] == 'T' && s[13] == ':' && s[16] == ':' && s[19] == 'Z'
  }

  /**
   * Reads a bookmark in the form `YYYY-MM-DDTHH:MM:SSZ`; any other text, or
   * fields that do not make a valid date-time, give None.
   */
  function ParseBookmark(s: string): Option<DateTime> {
    if !Punctuated(s) then None
    else
      var y, mo, d := Field(s, 0, 4), Field(s, 5, 7), Field(s, 8, 10);
      var h, mi, se := Field(s, 11, 13), Field(s, 14, 16), Field(s, 17, 19);
      if y.None? || mo.None? || d.None? || h.None? || mi.None? || se.None? then None
      else
        var c := Civil(y.value, mo.value, d.value, h.value, mi.value, se.value);
        if WellFormed(c) then Some(c) else None
  }

  /** The two parts of a concatenation. */
  lemma CatParts(a: string, b: string)
    ensures (a + b)[..|a|] == a && (a + b)[|a|..] == b
  {
  }

  /** `x-yy`: a field, a separator and a two-digit field. */
  lemma SeparatedShape(x: string, sep: char, y: string)
    requires |y| == 2
    ensures var s := x + [sep] + y;
      |s| == |x| + 3 && s[|x|] == sep && s[..|x|] == x && s[|x| + 1..] == y
  {
    var s := x + [sep] + y;
    CatParts(x + [sep], y);
    CatParts(x, [sep]);
    assert s[..|x|] == (x + [sep])[..|x|];
  }

  lemma DayShape(d: DateTime)
    requires d.year <= 9999
    ensures var day := FormatDay(d);
      && |day| == 10 && day[4] == '-' && day[7] == '-'
      && day[0..4] == Year(d) && day[5..7] == Two(d.month) && day[8..10] == Two(d.day)
  {
    DecimalExactWidth(d.year as nat, 4);
    DecimalExactWidth(d.month, 2);
    DecimalExactWidth(d.day, 2);
    var day, month := FormatDay(d), FormatMonth(d);
    SeparatedShape(Year(d), '-', Two(d.month));
    SeparatedShape(month, '-', Two(d.day));
    SliceOfSlice(day, 0, 7, 0, 4);
    SliceOfSlice(day, 0, 7, 5, 7);
  }

  lemma ClockShape(d: DateTime)
    ensures var clock := ClockTime(d);
      && |clock| == 8 && clock[2] == ':' && clock[5] == ':'
      && clock[0..2] == Two(d.hour) && clock[3..5] == Two(d.minute) && clock[6..8] == Two(d.second)
  {
    DecimalExactWidth(d.hour, 2);
    DecimalExactWidth(d.minute, 2);
    DecimalExactWidth(d.second, 2);
    var clock, front := ClockTime(d), Two(d.hour) + ":" + Two(d.minute);
    SeparatedShape(Two(d.hour), ':', Two(d.minute));
    SeparatedShape(front, ':', Two(d.second));
    SliceOfSlice(clock, 0, 5, 0, 2);
    SliceOfSlice(clock, 0, 5, 3, 5);
  }

  lemma JoinShape(day: string, clock: string)
    requires |day| == 10 && |clock| == 8
    ensures var s := day + "T" + clock + "Z";
      |s| == 20 && s[10] == 'T' && s[19] == 'Z' && s[0..10] == day && s[11..19] == clock
  {
  }

  lemma SliceOfSlice(s: string, i: nat, j: nat, k: nat, l: nat)
    requires i <= j <= |s| && k <= l <= j - i
    ensures s[i..j][k..l] == s[i + k..i + l]
  {
    assert forall n :: 0 <= n < l - k ==> s[i..j][k..l][n] == s[i + k + n];
  }

  lemma FormatBookmarkShape(d: DateTime)
    requires d.year <= 9999
    ensures var s := FormatBookmark(d);
      && Punctuated(s)
      && s[0..4] == Year(d) && s[5..7] == Two(d.month) && s[8..10] == Two(d.day)
      && s[11..13] == Two(d.hour) && s[14..16] == Two(d.minute) && s[17..19] == Two(d.second)
  {
    DayShape(d);
    ClockShape(d);
    var s, day, clock := FormatBookmark(d), FormatDay(d), ClockTime(d);
    JoinShape(day, clock);
    assert s[4] == s[0..10][4] && s[7] == s[0..10][7];
    assert s[13] == s[11..19][2] && s[16] == s[11..19][5];
    SliceOfSlice(s, 0, 10, 0, 4);
    SliceOfSlice(s, 0, 10, 5, 7);
    SliceOfSlice(s, 0, 10, 8, 10);
    SliceOfSlice(s, 11, 19, 0, 2);
    SliceOfSlice(s, 11, 19, 3, 5);
    SliceOfSlice(s, 11, 19, 6, 8);
  }

  /** A field written with `Decimal` reads back as its number. */
  lemma FieldOfDecimal(s: string, i: nat, j: nat, n: nat, width: nat)
    requires i <= j <= |s| && s[i..j] == Decimal(n, width)
    ensures Field(s, i, j) == Some(n)
  {
    DecimalRoundTrip(n, width);
  }

  /** Every bookmark the connector writes reads back as the same date-time. */
  lemma BookmarkRoundTrip(d: DateTime)
    requires d.year <= 9999
    ensures ParseBookmark(FormatBookmark(d)) == Some(d)
  {
    var s := FormatBookmark(d);
    FormatBookmarkShape(d);
    FieldOfDecimal(s, 0, 4, d.year as nat, 4);
    FieldOfDecimal(s, 5, 7, d.month, 2);
    FieldOfDecimal(s, 8, 10, d.day, 2);
    FieldOfDecimal(s, 11, 13, d.hour, 2);
    FieldOfDecimal(s, 14, 16, d.minute, 2);
    FieldOfDecimal(s, 17, 19, d.second, 2);
  }

  /** Every text the parser accepts is exactly the bookmark form of what it reads. */
  lemma ParseBookmarkExact(s: string)
    requires ParseBookmark(s).Some?
    ensures FormatBookmark(ParseBookmark(s).value) == s
    ensures ParseBookmark(s).value.year <= 9999
  {
    var d := ParseBookmark(s).value;
    DecimalOfValue(s[0..4]);
    DecimalOfValue(s[5..7]);
    DecimalOfValue(s[8..10]);
    DecimalOfValue(s[11..13]);
    DecimalOfValue(s[14..16]);
    DecimalOfValue(s[17..19]);
    FormatBookmarkShape(d);
    SameBookmarkText(FormatBookmark(d), s);
  }

  /** Two punctuated texts with the same six fields are the same text. */
  lemma SameBookmarkText(f: string, s: string)
    requires Punctuated(f) && Punctuated(s)
    requires f[0..4] == s[0..4] && f[5..7] == s[5..7] && f[8..10] == s[8..10]
    requires f[11..13] == s[11..13] && f[14..16] == s[14..16] && f[17..19] == s[17..19]
    ensures f == s
  {
    forall i | 0 <= i < |s| ensures f[i] == s[i] {
      if i < 4 { assert f[i] == f[0..4][i]; assert s[i] == s[0..4][i]; }
      else if 5 <= i < 7 { assert f[i] == f[5..7][i - 5]; assert s[i] == s[5..7][i - 5]; }
      else if 8 <= i < 10 { assert f[i] == f[8..10][i - 8]; assert s[i] == s[8..10][i - 8]; }
      else if 11 <= i < 13 { assert f[i] == f[11..13][i - 11]; assert s[i] == s[11..13][i - 11]; }
      else if 14 <= i < 16 { assert f[i] == f[14..16][i - 14]; assert s[i] == s[14..16][i - 14]; }
      else if 17 <= i < 19 { assert f[i] == f[17..19][i - 17]; assert s[i] == s[17..19][i - 17]; }
    }
  }
}
