/** The CISA advisory helpers (cisa.py): the advisory date parser, the
    technique-token predicate, the get_ttps dedup-and-resolve loop and the
    goals/ttps assembly of extract_advisory_fields. The page text that
    BeautifulSoup extracts, and the summary and mitigation sections, are
    parameters. */
module Cisa {
  import opened Json
  import opened TtpTokens
  import opened Techniques
  import opened Mitre

  // ---------------------------------------------------------------------
  // parse_date

  /** A calendar date, as datetime.date holds it. */
  datatype Date = Date(year: int, month: int, day: int)

  predicate IsLetter(c: char) {
    ('a' <= c <= 'z') || ('A' <= c <= 'Z')
  }

  /** The number of consecutive ASCII letters of `t` from position `i`. */
  function LetterRun(t: string, i: nat): (n: nat)
    requires i <= |t|
    ensures i + n <= |t|
    decreases |t| - i
  {
    if i < |t| && IsLetter(t[i]) then 1 + LetterRun(t, i + 1) else 0
  }

  /** The run holds letters only. */
  lemma {:induction false} LetterRunLetters(t: string, i: nat)
    requires i <= |t|
    ensures forall k :: i <= k < i + LetterRun(t, i) ==> IsLetter(t[k])
    decreases |t| - i
  {
    if i < |t| && IsLetter(t[i]) {
      LetterRunLetters(t, i + 1);
    }
  }

  /** The number of consecutive whitespace characters (`\s`) from position `i`. */
  function SpaceRun(t: string, i: nat): (n: nat)
    requires i <= |t|
    ensures i + n <= |t|
    decreases |t| - i
  {
    if i < |t| && IsSpace(t[i]) then 1 + SpaceRun(t, i + 1) else 0
  }

  /** The three parts of a `[A-Za-z]{3,9}\s+\d{1,2},\s+\d{4}` match: the month
      word, the day digits and the year digits. The whitespace between them
      plays no further part: strptime's format turns each space into `\s+`. */
  datatype DateParts = DateParts(word: string, day: string, year: string)

  predicate AllLetters(s: string) {
    forall k :: 0 <= k < |s| ==> IsLetter(s[k])
  }

  /** The shape of the text the date pattern matches. */
  predicate IsDateMatch(p: DateParts) {
    && 3 <= |p.word| <= 9 && AllLetters(p.word)
    && 1 <= |p.day| <= 2 && AllDigits(p.day)
    && |p.year| == 4 && AllDigits(p.year)
  }

  lemma LettersSlice(t: string, i: nat, n: nat)
    requires i + n <= |t| && forall k :: i <= k < i + n ==> IsLetter(t[k])
    ensures AllLetters(t[i..i + n])
  {
    var w := t[i..i + n];
    forall m | 0 <= m < n
      ensures IsLetter(w[m])
    {
      assert w[m] == t[i + m];
    }
  }

  lemma DigitsSlice(t: string, i: nat, n: nat)
    requires i + n <= |t| && forall k :: i <= k < i + n ==> IsDigit(t[k])
    ensures AllDigits(t[i..i + n])
  {
    var w := t[i..i + n];
    forall m | 0 <= m < n
      ensures IsDigit(w[m])
    {
      assert w[m] == t[i + m];
    }
  }

  /** `,\s+\d{4}` from position `c`, which holds the comma: the year digits. */
  function YearAt(t: string, c: nat): (r: Option<string>)
    requires c <= |t|
    ensures r.Some? ==> |r.value| == 4 && AllDigits(r.value)
  {
    if c < |t| && t[c] == ',' then
      var w := SpaceRun(t, c + 1);
      var k := c + 1 + w;
      if w >= 1 && DigitRun(t, k) >= 4 then
        DigitRunDigits(t, k);
        DigitsSlice(t, k, 4);
        Some(t[k..k + 4])
      else None
    else None
  }

  /** The match of the date pattern that starts at `i`, if any. The letter,
      whitespace and day-digit runs cannot give characters back to the next
      item (a run followed by what the next item needs has to be complete),
      so each run is taken whole; the year takes the first four digits of
      its run. */
  function DateMatchAt(t: string, i: nat): Option<DateParts>
    requires i <= |t|
  {
    var l := LetterRun(t, i);
    var w := SpaceRun(t, i + l);
    var j := i + l + w;
    var d := DigitRun(t, j);
    if 3 <= l <= 9 && w >= 1 && 1 <= d <= 2 then
      match YearAt(t, j + d)
      case None => None
      case Some(year) => Some(DateParts(t[i..i + l], t[j..j + d], year))
    else None
  }

  /** A match of the date pattern has a word of 3 to 9 letters, a day of 1
      or 2 digits and a year of 4 digits. */
  lemma DateMatchAtShape(t: string, i: nat)
    requires i <= |t| && DateMatchAt(t, i).Some?
    ensures IsDateMatch(DateMatchAt(t, i).value)
  {
    var l := LetterRun(t, i);
    var j := i + l + SpaceRun(t, i + l);
    LetterRunLetters(t, i);
    LettersSlice(t, i, l);
    DigitRunDigits(t, j);
    DigitsSlice(t, j, DigitRun(t, j));
  }

  /** The match results of the date pattern at every position of `t`. */
  function DateMatches(t: string): (ms: seq<Option<DateParts>>)
    ensures |ms| == |t| + 1
    ensures forall i :: 0 <= i <= |t| ==> ms[i] == DateMatchAt(t, i)
  {
    seq(|t| + 1, i requires 0 <= i <= |t| => DateMatchAt(t, i))
  }

  /** The first match in `ms` at or after position `from`. */
  function FirstMatch(ms: seq<Option<DateParts>>, from: nat): (r: Option<DateParts>)
    ensures r.Some? ==> exists i :: from <= i < |ms| && ms[i] == r
    decreases |ms| - from
  {
    if from >= |ms| then None
    else if ms[from].Some? then ms[from]
    else FirstMatch(ms, from + 1)
  }

  /** `re.search`: the match at the leftmost position where the date pattern
      matches. */
  function SearchDate(t: string): Option<DateParts> {
    FirstMatch(DateMatches(t), 0)
  }

  /** The month names of the C locale, lower-cased, as strptime matches them
      (`%b` and `%B`). */
  const MonthAbbreviations: seq<string> :=
    ["jan", "feb", "mar", "apr", "may", "jun", "jul", "aug", "sep", "oct", "nov", "dec"]
  const MonthNames: seq<string> :=
    ["january", "february", "march", "april", "may", "june",
     "july", "august", "september", "october", "november", "december"]

  function LowerChar(c: char): char {
    if 'A' <= c <= 'Z' then (c as int + 32) as char else c
  }

  /** ASCII lower case (the month word holds ASCII letters only). */
  function Lower(s: string): (r: string)
    ensures |r| == |s| && forall k :: 0 <= k < |s| ==> r[k] == LowerChar(s[k])
  {
    seq(|s|, k requires 0 <= k < |s| => LowerChar(s[k]))
  }

  /** The month (1 to 12) whose name in `names` the word is, ignoring case. */
  function MonthNumber(word: string, names: seq<string>): (r: Option<int>)
    ensures r.Some? ==> 1 <= r.value <= |names| && names[r.value - 1] == Lower(word)
    ensures r.None? <==> Lower(word) !in names
  {
    if names == [] then None
    else if names[0] == Lower(word) then Some(1)
    else
      match MonthNumber(word, names[1..])
      case None => None
      case Some(m) => Some(m + 1)
  }

  function DigitValue(c: char): int {
    c as int - '0' as int
  }

  /** `%d`: the day pattern `3[01]|[12]\d|0[1-9]|[1-9]| [1-9]` applied to day
      digits that are followed by the comma; the value when it matches. */
  function DayNumber(day: string): (r: Option<int>)
    requires 1 <= |day| <= 2 && AllDigits(day)
    ensures r.Some? ==> 1 <= r.value <= 31
  {
    assert IsDigit(day[0]) && IsDigit(day[|day| - 1]);
    if |day| == 1 then
      if day[0] != '0' then Some(DigitValue(day[0])) else None
    else if (day[0] == '3' && day[1] <= '1') || day[0] == '1' || day[0] == '2' || (day[0] == '0' && day[1] != '0') then
      Some(10 * DigitValue(day[0]) + DigitValue(day[1]))
    else None
  }

  /** `%Y`: four digits. */
  function YearNumber(year: string): (r: int)
    requires |year| == 4
  {
    1000 * DigitValue(year[0]) + 100 * DigitValue(year[1]) + 10 * DigitValue(year[2]) + DigitValue(year[3])
  }

  predicate IsLeapYear(y: int) {
    y % 4 == 0 && (y % 100 != 0 || y % 400 == 0)
  }

  function DaysInMonth(month: int, year: int): (n: int)
    requires 1 <= month <= 12
    ensures 28 <= n <= 31
  {
    if month == 2 then (if IsLeapYear(year) then 29 else 28)
    else if month == 4 || month == 6 || month == 9 || month == 11 then 30
    else 31
  }

  /** A date datetime.date accepts: year at least 1 (MINYEAR), a month, and a
      day within that month. */
  predicate ValidDate(d: Date) {
    d.year >= 1 && 1 <= d.month <= 12 && 1 <= d.day <= DaysInMonth(d.month, d.year)
  }

  /** `datetime.strptime(s, "%b %d, %Y")` (or `%B`, with `names` the full month
      names) on the text of a date match; None where strptime raises ValueError.
      `%d` takes one or two digits and `%Y` four. */
  function Strptime(p: DateParts, names: seq<string>): (r: Option<Date>)
    ensures r.Some? ==> ValidDate(r.value)
    ensures r.Some? ==> 1 <= r.value.month <= |names| && names[r.value.month - 1] == Lower(p.word)
    ensures r.Some? ==> 1 <= |p.day| <= 2 && AllDigits(p.day) && |p.year| == 4
    ensures r.Some? ==> DayNumber(p.day) == Some(r.value.day) && r.value.year == YearNumber(p.year)
  {
    if !(1 <= |p.day| <= 2 && AllDigits(p.day) && |p.year| == 4) then None
    else
    match MonthNumber(p.word, names)
    case None => None
    case Some(m) =>
      match DayNumber(p.day)
      case None => None
      case Some(d) =>
        var date := Date(YearNumber(p.year), m, d);
        if m <= 12 && ValidDate(date) then Some(date) else None
  }

  /** Conversely, a month word of `names`, a day `%d` accepts and a four
      digit year that together make a valid date are parsed to that date. */
  lemma StrptimeValid(p: DateParts, names: seq<string>, m: int, d: int)
    requires 1 <= |p.day| <= 2 && AllDigits(p.day) && |p.year| == 4
    requires MonthNumber(p.word, names) == Some(m) && m <= 12
    requires DayNumber(p.day) == Some(d)
    requires ValidDate(Date(YearNumber(p.year), m, d))
    ensures Strptime(p, names) == Some(Date(YearNumber(p.year), m, d))
  {
  }

  /** parse_date: nothing for a missing or empty text; otherwise the first
      date-like substring, read with the abbreviated month names, then with
      the full ones. */
  function ParseDate(dateText: Option<string>): (r: Option<Date>)
    ensures dateText.None? || dateText.value == "" ==> r.None?
    ensures r.Some? ==> ValidDate(r.value)
  {
    if dateText.None? || dateText.value == "" then None
    else
      match SearchDate(dateText.value)
      case None => None
      case Some(p) =>
        var abbreviated := Strptime(p, MonthAbbreviations);
        if abbreviated.Some? then abbreviated else Strptime(p, MonthNames)
  }

  /** The search finds nothing exactly when the pattern matches nowhere. */
  lemma {:induction false} FirstMatchNone(ms: seq<Option<DateParts>>, from: nat)
    ensures FirstMatch(ms, from).None? <==> forall i :: from <= i < |ms| ==> ms[i].None?
    decreases |ms| - from
  {
    if from < |ms| && ms[from].None? {
      FirstMatchNone(ms, from + 1);
    }
  }

  /** The leftmost match is the one the search returns. */
  lemma {:induction false} FirstMatchAt(ms: seq<Option<DateParts>>, from: nat, i: nat)
    requires from <= i < |ms| && ms[i].Some?
    requires forall k :: from <= k < i ==> ms[k].None?
    ensures FirstMatch(ms, from) == ms[i]
    decreases i - from
  {
    if from < i {
      FirstMatchAt(ms, from + 1, i);
    }
  }

  /** Text in which the date pattern matches nowhere gives no date. */
  lemma ParseDateNoMatch(t: string)
    requires forall i :: 0 <= i <= |t| ==> DateMatchAt(t, i).None?
    ensures ParseDate(Some(t)) == None
  {
    FirstMatchNone(DateMatches(t), 0);
  }

  /** Only the first match is read: when it is not a valid date in either
      format the result is None, whatever follows it. */
  lemma ParseDateFirstMatchOnly(t: string, i: nat)
    requires i <= |t| && DateMatchAt(t, i).Some?
    requires forall k :: 0 <= k < i ==> DateMatchAt(t, k).None?
    requires Strptime(DateMatchAt(t, i).value, MonthAbbreviations).None?
    requires Strptime(DateMatchAt(t, i).value, MonthNames).None?
    ensures ParseDate(Some(t)) == None
  {
    FirstMatchAt(DateMatches(t), 0, i);
  }

  /** The two formats never disagree: the only month word both of them know
      is "may", which is month 5 in each. So trying the abbreviated names
      first decides only which format succeeds, not the date. */
  lemma FormatsAgree(p: DateParts)
    requires IsDateMatch(p)
    requires Strptime(p, MonthAbbreviations).Some? && Strptime(p, MonthNames).Some?
    ensures Strptime(p, MonthAbbreviations) == Strptime(p, MonthNames)
  {
    var a := Strptime(p, MonthAbbreviations).value.month;
    var f := Strptime(p, MonthNames).value.month;
    SharedMonthName(a - 1, f - 1);
  }

  /** "may" is the only word in both lists of month names. */
  lemma SharedMonthName(a: int, f: int)
    requires 0 <= a < 12 && 0 <= f < 12 && MonthAbbreviations[a] == MonthNames[f]
    ensures a == 4 && f == 4
  {
    assert |MonthNames[f]| == 3;
  }

  lemma {:induction false} LetterRunIs(t: string, i: nat, n: nat)
    requires i + n <= |t|
    requires forall k :: i <= k < i + n ==> IsLetter(t[k])
    requires i + n == |t| || !IsLetter(t[i + n])
    ensures LetterRun(t, i) == n
    decreases n
  {
    if n > 0 {
      LetterRunIs(t, i + 1, n - 1);
    }
  }

  lemma {:induction false} SpaceRunIs(t: string, i: nat, n: nat)
    requires i + n <= |t|
    requires forall k :: i <= k < i + n ==> IsSpace(t[k])
    requires i + n == |t| || !IsSpace(t[i + n])
    ensures SpaceRun(t, i) == n
    decreases n
  {
    if n > 0 {
      SpaceRunIs(t, i + 1, n - 1);
    }
  }

  lemma {:induction false} DigitRunIs(t: string, i: nat, n: nat)
    requires i + n <= |t|
    requires forall k :: i <= k < i + n ==> IsDigit(t[k])
    requires i + n == |t| || !IsDigit(t[i + n])
    ensures DigitRun(t, i) == n
    decreases n
  {
    if n > 0 {
      DigitRunIs(t, i + 1, n - 1);
    }
  }

  lemma {:induction false} DigitRunAtLeast(t: string, i: nat, n: nat)
    requires i + n <= |t|
    requires forall k :: i <= k < i + n ==> IsDigit(t[k])
    ensures DigitRun(t, i) >= n
    decreases n
  {
    if n > 0 {
      DigitRunAtLeast(t, i + 1, n - 1);
    }
  }

  lemma YearAtOf(t: string, c: nat)
    requires c + 6 <= |t| && t[c] == ',' && t[c + 1] == ' ' && AllDigits(t[c + 2..c + 6])
    ensures YearAt(t, c) == Some(t[c + 2..c + 6])
  {
    assert IsDigit(t[c + 2..c + 6][0]);
    SpaceRunIs(t, c + 1, 1);
    assert forall k :: c + 2 <= k < c + 6 ==> t[c + 2..c + 6][k - c - 2] == t[k];
    DigitRunAtLeast(t, c + 2, 4);
  }

  /** The match at `i` from the lengths of its runs. */
  lemma DateMatchAtOf(t: string, i: nat, l: nat, w: nat, d: nat)
    requires i <= |t| && LetterRun(t, i) == l && SpaceRun(t, i + l) == w && DigitRun(t, i + l + w) == d
    requires 3 <= l <= 9 && w >= 1 && 1 <= d <= 2 && YearAt(t, i + l + w + d).Some?
    ensures DateMatchAt(t, i) ==
      Some(DateParts(t[i..i + l], t[i + l + w..i + l + w + d], YearAt(t, i + l + w + d).value))
  {
  }

  /** The runs the date pattern takes at the start of such a text. */
  lemma DateRunsAtStart(t: string, l: nat, d: nat)
    requires 3 <= l <= 9 && 1 <= d <= 2 && l + d + 7 <= |t|
    requires AllLetters(t[0..l]) && t[l] == ' ' && AllDigits(t[l + 1..l + 1 + d])
    requires t[l + 1 + d] == ','
    ensures LetterRun(t, 0) == l && SpaceRun(t, l) == 1 && DigitRun(t, l + 1) == d
  {
    assert forall k :: 0 <= k < l ==> t[0..l][k] == t[k];
    LetterRunIs(t, 0, l);
    assert IsDigit(t[l + 1..l + 1 + d][0]);
    SpaceRunIs(t, l, 1);
    assert forall k :: l + 1 <= k < l + 1 + d ==> t[l + 1..l + 1 + d][k - l - 1] == t[k];
    DigitRunIs(t, l + 1, d);
  }

  /** A text that opens with a month word, one space, one or two day digits,
      a comma, one space and four digits matches at its start, with those
      three parts. */
  lemma DateMatchAtStart(t: string, l: nat, d: nat)
    requires 3 <= l <= 9 && 1 <= d <= 2 && l + d + 7 <= |t|
    requires AllLetters(t[0..l]) && t[l] == ' ' && AllDigits(t[l + 1..l + 1 + d])
    requires t[l + 1 + d] == ',' && t[l + 2 + d] == ' ' && AllDigits(t[l + 3 + d..l + 7 + d])
    ensures DateMatchAt(t, 0) == Some(DateParts(t[0..l], t[l + 1..l + 1 + d], t[l + 3 + d..l + 7 + d]))
  {
    DateRunsAtStart(t, l, d);
    YearAtOf(t, l + 1 + d);
    DateMatchAtOf(t, 0, l, 1, d);
  }

  /** Such a text is read from that leading match: with the abbreviated month
      names when they know the word and the day fits, else with the full ones. */
  lemma ParseDateAtStart(t: string, l: nat, d: nat)
    requires 3 <= l <= 9 && 1 <= d <= 2 && l + d + 7 <= |t|
    requires AllLetters(t[0..l]) && t[l] == ' ' && AllDigits(t[l + 1..l + 1 + d])
    requires t[l + 1 + d] == ',' && t[l + 2 + d] == ' ' && AllDigits(t[l + 3 + d..l + 7 + d])
    ensures var p := DateParts(t[0..l], t[l + 1..l + 1 + d], t[l + 3 + d..l + 7 + d]);
      IsDateMatch(p) &&
      ParseDate(Some(t)) ==
        if Strptime(p, MonthAbbreviations).Some? then Strptime(p, MonthAbbreviations)
        else Strptime(p, MonthNames)
  {
    DateMatchAtStart(t, l, d);
    assert DateMatches(t)[0] == DateMatchAt(t, 0);
  }

  /** The month of a word is the position of its first equal name. */
  lemma {:induction false} MonthNumberAt(word: string, names: seq<string>, k: nat)
    requires k < |names| && names[k] == Lower(word)
    requires forall j :: 0 <= j < k ==> names[j] != Lower(word)
    ensures MonthNumber(word, names) == Some(k + 1)
  {
    if k > 0 {
      MonthNumberAt(word, names[1..], k - 1);
    }
  }

  lemma AbbreviationLengths(w: string)
    requires |w| != 3
    ensures w !in MonthAbbreviations
  {
    assert forall k :: 0 <= k < 12 ==> |MonthAbbreviations[k]| == 3;
  }

  /** A word of other than three letters is no abbreviated month name. */
  lemma LongWordIsNoAbbreviation(word: string)
    requires |word| != 3
    ensures MonthNumber(word, MonthAbbreviations) == None
  {
    AbbreviationLengths(Lower(word));
  }

  lemma FullNameLengths(w: string)
    requires |w| == 3 && w != "may"
    ensures w !in MonthNames
  {
    assert forall k :: 0 <= k < 12 && k != 4 ==> |MonthNames[k]| > 3;
  }

  /** A three-letter word other than "may" is no full month name. */
  lemma ShortWordIsNoFullName(word: string)
    requires |word| == 3 && Lower(word) != "may"
    ensures MonthNumber(word, MonthNames) == None
  {
    FullNameLengths(Lower(word));
  }

  /** strptime succeeds with the month and day it reads, when the date is
      valid. */
  lemma StrptimeOf(p: DateParts, names: seq<string>, m: int, d: int)
    requires IsDateMatch(p)
    requires MonthNumber(p.word, names) == Some(m) && DayNumber(p.day) == Some(d)
    requires m <= 12 && ValidDate(Date(YearNumber(p.year), m, d))
    ensures Strptime(p, names) == Some(Date(YearNumber(p.year), m, d))
  {
  }

  // The formats in the parser's own comment, 'OCT 09, 2025', 'Oct 9, 2025'
  // and 'February 01, 2024', and a day the month does not have. Each text is
  // split into its match and the strptime calls on it.

  lemma UpperCaseFields()
    ensures IsDateMatch(DateParts("OCT", "09", "2025"))
    ensures DayNumber("09") == Some(9) && YearNumber("2025") == 2025
  {
  }

  lemma UpperCaseMonth()
    ensures MonthNumber("OCT", MonthAbbreviations) == Some(10)
  {
    assert Lower("OCT") == "oct";
    MonthNumberAt("OCT", MonthAbbreviations, 9);
  }

  lemma UpperCaseStrptime()
    ensures Strptime(DateParts("OCT", "09", "2025"), MonthAbbreviations) == Some(Date(2025, 10, 9))
  {
    UpperCaseFields();
    UpperCaseMonth();
    assert DaysInMonth(10, 2025) == 31;
    StrptimeOf(DateParts("OCT", "09", "2025"), MonthAbbreviations, 10, 9);
  }

  /** Month names are matched ignoring case, and the day may be zero-padded. */
  lemma ParseDateUpperCase(t: string)
    requires t == "OCT 09, 2025"
    ensures ParseDate(Some(t)) == Some(Date(2025, 10, 9))
  {
    assert t[0..3] == "OCT" && t[4..6] == "09" && t[8..12] == "2025";
    ParseDateAtStart(t, 3, 2);
    UpperCaseStrptime();
  }

  lemma OneDigitFields()
    ensures IsDateMatch(DateParts("Oct", "9", "2025"))
    ensures DayNumber("9") == Some(9) && YearNumber("2025") == 2025
  {
  }

  lemma OneDigitMonth()
    ensures MonthNumber("Oct", MonthAbbreviations) == Some(10)
  {
    assert Lower("Oct") == "oct";
    MonthNumberAt("Oct", MonthAbbreviations, 9);
  }

  lemma OneDigitStrptime()
    ensures Strptime(DateParts("Oct", "9", "2025"), MonthAbbreviations) == Some(Date(2025, 10, 9))
  {
    OneDigitFields();
    OneDigitMonth();
    assert DaysInMonth(10, 2025) == 31;
    StrptimeOf(DateParts("Oct", "9", "2025"), MonthAbbreviations, 10, 9);
  }

  /** A day of one digit is read as well. */
  lemma ParseDateOneDigitDay(t: string)
    requires t == "Oct 9, 2025"
    ensures ParseDate(Some(t)) == Some(Date(2025, 10, 9))
  {
    assert t[0..3] == "Oct" && t[4..5] == "9" && t[7..11] == "2025";
    ParseDateAtStart(t, 3, 1);
    OneDigitStrptime();
  }

  lemma FullNameFields()
    ensures IsDateMatch(DateParts("February", "01", "2024"))
    ensures DayNumber("01") == Some(1) && YearNumber("2024") == 2024
  {
  }

  lemma FullNameMonth()
    ensures MonthNumber("February", MonthNames) == Some(2)
  {
    assert Lower("February") == "february";
    MonthNumberAt("February", MonthNames, 1);
  }

  lemma FullNameNoAbbreviation()
    ensures Strptime(DateParts("February", "01", "2024"), MonthAbbreviations) == None
  {
    FullNameFields();
    LongWordIsNoAbbreviation("February");
  }

  lemma FullNameStrptime()
    ensures Strptime(DateParts("February", "01", "2024"), MonthNames) == Some(Date(2024, 2, 1))
  {
    FullNameFields();
    FullNameMonth();
    assert DaysInMonth(2, 2024) == 29;
    StrptimeOf(DateParts("February", "01", "2024"), MonthNames, 2, 1);
  }

  /** A full month name fails the abbreviated format and is read by the second. */
  lemma ParseDateFullName(t: string)
    requires t == "February 01, 2024"
    ensures ParseDate(Some(t)) == Some(Date(2024, 2, 1))
  {
    assert t[0..8] == "February" && t[9..11] == "01" && t[13..17] == "2024";
    ParseDateAtStart(t, 8, 2);
    FullNameNoAbbreviation();
    FullNameStrptime();
  }

  lemma NoSuchDayFields()
    ensures IsDateMatch(DateParts("Feb", "30", "2024"))
    ensures DayNumber("30") == Some(30) && YearNumber("2024") == 2024
    ensures Lower("Feb") == "feb"
  {
  }

  lemma NoSuchDayMonth()
    ensures MonthNumber("Feb", MonthAbbreviations) == Some(2)
  {
    assert Lower("Feb") == "feb";
    MonthNumberAt("Feb", MonthAbbreviations, 1);
  }

  lemma NoSuchDayStrptime()
    ensures Strptime(DateParts("Feb", "30", "2024"), MonthAbbreviations) == None
    ensures Strptime(DateParts("Feb", "30", "2024"), MonthNames) == None
  {
    NoSuchDayFields();
    NoSuchDayMonth();
    ShortWordIsNoFullName("Feb");
    assert DaysInMonth(2, 2024) == 29;
  }

  /** A day the month does not have fails both formats, and the text gives
      no date. */
  lemma ParseDateNoSuchDay(t: string)
    requires t == "Feb 30, 2024"
    ensures ParseDate(Some(t)) == None
  {
    assert t[0..3] == "Feb" && t[4..6] == "30" && t[8..12] == "2024";
    ParseDateAtStart(t, 3, 2);
    NoSuchDayStrptime();
  }

  // ---------------------------------------------------------------------
  // contains_ttps

  /** contains_ttps: the technique pattern (the same as TTP_REGEX) matches
      somewhere in the text. */
  predicate ContainsTtps(text: string) {
    HasMatchFrom(text, 0)
  }

  /** contains_ttps holds exactly when the scan finds a token. */
  lemma ContainsTtpsIffTokens(text: string)
    ensures ContainsTtps(text) <==> FindTtps(text) != []
  {
    FindFromNonEmptyIff(text, 0);
  }

  // ---------------------------------------------------------------------
  // get_ttps

  /** The ids get_ttps keeps, given the ids already stored: a token equal to
      a stored id is skipped, and any other token is stored in its remapped
      form. The check compares the raw token with the remapped ids. */
  function KeptIdsAfter(tokens: seq<string>, stored: seq<string>): (r: seq<string>)
    ensures |r| <= |tokens|
  {
    if tokens == [] then []
    else if tokens[0] in stored then KeptIdsAfter(tokens[1..], stored)
    else [RemapOldTid(tokens[0])] + KeptIdsAfter(tokens[1..], stored + [RemapOldTid(tokens[0])])
  }

  /** The ids get_ttps resolves for the tokens of a page, in order. */
  function KeptIds(tokens: seq<string>): (r: seq<string>)
    ensures |r| <= |tokens|
  {
    KeptIdsAfter(tokens, [])
  }

  /** The get_ttps loop from `stored` on: each token is checked against the
      ids stored so far and, when new, resolved on its remapped id, which
      may raise. */
  function CisaTtpsAfter(tokens: seq<string>, stored: seq<Technique>, resolve: Resolver): Outcome<seq<Technique>>
  {
    if tokens == [] then Ok(stored)
    else if tokens[0] in Ids(stored) then CisaTtpsAfter(tokens[1..], stored, resolve)
    else
      match resolve(RemapOldTid(tokens[0]))
      case Raises(e) => Raises(e)
      case Ok(t) => CisaTtpsAfter(tokens[1..], stored + [t], resolve)
  }

  /** get_ttps on the tokens of a page. */
  function CisaTtps(tokens: seq<string>, resolve: Resolver): Outcome<seq<Technique>> {
    CisaTtpsAfter(tokens, [], resolve)
  }

  lemma KeptIdsAfterNew(tokens: seq<string>, stored: seq<string>)
    requires tokens != [] && tokens[0] !in stored
    ensures KeptIdsAfter(tokens, stored) ==
      [RemapOldTid(tokens[0])] + KeptIdsAfter(tokens[1..], stored + [RemapOldTid(tokens[0])])
  {
  }

  lemma CisaTtpsAfterNew(tokens: seq<string>, stored: seq<Technique>, resolve: Resolver, t: Technique)
    requires tokens != [] && tokens[0] !in Ids(stored)
    requires resolve(RemapOldTid(tokens[0])) == Ok(t)
    ensures CisaTtpsAfter(tokens, stored, resolve) == CisaTtpsAfter(tokens[1..], stored + [t], resolve)
  {
  }

  /** Resolving after the dedup gives the loop's answer: the records stored
      carry the ids they were resolved on, so checking tokens against the
      records is checking them against the kept ids. */
  lemma {:induction false} CisaTtpsAfterIsResolveAll(tokens: seq<string>, stored: seq<Technique>, resolve: Resolver)
    requires KeepsIds(resolve)
    ensures CisaTtpsAfter(tokens, stored, resolve) == After(stored, ResolveAll(KeptIdsAfter(tokens, Ids(stored)), resolve))
    decreases |tokens|
  {
    if tokens == [] {
      assert stored + [] == stored;
    } else if tokens[0] in Ids(stored) {
      CisaTtpsAfterIsResolveAll(tokens[1..], stored, resolve);
    } else {
      var id := RemapOldTid(tokens[0]);
      var rest := KeptIdsAfter(tokens[1..], Ids(stored) + [id]);
      KeptIdsAfterNew(tokens, Ids(stored));
      ResolveAllCons(id, rest, resolve);
      match resolve(id) {
        case Raises(e) =>
        case Ok(t) =>
          CisaTtpsAfterNew(tokens, stored, resolve, t);
          IdsAppend(stored, t);
          CisaTtpsAfterIsResolveAll(tokens[1..], stored + [t], resolve);
          AfterAfter(stored, [t], ResolveAll(rest, resolve));
      }
    }
  }

  /** get_ttps resolves exactly the kept ids, in order. */
  lemma CisaTtpsIsResolveAll(tokens: seq<string>, resolve: Resolver)
    requires KeepsIds(resolve)
    ensures CisaTtps(tokens, resolve) == ResolveAll(KeptIds(tokens), resolve)
  {
    assert Ids([]) == [];
    CisaTtpsAfterIsResolveAll(tokens, [], resolve);
    match ResolveAll(KeptIds(tokens), resolve) {
      case Raises(e) =>
      case Ok(ts) => assert [] + ts == ts;
    }
  }

  /** Every kept id is the remapping of a token. */
  lemma {:induction false} KeptIdsAfterFromTokens(tokens: seq<string>, stored: seq<string>, i: nat)
    requires i < |KeptIdsAfter(tokens, stored)|
    ensures exists j :: 0 <= j < |tokens| && KeptIdsAfter(tokens, stored)[i] == RemapOldTid(tokens[j])
  {
    if tokens[0] in stored {
      KeptIdsAfterFromTokens(tokens[1..], stored, i);
      var j :| 0 <= j < |tokens[1..]| && KeptIdsAfter(tokens[1..], stored)[i] == RemapOldTid(tokens[1..][j]);
      assert tokens[1..][j] == tokens[j + 1];
    } else if i > 0 {
      var rest := stored + [RemapOldTid(tokens[0])];
      KeptIdsAfterFromTokens(tokens[1..], rest, i - 1);
      var j :| 0 <= j < |tokens[1..]| && KeptIdsAfter(tokens[1..], rest)[i - 1] == RemapOldTid(tokens[1..][j]);
      assert tokens[1..][j] == tokens[j + 1];
    } else {
      assert KeptIdsAfter(tokens, stored)[0] == RemapOldTid(tokens[0]);
    }
  }

  /** Every token's remapping is kept or was already stored: a token that
      matches a stored id is itself a remapped id, and remapping is
      idempotent. */
  lemma {:induction false} KeptIdsAfterCoverTokens(tokens: seq<string>, stored: seq<string>, j: nat)
    requires forall k :: 0 <= k < |stored| ==> RemapOldTid(stored[k]) == stored[k]
    requires j < |tokens|
    ensures RemapOldTid(tokens[j]) in stored || RemapOldTid(tokens[j]) in KeptIdsAfter(tokens, stored)
  {
    if tokens[0] in stored {
      if j == 0 {
        var k :| 0 <= k < |stored| && stored[k] == tokens[0];
        assert RemapOldTid(tokens[0]) == stored[k];
      } else {
        KeptIdsAfterCoverTokens(tokens[1..], stored, j - 1);
      }
    } else if j > 0 {
      var id := RemapOldTid(tokens[0]);
      RemapIdempotent(tokens[0]);
      var rest := stored + [id];
      assert forall k :: 0 <= k < |rest| ==> RemapOldTid(rest[k]) == rest[k];
      KeptIdsAfterCoverTokens(tokens[1..], rest, j - 1);
      assert tokens[1..][j - 1] == tokens[j];
    }
  }

  /** The kept ids grow in token order: one more token at the end of the
      scan adds its remapped id at the end exactly when the raw token is
      neither stored nor kept already, and nothing otherwise. */
  lemma {:induction false} KeptIdsAfterSnoc(tokens: seq<string>, t: string, stored: seq<string>)
    ensures KeptIdsAfter(tokens + [t], stored) ==
      var kept := KeptIdsAfter(tokens, stored);
      if t in stored + kept then kept else kept + [RemapOldTid(t)]
    decreases |tokens|
  {
    if tokens == [] {
      assert [] + [t] == [t] && stored + [] == stored;
    } else {
      assert (tokens + [t])[0] == tokens[0] && (tokens + [t])[1..] == tokens[1..] + [t];
      if tokens[0] in stored {
        KeptIdsAfterSnoc(tokens[1..], t, stored);
      } else {
        var id := RemapOldTid(tokens[0]);
        KeptIdsAfterSnoc(tokens[1..], t, stored + [id]);
        var rest := KeptIdsAfter(tokens[1..], stored + [id]);
        assert stored + [id] + rest == stored + ([id] + rest);
      }
    }
  }

  /** The kept ids of every prefix of the tokens begin the kept ids of the
      whole: an id once kept stays at its place. */
  lemma {:induction false} KeptIdsAfterPrefix(tokens: seq<string>, stored: seq<string>, j: nat)
    requires j <= |tokens|
    ensures KeptIdsAfter(tokens[..j], stored) <= KeptIdsAfter(tokens, stored)
    decreases |tokens| - j
  {
    if j < |tokens| {
      KeptIdsAfterPrefix(tokens, stored, j + 1);
      assert tokens[..j + 1] == tokens[..j] + [tokens[j]];
      KeptIdsAfterSnoc(tokens[..j], tokens[j], stored);
    } else {
      assert tokens[..j] == tokens;
    }
  }

  /** The kept ids are, as a set, the remapped tokens. */
  lemma KeptIdsAreRemappedTokens(tokens: seq<string>)
    ensures (set i | 0 <= i < |KeptIds(tokens)| :: KeptIds(tokens)[i])
         == (set j | 0 <= j < |tokens| :: RemapOldTid(tokens[j]))
  {
    forall i | 0 <= i < |KeptIds(tokens)|
      ensures exists j :: 0 <= j < |tokens| && KeptIds(tokens)[i] == RemapOldTid(tokens[j])
    {
      KeptIdsAfterFromTokens(tokens, [], i);
    }
    forall j | 0 <= j < |tokens|
      ensures RemapOldTid(tokens[j]) in KeptIds(tokens)
    {
      KeptIdsAfterCoverTokens(tokens, [], j);
    }
  }

  /** When the tokens hold no retired id, the kept ids are pairwise distinct
      and none was stored before: each token is compared with ids equal to
      the tokens themselves, so the dedup works. */
  lemma {:induction false} KeptIdsAfterDistinct(tokens: seq<string>, stored: seq<string>)
    requires forall j :: 0 <= j < |tokens| ==> tokens[j] !in TidRemap
    ensures forall a :: 0 <= a < |KeptIdsAfter(tokens, stored)| ==> KeptIdsAfter(tokens, stored)[a] !in stored
    ensures forall a, b :: 0 <= a < b < |KeptIdsAfter(tokens, stored)| ==>
      KeptIdsAfter(tokens, stored)[a] != KeptIdsAfter(tokens, stored)[b]
  {
    if tokens != [] {
      assert forall j :: 0 <= j < |tokens[1..]| ==> tokens[1..][j] == tokens[j + 1];
      if tokens[0] in stored {
        KeptIdsAfterDistinct(tokens[1..], stored);
      } else {
        var rest := stored + [tokens[0]];
        assert RemapOldTid(tokens[0]) == tokens[0];
        KeptIdsAfterDistinct(tokens[1..], rest);
        var r := KeptIdsAfter(tokens, stored);
        assert r == [tokens[0]] + KeptIdsAfter(tokens[1..], rest);
        forall a | 0 <= a < |r| ensures r[a] !in stored {
          if a > 0 {
            assert r[a] == KeptIdsAfter(tokens[1..], rest)[a - 1];
          }
        }
        forall a, b | 0 <= a < b < |r| ensures r[a] != r[b] {
          assert r[b] == KeptIdsAfter(tokens[1..], rest)[b - 1];
          if a > 0 {
            assert r[a] == KeptIdsAfter(tokens[1..], rest)[a - 1];
          } else {
            assert r[b] !in rest;
          }
        }
      }
    }
  }

  lemma KeptIdsDistinct(tokens: seq<string>)
    requires forall j :: 0 <= j < |tokens| ==> tokens[j] !in TidRemap
    ensures forall a, b :: 0 <= a < b < |KeptIds(tokens)| ==> KeptIds(tokens)[a] != KeptIds(tokens)[b]
  {
    KeptIdsAfterDistinct(tokens, []);
  }

  /** A current id that repeats is kept once; a retired id that repeats is
      kept, remapped, every time, because the stored id never equals the
      raw token. */
  lemma KeptIdsExamples()
    ensures KeptIds(["T1059", "T1059"]) == ["T1059"]
    ensures KeptIds(["T1086", "T1086"]) == ["T1059.001", "T1059.001"]
  {
    assert "T1059" !in TidRemap;
    assert KeptIdsAfter(["T1059"], ["T1059"]) == [];
    assert KeptIdsAfter(["T1086"], ["T1059.001"]) == ["T1059.001"];
  }

  /** `any(t.get("id") == tid for t in ttps)`. */
  method IsStored(ttps: seq<Technique>, tid: string) returns (seen: bool)
    ensures seen <==> tid in Ids(ttps)
  {
    seen := false;
    var k := 0;
    while k < |ttps| && !seen
      invariant k <= |ttps|
      invariant seen <==> tid in Ids(ttps[..k])
    {
      seen := ttps[k].id == tid;
      assert Ids(ttps[..k + 1]) == Ids(ttps[..k]) + [ttps[k].id];
      k := k + 1;
    }
    if !seen {
      assert ttps[..k] == ttps;
    } else {
      assert forall x :: x in Ids(ttps[..k]) ==> x in Ids(ttps);
    }
  }

  /** get_ttps: scans the page text for technique tokens, and resolves each
      token not already stored, on its remapped id. */
  method GetTtps(textBlob: string, m: MitreAttack, web: Web) returns (r: Outcome<seq<Technique>>)
    ensures r == CisaTtps(FindTtps(textBlob), m.Resolver(web))
  {
    var tokens := FindTtps(textBlob);
    var ttps: seq<Technique> := [];
    var i := 0;
    while i < |tokens|
      invariant i <= |tokens|
      invariant CisaTtps(tokens, m.Resolver(web)) == CisaTtpsAfter(tokens[i..], ttps, m.Resolver(web))
    {
      var tid := tokens[i];
      assert tokens[i..][0] == tid && tokens[i..][1..] == tokens[i + 1..];
      var seen := IsStored(ttps, tid);
      if !seen {
        tid := RemapOldTid(tid);
        var info := m.GetMitreInfo(tid, web);
        if info.Raises? {
          return Raises(info.error);
        }
        ttps := ttps + [info.value];
      }
      i := i + 1;
    }
    return Ok(ttps);
  }

  // ---------------------------------------------------------------------
  // extract_advisory_fields

  /** The record extract_advisory_fields builds: placeholder title, url and
      date (the caller fills them in), the goal records, and the other
      records. */
  function AdvisoryFields(summary: string, mitigations: string, ttps: seq<Technique>): Report {
    Report("(no title)", "cisa", "(no url)", "(no date)", summary, mitigations, Goals(ttps), NonGoals(ttps))
  }

  /** The `ttps` field excludes every record placed in `goals`, and the two
      fields together hold the resolved records. */
  lemma AdvisoryTtpsExcludeGoals(summary: string, mitigations: string, ttps: seq<Technique>)
    ensures var r := AdvisoryFields(summary, mitigations, ttps);
      && (forall t :: t in r.ttps ==> t in ttps && !IsGoal(t) && t !in r.goals)
      && (forall t :: t in r.goals ==> t in ttps && IsGoal(t))
      && multiset(r.goals) + multiset(r.ttps) == multiset(ttps)
  {
    forall t | t in NonGoals(ttps) ensures t in ttps && !IsGoal(t) && t !in Goals(ttps) {
      NonGoalsMembers(ttps, t);
      GoalsMembers(ttps, t);
    }
    forall t | t in Goals(ttps) ensures t in ttps && IsGoal(t) {
      GoalsMembers(ttps, t);
    }
    PartitionIsPermutation(ttps);
  }

  /** extract_advisory_fields, given the page text and the summary and
      mitigation sections: the technique records of the page, split into
      goals and the rest by filter_goal_ttps. */
  method ExtractAdvisoryFields(textBlob: string, summary: string, mitigations: string, m: MitreAttack, web: Web)
    returns (r: Outcome<Report>)
    ensures r.Raises? <==> CisaTtps(FindTtps(textBlob), m.Resolver(web)).Raises?
    ensures r.Ok? ==> r.value == AdvisoryFields(summary, mitigations, CisaTtps(FindTtps(textBlob), m.Resolver(web)).value)
  {
    var ttps := GetTtps(textBlob, m, web);
    if ttps.Raises? {
      return Raises(ttps.error);
    }
    var list := new TechniqueList(ttps.value);
    var goals := FilterGoalTtps(list);
    return Ok(Report("(no title)", "cisa", "(no url)", "(no date)", summary, mitigations, goals, list.items));
  }
}
