/**
 * `SkatUrlSpider`: walks the tabs of the ruling listing, records the
 * document URL of each case number in `url_info`, and writes `urls.json`
 * when the crawl finishes; plus its date parser `get_date`.
 */
module UrlBot {
  import opened Common
  import opened Ledger
  import DocBot

  const FinishedReason := "finished"

  /*
   * Listing pages and the URL dictionary.
   */

  /** A result row: the text of its case-number cell and the `href` of its link, when present. */
  datatype Row = Row(caseNumber: Option<string>, href: Option<string>)

  /** A listing page: its url, its result rows in order, and the link of the tab after the active one. */
  datatype ListingPage = ListingPage(url: string, rows: seq<Row>, nextHref: Option<string>)

  /** `response.urljoin`, opaque: the absolute url of a (possibly missing) link on a page. */
  type UrlJoin = (string, Option<string>) -> string

  /** The dictionary `{'url': url}` stored per case number. */
  function Entry(url: string): (v: Value)
    ensures DocBot.HasUrl(v) && v.fields[DocBot.ItemUrlKey] == Str(url)
  {
    Obj(map[DocBot.ItemUrlKey := Str(url)])
  }

  /**
   * `url_info` after `parse_result` on a page: the rows are recorded in
   * order, a later row overwriting an earlier one with the same case
   * number, until the first row without a case number ends the page.
   */
  function Recorded(info: map<string, Value>, page: string, rows: seq<Row>, join: UrlJoin): map<string, Value>
    decreases |rows|
  {
    if rows == [] || rows[0].caseNumber.None? then info
    else Recorded(info[rows[0].caseNumber.value := Entry(join(page, rows[0].href))], page, rows[1..], join)
  }

  /** Entries are only added or overwritten, never removed. */
  lemma {:induction false} RecordedKeepsKeys(info: map<string, Value>, page: string, rows: seq<Row>, join: UrlJoin)
    ensures info.Keys <= Recorded(info, page, rows, join).Keys
    decreases |rows|
  {
    if rows != [] && rows[0].caseNumber.Some? {
      RecordedKeepsKeys(info[rows[0].caseNumber.value := Entry(join(page, rows[0].href))], page, rows[1..], join);
    }
  }

  /** A row without a case number ends the page: the rows after it are not recorded. */
  lemma {:induction false} RecordedStopsAtGap(info: map<string, Value>, page: string, rows: seq<Row>, join: UrlJoin,
                                              k: int)
    requires 0 <= k < |rows| && rows[k].caseNumber.None?
    ensures Recorded(info, page, rows, join) == Recorded(info, page, rows[..k], join)
    decreases |rows|
  {
    if k > 0 && rows[0].caseNumber.Some? {
      var next := info[rows[0].caseNumber.value := Entry(join(page, rows[0].href))];
      RecordedStopsAtGap(next, page, rows[1..], join, k - 1);
      assert rows[..k][1..] == rows[1..][..k - 1];
    }
  }

  /**
   * The last row for a case number wins: a row before the first gap whose
   * case number no later row repeats leaves its url in the dictionary.
   */
  lemma {:induction false} RecordedLastWins(info: map<string, Value>, page: string, rows: seq<Row>, join: UrlJoin,
                                            k: int)
    requires 0 <= k < |rows|
    requires forall j :: 0 <= j <= k ==> rows[j].caseNumber.Some?
    requires forall j :: k < j < |rows| ==> rows[j].caseNumber != rows[k].caseNumber
    ensures rows[k].caseNumber.value in Recorded(info, page, rows, join)
    ensures Recorded(info, page, rows, join)[rows[k].caseNumber.value] == Entry(join(page, rows[k].href))
    decreases |rows|
  {
    var next := info[rows[0].caseNumber.value := Entry(join(page, rows[0].href))];
    if k == 0 {
      RecordedUntouched(next, page, rows[1..], join, rows[0].caseNumber.value);
    } else {
      RecordedLastWins(next, page, rows[1..], join, k - 1);
    }
  }

  /** A case number that no row names keeps its entry. */
  lemma {:induction false} RecordedUntouched(info: map<string, Value>, page: string, rows: seq<Row>, join: UrlJoin,
                                             c: string)
    requires c in info
    requires forall j :: 0 <= j < |rows| ==> rows[j].caseNumber != Some(c)
    ensures c in Recorded(info, page, rows, join) && Recorded(info, page, rows, join)[c] == info[c]
    decreases |rows|
  {
    if rows != [] && rows[0].caseNumber.Some? {
      assert rows[0].caseNumber != Some(c);
      RecordedUntouched(info[rows[0].caseNumber.value := Entry(join(page, rows[0].href))], page, rows[1..], join, c);
    }
  }

  /** Every stored value is a `{'url': ...}` dictionary. */
  ghost predicate AllEntries(info: map<string, Value>)
  {
    forall c :: c in info ==> exists url :: info[c] == Entry(url)
  }

  lemma {:induction false} RecordedKeepsEntries(info: map<string, Value>, page: string, rows: seq<Row>, join: UrlJoin)
    requires AllEntries(info)
    ensures AllEntries(Recorded(info, page, rows, join))
    decreases |rows|
  {
    if rows != [] && rows[0].caseNumber.Some? {
      var next := info[rows[0].caseNumber.value := Entry(join(page, rows[0].href))];
      assert next[rows[0].caseNumber.value] == Entry(join(page, rows[0].href));
      RecordedKeepsEntries(next, page, rows[1..], join);
    }
  }

  /**
   * The URL file the spider writes is one the document spider loads, and
   * it yields exactly the recorded urls.
   */
  lemma UrlFileLoads(info: map<string, Value>)
    requires AllEntries(info)
    ensures DocBot.UrlFileLoads(Some(Obj(info)))
    ensures DocBot.UrlsInFile(Some(Obj(info))) == set c | c in info :: info[c].fields[DocBot.ItemUrlKey]
  {
    forall c | c in info
      ensures DocBot.HasUrl(info[c])
    {
      var url :| info[c] == Entry(url);
    }
  }

  class SkatUrlSpider {
    var urlInfo: map<string, Value>

    ghost predicate Valid()
      reads this
    {
      AllEntries(urlInfo)
    }

    constructor()
      ensures urlInfo == map[] && Valid()
    {
      urlInfo := map[];
    }

    /** `parse_result`: records the page's rows, stopping at the first row without a case number. */
    method ParseResult(page: ListingPage, join: UrlJoin)
      requires Valid()
      modifies this
      ensures Valid()
      ensures urlInfo == Recorded(old(urlInfo), page.url, page.rows, join)
    {
      for i := 0 to |page.rows|
        invariant Recorded(urlInfo, page.url, page.rows[i..], join) == Recorded(old(urlInfo), page.url, page.rows, join)
      {
        var caseNumber := page.rows[i].caseNumber;
        if caseNumber.None? {
          RecordedKeepsEntries(old(urlInfo), page.url, page.rows, join);
          return;
        }
        var urlAbs := join(page.url, page.rows[i].href);
        urlInfo := urlInfo[caseNumber.value := Entry(urlAbs)];
        assert page.rows[i..][1..] == page.rows[i + 1..];
      }
      RecordedKeepsEntries(old(urlInfo), page.url, page.rows, join);
    }

    /** `parse`: records the page's rows, then asks for the next tab only when there is a link to it. */
    method Parse(page: ListingPage, join: UrlJoin) returns (next: Option<string>)
      requires Valid()
      modifies this
      ensures Valid()
      ensures urlInfo == Recorded(old(urlInfo), page.url, page.rows, join)
      ensures next.Some? <==> page.nextHref.Some?
      ensures next.Some? ==> next.value == join(page.url, page.nextHref)
    {
      ParseResult(page, join);
      next := None;
      if page.nextHref.Some? {
        next := Some(join(page.url, page.nextHref));
      }
    }

    /** `closed`: `urls.json` is written only when the crawl finished. */
    method Closed(reason: string, folder: DataFolder)
      modifies folder
      ensures reason == FinishedReason ==> folder.urlFile == Some(Obj(urlInfo))
      ensures reason != FinishedReason ==> folder.urlFile == old(folder.urlFile)
      ensures folder.files == old(folder.files) && folder.ledger == old(folder.ledger)
    {
      if reason == FinishedReason {
        folder.WriteUrlFile(Obj(urlInfo));
      }
    }
  }

  /*
   * `get_date`: `datetime.strptime(s, '%d-%m-%y')`, its ValueError caught.
   */

  datatype Date = Date(year: int, month: int, day: int)

  predicate IsLeap(year: int)
  {
    year % 4 == 0 && (year % 100 != 0 || year % 400 == 0)
  }

  function DaysInMonth(year: int, month: int): int
    requires 1 <= month <= 12
  {
    if month == 2 then (if IsLeap(year) then 29 else 28)
    else if month == 4 || month == 6 || month == 9 || month == 11 then 30
    else 31
  }

  predicate ValidDate(d: Date)
  {
    1 <= d.month <= 12 && 1 <= d.day <= DaysInMonth(d.year, d.month)
  }

  predicate IsDigit(c: char) { '0' <= c <= '9' }

  predicate IsNonZeroDigit(c: char) { '1' <= c <= '9' }

  function DigitValue(c: char): int
    requires IsDigit(c)
  {
    c as int - '0' as int
  }

  /** A piece of the input one group of the pattern matched: its number and its length. */
  datatype Token = Token(value: int, len: nat)

  /** The alternatives of the day group, `3[01]|[12]\d|0[1-9]|[1-9]| [1-9]`, that match at `i`, in the order they are tried. */
  function DayTokens(s: string, i: nat): (ts: seq<Token>)
    ensures forall t :: t in ts ==> 1 <= t.value <= 31 && 1 <= t.len <= 2 && i + t.len <= |s|
  {
    (if i + 1 < |s| && s[i] == '3' && (s[i + 1] == '0' || s[i + 1] == '1')
     then [Token(30 + DigitValue(s[i + 1]), 2)] else [])
    + (if i + 1 < |s| && (s[i] == '1' || s[i] == '2') && IsDigit(s[i + 1])
       then [Token(10 * DigitValue(s[i]) + DigitValue(s[i + 1]), 2)] else [])
    + (if i + 1 < |s| && s[i] == '0' && IsNonZeroDigit(s[i + 1]) then [Token(DigitValue(s[i + 1]), 2)] else [])
    + (if i < |s| && IsNonZeroDigit(s[i]) then [Token(DigitValue(s[i]), 1)] else [])
    + (if i + 1 < |s| && s[i] == ' ' && IsNonZeroDigit(s[i + 1]) then [Token(DigitValue(s[i + 1]), 2)] else [])
  }

  /** The alternatives of the month group, `1[0-2]|0[1-9]|[1-9]`, that match at `i`, in the order they are tried. */
  function MonthTokens(s: string, i: nat): (ts: seq<Token>)
    ensures forall t :: t in ts ==> 1 <= t.value <= 12 && 1 <= t.len <= 2 && i + t.len <= |s|
  {
    (if i + 1 < |s| && s[i] == '1' && '0' <= s[i + 1] <= '2' then [Token(10 + DigitValue(s[i + 1]), 2)] else [])
    + (if i + 1 < |s| && s[i] == '0' && IsNonZeroDigit(s[i + 1]) then [Token(DigitValue(s[i + 1]), 2)] else [])
    + (if i < |s| && IsNonZeroDigit(s[i]) then [Token(DigitValue(s[i]), 1)] else [])
  }

  /** The year group `\d\d` at `i`. */
  function YearAt(s: string, i: nat): (y: Option<int>)
    ensures y.Some? ==> i + 2 <= |s| && 0 <= y.value <= 99
  {
    if i + 2 <= |s| && IsDigit(s[i]) && IsDigit(s[i + 1])
    then Some(10 * DigitValue(s[i]) + DigitValue(s[i + 1])) else None
  }

  /** A match of the whole pattern at the start of the input, ending at `end`. */
  datatype Match = Match(day: int, month: int, yy: int, end: nat)

  predicate InRange(m: Match, s: string)
  {
    1 <= m.day <= 31 && 1 <= m.month <= 12 && 0 <= m.yy <= 99 && m.end <= |s|
  }

  /** Backtracking over the month alternatives once the day and its `-` matched. */
  function TryMonths(s: string, day: int, at: nat, months: seq<Token>): (r: Option<Match>)
    requires 1 <= day <= 31
    requires forall t :: t in months ==> 1 <= t.value <= 12
    ensures r.Some? ==> InRange(r.value, s)
    decreases |months|
  {
    if months == [] then None
    else
      var j := at + months[0].len;
      if j < |s| && s[j] == '-' && YearAt(s, j + 1).Some?
      then Some(Match(day, months[0].value, YearAt(s, j + 1).value, j + 3))
      else TryMonths(s, day, at, months[1..])
  }

  /** Backtracking over the day alternatives. */
  function TryDays(s: string, days: seq<Token>): (r: Option<Match>)
    requires forall t :: t in days ==> 1 <= t.value <= 31
    ensures r.Some? ==> InRange(r.value, s)
    decreases |days|
  {
    if days == [] then None
    else
      var j := days[0].len;
      var m := if j < |s| && s[j] == '-' then TryMonths(s, days[0].value, j + 1, MonthTokens(s, j + 1)) else None;
      if m.Some? then m else TryDays(s, days[1..])
  }

  /**
   * `datetime.strptime(s, '%d-%m-%y')`: the first match of the pattern at
   * the start, which must cover the whole input; a two-digit year up to 68
   * is in the 2000s, from 69 in the 1900s; the day must exist in that
   * month. `None` stands for the ValueError.
   */
  function Strptime(s: string): (r: Option<Date>)
    ensures r.Some? ==> ValidDate(r.value) && 1969 <= r.value.year <= 2068
  {
    var m := TryDays(s, DayTokens(s, 0));
    if m.None? || m.value.end != |s| then None
    else
      var year := if m.value.yy <= 68 then 2000 + m.value.yy else 1900 + m.value.yy;
      if m.value.day <= DaysInMonth(year, m.value.month) then Some(Date(year, m.value.month, m.value.day))
      else None
  }

  /** `get_date`: never raises; a missing or unparsable string gives `None`. */
  function GetDate(s: Option<string>): (r: Option<Date>)
    ensures s.None? ==> r.None?
    ensures s.Some? ==> r == Strptime(s.value)
    ensures r.Some? ==> ValidDate(r.value) && 1969 <= r.value.year <= 2068
  {
    if s.Some? then Strptime(s.value) else None
  }

  function TwoDigits(n: int): (s: string)
    requires 0 <= n < 100
    ensures |s| == 2 && IsDigit(s[0]) && IsDigit(s[1])
    ensures DigitValue(s[0]) == n / 10 && DigitValue(s[1]) == n % 10
  {
    [DigitChar(n / 10), DigitChar(n % 10)]
  }

  /** `strftime('%d-%m-%y')`: zero-padded day, month and two-digit year. */
  function FormatDate(d: Date): string
    requires 1 <= d.day <= 31 && 1 <= d.month <= 12
  {
    TwoDigits(d.day) + "-" + TwoDigits(d.month) + "-" + TwoDigits(d.year % 100)
  }

  /** The first month alternative followed by `-` and a year completes the match. */
  lemma TryMonthsFirst(s: string, day: int, at: nat, months: seq<Token>)
    requires 1 <= day <= 31
    requires forall t :: t in months ==> 1 <= t.value <= 12
    requires months != [] && at + months[0].len < |s| && s[at + months[0].len] == '-'
    requires YearAt(s, at + months[0].len + 1).Some?
    ensures TryMonths(s, day, at, months)
            == Some(Match(day, months[0].value, YearAt(s, at + months[0].len + 1).value, at + months[0].len + 3))
  {
  }

  /** The first day alternative followed by `-` and a matching rest is the match taken. */
  lemma TryDaysFirst(s: string, days: seq<Token>)
    requires forall t :: t in days ==> 1 <= t.value <= 31
    requires days != [] && days[0].len < |s| && s[days[0].len] == '-'
    requires TryMonths(s, days[0].value, days[0].len + 1, MonthTokens(s, days[0].len + 1)).Some?
    ensures TryDays(s, days) == TryMonths(s, days[0].value, days[0].len + 1, MonthTokens(s, days[0].len + 1))
  {
  }

  /** Where `FormatDate` puts the three fields and the two dashes. */
  lemma FormatDateLayout(d: Date)
    requires 1 <= d.day <= 31 && 1 <= d.month <= 12
    ensures var s := FormatDate(d);
      && |s| == 8 && s[2] == '-' && s[5] == '-'
      && s[..2] == TwoDigits(d.day) && s[3..5] == TwoDigits(d.month) && s[6..8] == TwoDigits(d.year % 100)
  {
  }

  /** The two-digit year group reads back the year modulo 100. */
  lemma YearOfTwoDigits(s: string, yy: int)
    requires 0 <= yy < 100 && |s| == 8 && s[6..8] == TwoDigits(yy)
    ensures YearAt(s, 6) == Some(yy)
  {
    assert s[6] == TwoDigits(yy)[0] && s[7] == TwoDigits(yy)[1];
  }

  /** Every valid date from 1969 to 2068 written as `dd-mm-yy` parses back to itself. */
  lemma FormattedDateParses(d: Date)
    requires ValidDate(d) && 1969 <= d.year <= 2068
    ensures Strptime(FormatDate(d)) == Some(d)
  {
    var s := FormatDate(d);
    var yy := d.year % 100;
    FormatDateLayout(d);
    DayTokensOfTwoDigits(s, d.day);
    MonthTokensOfTwoDigits(s, d.month);
    YearOfTwoDigits(s, yy);
    var m := Match(d.day, d.month, yy, 8);
    assert TryMonths(s, d.day, 3, MonthTokens(s, 3)) == Some(m);
    assert TryDays(s, DayTokens(s, 0)) == Some(m);
    assert (if yy <= 68 then 2000 + yy else 1900 + yy) == d.year;
  }

  /** The first day alternative that matches a zero-padded day reads both digits. */
  lemma DayTokensOfTwoDigits(s: string, day: int)
    requires 1 <= day <= 31 && |s| >= 2 && s[..2] == TwoDigits(day)
    ensures DayTokens(s, 0) != [] && DayTokens(s, 0)[0] == Token(day, 2)
  {
    assert s[0] == TwoDigits(day)[0] && s[1] == TwoDigits(day)[1];
  }

  /** The first month alternative that matches a zero-padded month reads both digits. */
  lemma MonthTokensOfTwoDigits(s: string, month: int)
    requires 1 <= month <= 12 && |s| >= 5 && s[3..5] == TwoDigits(month)
    ensures MonthTokens(s, 3) != [] && MonthTokens(s, 3)[0] == Token(month, 2)
  {
    assert s[3] == TwoDigits(month)[0] && s[4] == TwoDigits(month)[1];
  }

  /** One-digit days and months are accepted. */
  lemma OneDigitFieldsParse()
    ensures Strptime("1-2-18") == Some(Date(2018, 2, 1))
  {
    var s := "1-2-18";
    assert DayTokens(s, 0) == [Token(1, 1)];
    assert MonthTokens(s, 2) == [Token(2, 1)];
    assert YearAt(s, 4) == Some(18);
    TryMonthsFirst(s, 1, 2, [Token(2, 1)]);
    TryDaysFirst(s, [Token(1, 1)]);
  }

  /** The day must exist in the month: 29 February 2019 is rejected. */
  lemma MissingDayRejected()
    ensures Strptime("29-02-19") == None
  {
    var s := "29-02-19";
    assert DayTokens(s, 0) == [Token(29, 2), Token(2, 1)];
    assert MonthTokens(s, 3) == [Token(2, 2)];
    assert YearAt(s, 6) == Some(19);
    TryMonthsFirst(s, 29, 3, [Token(2, 2)]);
    TryDaysFirst(s, [Token(29, 2), Token(2, 1)]);
    assert !IsLeap(2019);
  }

  /** A four-digit year leaves unconverted text and is rejected. */
  lemma FourDigitYearRejected()
    ensures Strptime("23-12-2003") == None
  {
    var s := "23-12-2003";
    assert DayTokens(s, 0) == [Token(23, 2), Token(2, 1)];
    assert MonthTokens(s, 3) == [Token(12, 2), Token(1, 1)];
    assert YearAt(s, 6) == Some(20);
    TryMonthsFirst(s, 23, 3, [Token(12, 2), Token(1, 1)]);
    TryDaysFirst(s, [Token(23, 2), Token(2, 1)]);
  }
}
