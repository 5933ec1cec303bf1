/** The console progress reporter (src/ui/ui.py): a counter of processed sites and the
    lines it prints, returned here as values instead of written to the terminal. */
module Ui {

  /** The status column: "SUCCESS" only for a site that succeeded and yielded bonuses. */
  function StatusLabel(success: bool, bonusCount: nat): (r: string)
    ensures r == "SUCCESS" <==> success && bonusCount > 0
    ensures r == "SUCCESS" || r == "FAIL"
  {
    if success && bonusCount > 0 then "SUCCESS" else "FAIL"
  }

  /** The decimal digits of `n`, as `str()` writes a non-negative int. */
  function Decimal(n: nat): (r: string)
    ensures r != [] && forall k :: 0 <= k < |r| ==> '0' <= r[k] <= '9'
    decreases n
  {
    var last := [(('0' as int) + n % 10) as char];
    if n < 10 then last else Decimal(n / 10) + last
  }

  /** Reading back a string of decimal digits. */
  function DecimalValue(s: string): nat
    requires forall k :: 0 <= k < |s| ==> '0' <= s[k] <= '9'
  {
    if s == [] then 0
    else 10 * DecimalValue(s[..|s| - 1]) + ((s[|s| - 1] as int) - ('0' as int))
  }

  /** The counts are printed so that they read back as themselves. */
  lemma {:induction false} DecimalRoundTrip(n: nat)
    ensures DecimalValue(Decimal(n)) == n
    decreases n
  {
    var last := [(('0' as int) + n % 10) as char];
    if n >= 10 {
      DecimalRoundTrip(n / 10);
      var r := Decimal(n / 10) + last;
      assert r[..|r| - 1] == Decimal(n / 10);
    }
  }

  /** A leading zero is printed only for zero itself. */
  lemma NoLeadingZero(n: nat)
    ensures Decimal(n)[0] == '0' <==> n == 0
  {
    if n >= 10 {
      NoLeadingZeroAbove(n);
    }
  }

  lemma {:induction false} NoLeadingZeroAbove(n: nat)
    requires n >= 1
    ensures Decimal(n)[0] != '0'
    decreases n
  {
    if n >= 10 {
      NoLeadingZeroAbove(n / 10);
    }
  }

  /** The format `{s:<w}`: `s` left-aligned and padded with spaces to width `w`. */
  function PadRight(s: string, w: nat): (r: string)
    ensures |r| == if |s| < w then w else |s|
    ensures r[..|s|] == s
    ensures forall k :: |s| <= k < |r| ==> r[k] == ' '
    decreases w - |s|
  {
    if |s| >= w then s else PadRight(s + " ", w)
  }

  /** One progress line, before it is printed. */
  datatype ProgressLine = ProgressLine(processed: nat, total: nat, status: string, bonusCount: nat, url: string)

  /** The text of a progress line. */
  function Render(line: ProgressLine): string {
    "[" + Decimal(line.processed) + "/" + Decimal(line.total) + "] " + PadRight(line.status, 8)
      + " | Bonuses: " + PadRight(Decimal(line.bonusCount), 4) + " | URL: " + line.url
  }

  /** The closing summary, before it is printed. */
  datatype Summary = Summary(totalBonuses: nat, successful: int, failed: nat)

  class UIHandler {
    var totalUrls: nat
    var processedCount: nat

    constructor()
      ensures totalUrls == 0 && processedCount == 0
    {
      totalUrls := 0;
      processedCount := 0;
    }

    /** Records how many sites the run will visit. */
    method SetTotalUrls(total: nat)
      modifies this
      ensures totalUrls == total && processedCount == old(processedCount)
    {
      totalUrls := total;
    }

    /** Counts one more processed site and gives the line reporting it. */
    method UpdateSiteProgress(url: string, success: bool, bonusCount: nat) returns (line: ProgressLine)
      modifies this
      ensures processedCount == old(processedCount) + 1 && totalUrls == old(totalUrls)
      ensures line == ProgressLine(processedCount, totalUrls, StatusLabel(success, bonusCount), bonusCount, url)
    {
      processedCount := processedCount + 1;
      line := ProgressLine(processedCount, totalUrls, StatusLabel(success, bonusCount), bonusCount, url);
    }

    /** The summary: every processed site that did not fail counts as successful. */
    method PrintFinalSummary(totalBonuses: nat, failedUrls: nat) returns (s: Summary)
      ensures s.totalBonuses == totalBonuses && s.failed == failedUrls
      ensures s.successful + s.failed == processedCount
    {
      s := Summary(totalBonuses, processedCount - failedUrls, failedUrls);
    }
  }

  /** The status column is always eight characters wide, the two labels padded alike. */
  lemma StatusColumnWidth(success: bool, bonusCount: nat)
    ensures |PadRight(StatusLabel(success, bonusCount), 8)| == 8
  {
  }

  /** A progress line opens with the processed count in brackets, which reads back as
      that count. */
  lemma RenderedOpensWithCount(line: ProgressLine)
    ensures var t := Render(line);
      var k := |Decimal(line.processed)|;
      && k + 2 <= |t| && t[0] == '[' && t[k + 1] == '/'
      && t[1..k + 1] == Decimal(line.processed)
  {
    var d := Decimal(line.processed);
    var rest := Decimal(line.total) + "] " + PadRight(line.status, 8)
      + " | Bonuses: " + PadRight(Decimal(line.bonusCount), 4) + " | URL: ";
    assert Render(line) == "[" + d + "/" + rest + line.url;
  }

  /** A progress line ends with the site's address. */
  lemma RenderedEndsWithUrl(line: ProgressLine)
    ensures var t := Render(line);
      |line.url| <= |t| && t[|t| - |line.url|..] == line.url
  {
    var t := Render(line);
    var front := t[..|t| - |line.url|];
    assert t == front + line.url;
  }

  /** A progress line opens with the processed count in brackets, which reads back as
      that count, and ends with the site's address. */
  lemma RenderedProgress(line: ProgressLine)
    ensures var t := Render(line);
      var k := |Decimal(line.processed)|;
      && k + 2 <= |t| && t[0] == '[' && t[k + 1] == '/'
      && (forall j :: 1 <= j < k + 1 ==> '0' <= t[j] <= '9')
      && DecimalValue(t[1..k + 1]) == line.processed
      && |line.url| <= |t| && t[|t| - |line.url|..] == line.url
  {
    RenderedOpensWithCount(line);
    RenderedEndsWithUrl(line);
    DecimalRoundTrip(line.processed);
  }
}
