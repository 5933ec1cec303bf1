/** The decision rules of the web front end (app.py): which lines of an uploaded list
    are sites, when a run may start and what status it starts with, the css class of
    the status panel, and the unit a file size is shown in. */
module WebApp {
  import opened Wrappers
  import opened Text
  import Ui

  // ----- the uploaded list -----

  /** A line names a site when, stripped, it is neither empty nor a `#` comment. */
  predicate Keeps(line: string) {
    Strip(line) != [] && !StartsWith(Strip(line), "#")
  }

  /** The list comprehension over the lines of the upload: kept lines, stripped, in
      input order. */
  function FilterLines(lines: seq<string>): seq<string> {
    if lines == [] then []
    else (if Keeps(lines[0]) then [Strip(lines[0])] else []) + FilterLines(lines[1..])
  }

  /** The sites of an uploaded file's decoded text. */
  function UrlsOf(content: string): seq<string> {
    FilterLines(SplitLines(content))
  }

  /** Filtering a list is filtering its two halves. */
  lemma {:induction false} FilterLinesAppend(a: seq<string>, b: seq<string>)
    ensures FilterLines(a + b) == FilterLines(a) + FilterLines(b)
    decreases |a|
  {
    if a == [] {
      assert a + b == b;
    } else {
      assert (a + b)[0] == a[0];
      assert (a + b)[1..] == a[1..] + b;
      FilterLinesAppend(a[1..], b);
      var head := if Keeps(a[0]) then [Strip(a[0])] else [];
      assert head + (FilterLines(a[1..]) + FilterLines(b)) == (head + FilterLines(a[1..])) + FilterLines(b);
    }
  }

  /** A single line contributes its stripped form exactly when it is kept. */
  lemma FilterOneLine(line: string)
    ensures FilterLines([line]) == if Keeps(line) then [Strip(line)] else []
  {
    assert [line][1..] == [];
  }

  /** Every kept entry is a stripped, non-empty, non-comment line, and every line that
      qualifies is kept. */
  lemma {:induction false} FilterLinesMembers(lines: seq<string>)
    ensures forall u :: u in FilterLines(lines) ==> u != [] && u[0] != '#' && Strip(u) == u
    ensures forall i :: 0 <= i < |lines| && Keeps(lines[i]) ==> Strip(lines[i]) in FilterLines(lines)
    ensures |FilterLines(lines)| <= |lines|
    decreases |lines|
  {
    if lines != [] {
      FilterLinesMembers(lines[1..]);
      StripIdempotent(lines[0]);
      var head := if Keeps(lines[0]) then [Strip(lines[0])] else [];
      assert FilterLines(lines) == head + FilterLines(lines[1..]);
      forall i | 0 < i < |lines| && Keeps(lines[i]) ensures Strip(lines[i]) in FilterLines(lines) {
        assert lines[1..][i - 1] == lines[i];
      }
    }
  }

  /** Whitespace includes every line break, so a stripped piece of a line holds no
      line break. */
  lemma StripKeepsNoBreak(line: string)
    requires NoLineBreak(line)
    ensures NoLineBreak(Strip(line))
  {
    StripSlice(line);
    var a, r := StripStart(line), Strip(line);
    forall i | 0 <= i < |r| ensures !IsLineBreak(r[i]) {
      assert r[i] == line[a + i];
    }
  }

  lemma {:induction false} FilteredHaveNoBreak(lines: seq<string>)
    requires forall i :: 0 <= i < |lines| ==> NoLineBreak(lines[i])
    ensures forall u :: u in FilterLines(lines) ==> NoLineBreak(u)
    decreases |lines|
  {
    if lines != [] {
      FilteredHaveNoBreak(lines[1..]);
      StripKeepsNoBreak(lines[0]);
    }
  }

  /** What the route saves, `'\n'.join(urls)`, splits back into the same list. */
  lemma {:induction false} SavedListReadsBack(urls: seq<string>)
    requires forall i :: 0 <= i < |urls| ==> urls[i] != [] && NoLineBreak(urls[i])
    ensures SplitLines(Join(urls, '\n')) == urls
    decreases |urls|
  {
    if |urls| == 1 {
      SplitLinesOne(urls[0]);
    } else if |urls| > 1 {
      SplitLinesAt(urls[0], "\n", Join(urls[1..], '\n'));
      SavedListReadsBack(urls[1..]);
    }
  }

  /** The list the route accepts is written out in a form that reads back unchanged. */
  lemma UploadedListReadsBack(content: string)
    ensures SplitLines(Join(UrlsOf(content), '\n')) == UrlsOf(content)
  {
    var urls := UrlsOf(content);
    FilterLinesMembers(SplitLines(content));
    FilteredHaveNoBreak(SplitLines(content));
    forall i | 0 <= i < |urls| ensures urls[i] != [] && NoLineBreak(urls[i]) {
      assert urls[i] in urls;
    }
    SavedListReadsBack(urls);
  }

  // ----- the status panel -----

  /** The class the index page gives the status panel. */
  function CssClass(isRunning: bool, message: string): (c: string)
    ensures c == "running" <==> isRunning
    ensures c == "error" <==> !isRunning && StartsWith(message, "Error")
    ensures c == "completed" <==> !isRunning && !StartsWith(message, "Error") && message == "Completed"
    ensures c == "idle" <==> !isRunning && !StartsWith(message, "Error") && message != "Completed"
  {
    if isRunning then "running"
    else if StartsWith(message, "Error") then "error"
    else if message == "Completed" then "completed"
    else "idle"
  }

  // ----- file sizes -----

  datatype SizeUnit = Bytes | KB | MB | GB

  function UnitBytes(u: SizeUnit): nat {
    match u
    case Bytes => 1
    case KB => 1024
    case MB => 1024 * 1024
    case GB => 1024 * 1024 * 1024
  }

  /** A size as `format_file_size` shows it: the amount before its one-decimal
      rounding, and the unit. */
  datatype ShownSize = ShownSize(amount: real, unit: SizeUnit)

  /** The largest unit of which the size is at least one, up to GB; the amount is the
      size in that unit. */
  function FormatFileSize(size: nat): (f: ShownSize)
    ensures f.amount * UnitBytes(f.unit) as real == size as real
    ensures f.unit == Bytes <==> size < 1024
    ensures f.unit == KB <==> 1024 <= size < 1024 * 1024
    ensures f.unit == MB <==> 1024 * 1024 <= size < 1024 * 1024 * 1024
    ensures f.unit == GB <==> 1024 * 1024 * 1024 <= size
    ensures f.unit != GB ==> f.amount < 1024.0
    ensures f.unit != Bytes ==> f.amount >= 1.0
  {
    if size < 1024 then ShownSize(size as real, Bytes)
    else if size < 1024 * 1024 then ShownSize(size as real / 1024.0, KB)
    else if size < 1024 * 1024 * 1024 then ShownSize(size as real / (1024.0 * 1024.0), MB)
    else ShownSize(size as real / (1024.0 * 1024.0 * 1024.0), GB)
  }

  // ----- starting a run -----

  /** The bytes of an uploaded file, as `.decode('utf-8')` sees them. */
  datatype Content = Utf8(text: string) | NotUtf8(reason: string)

  datatype Upload = Upload(filename: string, content: Content)

  /** How `run_scraper_route` ends. */
  datatype RouteResult =
    | AlreadyRunning
    | NoFile
    | NoValidUrls
    | StartFailed(reason: string)
    | Started(urls: seq<string>)

  /** The decision of the route, from whether a run is going, the upload, and whether
      saving the list raised (`writeError`). */
  function Decide(isRunning: bool, upload: Option<Upload>, writeError: Option<string>): RouteResult {
    if isRunning then AlreadyRunning
    else if upload.None? || upload.value.filename == "" then NoFile
    else match upload.value.content
      case NotUtf8(reason) => StartFailed(reason)
      case Utf8(text) =>
        var urls := UrlsOf(text);
        if urls == [] then NoValidUrls
        else if writeError.Some? then StartFailed(writeError.value)
        else Started(urls)
  }

  /** A run starts only when none is going, a named file decodes, it lists at least one
      site and the list could be saved; it then starts with exactly those sites. */
  lemma StartsIff(isRunning: bool, upload: Option<Upload>, writeError: Option<string>)
    ensures Decide(isRunning, upload, writeError).Started? <==>
      && !isRunning && upload.Some? && upload.value.filename != ""
      && upload.value.content.Utf8? && UrlsOf(upload.value.content.text) != []
      && writeError.None?
    ensures Decide(isRunning, upload, writeError).Started? ==>
      Decide(isRunning, upload, writeError).urls == UrlsOf(upload.value.content.text)
  {
  }

  /** The flash message of each ending and whether it is shown as an error. */
  function Flash(r: RouteResult): (f: (string, bool))
    ensures f.1 <==> !r.Started?
  {
    match r
    case AlreadyRunning => ("Scraper is already running. Please wait for it to complete.", true)
    case NoFile => ("No file uploaded. Please select a file.", true)
    case NoValidUrls => ("No valid URLs found in file. Please check the file format.", true)
    case StartFailed(reason) => ("Error starting scraper: " + reason, true)
    case Started(urls) => (StartedPrefix + Ui.Decimal(|urls|) + StartedSuffix, false)
  }

  const StartedPrefix := "Scraper started successfully with "
  const StartedSuffix := " URLs!"

  /** The success message reports the number of sites the run was started with: between
      its fixed opening and closing text stand decimal digits that read back as that
      number. */
  lemma StartedFlashCount(urls: seq<string>)
    ensures var m := Flash(Started(urls)).0;
      var lo, hi := |StartedPrefix|, |m| - |StartedSuffix|;
      && lo < hi <= |m|
      && m[..lo] == StartedPrefix && m[hi..] == StartedSuffix
      && (forall k :: lo <= k < hi ==> '0' <= m[k] <= '9')
      && Ui.DecimalValue(m[lo..hi]) == |urls|
  {
    var d := Ui.Decimal(|urls|);
    var m := StartedPrefix + d + StartedSuffix;
    assert Flash(Started(urls)).0 == m;
    var lo, hi := |StartedPrefix|, |m| - |StartedSuffix|;
    assert m[..lo] == StartedPrefix;
    assert m[hi..] == StartedSuffix;
    assert m[lo..hi] == d;
    Ui.DecimalRoundTrip(|urls|);
  }

  /** The global status record of the web front end. */
  class ScraperStatus {
    var message: string
    var progress: nat
    var total: nat
    var isRunning: bool
    var startTime: Option<string>
    var lastUpdate: Option<string>
    var cssClass: Option<string>

    constructor()
      ensures message == "Idle" && progress == 0 && total == 0 && !isRunning
      ensures startTime == None && lastUpdate == None && cssClass == None
    {
      message := "Idle";
      progress := 0;
      total := 0;
      isRunning := false;
      startTime := None;
      lastUpdate := None;
      cssClass := None;
    }

    /** The index page records the panel's class and changes nothing else. */
    method Index()
      modifies this
      ensures cssClass == Some(CssClass(isRunning, message))
      ensures message == old(message) && progress == old(progress) && total == old(total)
      ensures isRunning == old(isRunning) && startTime == old(startTime) && lastUpdate == old(lastUpdate)
    {
      var c := "idle";
      if isRunning {
        c := "running";
      } else if StartsWith(message, "Error") {
        c := "error";
      } else if message == "Completed" {
        c := "completed";
      }
      cssClass := Some(c);
    }

    /** `run_scraper_route` up to handing the run to its thread; `now` is the formatted
        current time. */
    method RunScraperRoute(upload: Option<Upload>, writeError: Option<string>, now: string)
      returns (r: RouteResult)
      modifies this
      ensures r == Decide(old(isRunning), upload, writeError)
      ensures cssClass == old(cssClass)
      ensures r.Started? ==>
        && message == "Starting..." && progress == 0 && total == |r.urls| && isRunning
        && startTime == Some(now) && lastUpdate == Some(now)
      ensures r.StartFailed? ==>
        && message == "Error: " + r.reason && !isRunning && lastUpdate == Some(now)
        && progress == old(progress) && total == old(total) && startTime == old(startTime)
      ensures (r.AlreadyRunning? || r.NoFile? || r.NoValidUrls?) ==>
        && message == old(message) && progress == old(progress) && total == old(total)
        && isRunning == old(isRunning) && startTime == old(startTime) && lastUpdate == old(lastUpdate)
    {
      if isRunning {
        return AlreadyRunning;
      }
      if upload.None? || upload.value.filename == "" {
        return NoFile;
      }
      match upload.value.content {
        case NotUtf8(reason) =>
          r := StartFailed(reason);
        case Utf8(text) =>
          var urls := UrlsOf(text);
          if urls == [] {
            return NoValidUrls;
          }
          if writeError.Some? {
            r := StartFailed(writeError.value);
          } else {
            message, progress, total, isRunning := "Starting...", 0, |urls|, true;
            startTime, lastUpdate := Some(now), Some(now);
            return Started(urls);
          }
      }
      message, isRunning, lastUpdate := "Error: " + r.reason, false, Some(now);
    }
  }
}
