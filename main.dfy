/** The orchestrator (main.py): clean each site address, authenticate, pause, fetch and
    normalise, while counting failures, feeding the request window and reporting
    progress. */
module Orchestrator {
  import opened Wrappers
  import opened Text
  import opened PyJson
  import opened Models
  import opened Http
  import opened Config
  import opened Tracker
  import opened Processing
  import opened Auth
  import opened ApiClient
  import opened Ui

  // ----- cleaning an address: urlunparse(urlparse(url)._replace(path, params, query, fragment = "")) -----

  /** The characters `urlsplit` strips from the front: C0 controls and space. */
  predicate IsC0OrSpace(c: char) { c <= ' ' }

  function LStripC0(s: string): (r: string)
    ensures |r| <= |s| && r == s[|s| - |r|..]
    ensures r != [] ==> !IsC0OrSpace(r[0])
    ensures s != [] && !IsC0OrSpace(s[0]) ==> r == s
    ensures forall i :: 0 <= i < |s| - |r| ==> IsC0OrSpace(s[i])
    decreases |s|
  {
    if s != [] && IsC0OrSpace(s[0]) then LStripC0(s[1..]) else s
  }

  /** Tabs and line breaks are deleted anywhere in the address. */
  function RemoveUnsafe(s: string): string {
    RemoveChar(RemoveChar(RemoveChar(s, '\t'), '\r'), '\n')
  }

  predicate SchemeChar(c: char) {
    IsAsciiLetter(c) || IsDigit(c) || c == '+' || c == '-' || c == '.'
  }

  /** A scheme is read when the first `:` has a non-empty run of scheme characters
      before it that starts with a letter; it is lower-cased. */
  predicate HasScheme(u: string) {
    ':' in u && FirstIndex(u, ':') > 0 && IsAsciiLetter(u[0])
    && forall k :: 0 <= k < FirstIndex(u, ':') ==> SchemeChar(u[k])
  }

  function SchemeOf(u: string): string {
    if HasScheme(u) then Lower(u[..FirstIndex(u, ':')]) else ""
  }

  function AfterScheme(u: string): string {
    if HasScheme(u) then u[FirstIndex(u, ':') + 1..] else u
  }

  predicate EndsNetloc(c: char) { c == '/' || c == '?' || c == '#' }

  /** The first position at or after `i` holding `/`, `?` or `#`, or the end. */
  function NetlocEnd(u: string, i: nat): (e: nat)
    requires i <= |u|
    ensures i <= e <= |u| && (e < |u| ==> EndsNetloc(u[e]))
    ensures forall k :: i <= k < e ==> !EndsNetloc(u[k])
    decreases |u| - i
  {
    if i == |u| || EndsNetloc(u[i]) then i else NetlocEnd(u, i + 1)
  }

  lemma {:induction false} NetlocEndIs(u: string, i: nat, e: nat)
    requires i <= e <= |u| && (e < |u| ==> EndsNetloc(u[e]))
    requires forall k :: i <= k < e ==> !EndsNetloc(u[k])
    ensures NetlocEnd(u, i) == e
    decreases e - i
  {
    if i < e {
      NetlocEndIs(u, i + 1, e);
    }
  }

  /** The network location: what follows a leading `//` up to the path, query or
      fragment. */
  function NetlocOf(r: string): string {
    if |r| >= 2 && r[..2] == "//" then r[2..NetlocEnd(r, 2)] else ""
  }

  /** The schemes for which `urlunsplit` writes `//` even with an empty location. */
  const UsesNetloc: seq<string> := [
    "ftp", "http", "gopher", "nntp", "telnet", "imap", "wais", "file", "mms", "https", "shttp",
    "snews", "prospero", "rtsp", "rtsps", "rtspu", "rsync", "svn", "svn+ssh", "sftp", "nfs",
    "git", "git+ssh", "ws", "wss", "itms-services"]

  /** `urlunsplit` of a scheme and location with every other part empty. */
  function Unsplit(scheme: string, netloc: string): string {
    (if scheme != "" then scheme + ":" else "")
      + (if netloc != "" || (scheme != "" && scheme in UsesNetloc) then "//" + netloc else "")
  }

  /** The parse and re-assembly of an address keeping only its scheme and location; it
      raises ValueError when the location holds one square bracket without the other. */
  function CleanUrl(url: string): Outcome<string> {
    CleanSplit(RemoveUnsafe(LStripC0(url)))
  }

  /** Cleaning once the front has been stripped and tabs and line breaks deleted. */
  function CleanSplit(u: string): Outcome<string> {
    var netloc := NetlocOf(AfterScheme(u));
    if ('[' in netloc) != (']' in netloc) then Raised
    else Returned(Unsplit(SchemeOf(u), netloc))
  }

  /** The address `process_url` works with: the cleaned one, or the input when cleaning
      raised. */
  function CleanedUrl(url: string): string {
    match CleanUrl(url)
    case Raised => url
    case Returned(c) => c
  }

  predicate ValidScheme(scheme: string) {
    scheme != [] && IsAsciiLetter(scheme[0]) && forall k :: 0 <= k < |scheme| ==> SchemeChar(scheme[k])
  }

  predicate NoUnsafe(s: string) {
    '\t' !in s && '\r' !in s && '\n' !in s
  }

  lemma PreparedUnchanged(url: string)
    requires url != [] && !IsC0OrSpace(url[0]) && NoUnsafe(url)
    ensures RemoveUnsafe(LStripC0(url)) == url
  {
  }

  lemma SchemeSplits(u: string, scheme: string, r: string)
    requires ValidScheme(scheme) && u == scheme + [':'] + r
    ensures HasScheme(u) && SchemeOf(u) == Lower(scheme) && AfterScheme(u) == r
  {
    assert u[..|scheme|] == scheme;
    assert ':' !in u[..|scheme|];
    FirstIndexIs(u, ':', |scheme|);
    assert u[|scheme| + 1..] == r;
  }

  lemma NetlocIsHost(r: string, host: string, rest: string)
    requires r == ['/', '/'] + host + rest
    requires forall k :: 0 <= k < |host| ==> !EndsNetloc(host[k])
    requires rest == [] || EndsNetloc(rest[0])
    ensures NetlocOf(r) == host
  {
    assert r[..2] == ['/', '/'];
    NetlocEndIs(r, 2, 2 + |host|);
    assert r[2..2 + |host|] == host;
  }

  lemma UnsplitWithHost(scheme: string, netloc: string)
    requires scheme != [] && netloc != []
    ensures Unsplit(scheme, netloc) == scheme + [':', '/', '/'] + netloc
  {
  }

  lemma UnsplitListed(scheme: string, netloc: string)
    requires scheme != [] && netloc == [] && scheme in UsesNetloc
    ensures Unsplit(scheme, netloc) == scheme + [':', '/', '/'] + netloc
  {
  }

  lemma UnsplitUnlisted(scheme: string, netloc: string)
    requires scheme != [] && netloc == [] && scheme !in UsesNetloc
    ensures Unsplit(scheme, netloc) == scheme + [':']
  {
  }

  lemma UnsplitNoScheme(netloc: string)
    requires netloc != []
    ensures Unsplit("", netloc) == ['/', '/'] + netloc
  {
  }

  lemma UnsplitNothing(scheme: string, netloc: string)
    requires scheme == [] && netloc == []
    ensures Unsplit(scheme, netloc) == []
  {
  }

  lemma SchemeHostSafe(url: string, scheme: string, host: string, rest: string)
    requires ValidScheme(scheme) && url == scheme + [':', '/', '/'] + host + rest
    requires NoUnsafe(host) && NoUnsafe(rest)
    ensures url != [] && !IsC0OrSpace(url[0]) && NoUnsafe(url)
  {
    assert url[0] == scheme[0];
    assert NoUnsafe(scheme) by {
      forall k | 0 <= k < |scheme| ensures scheme[k] != '\t' && scheme[k] != '\r' && scheme[k] != '\n' {
        assert SchemeChar(scheme[k]);
      }
    }
  }

  /** Cleaning an address that needs no preparation and has location `netloc`. */
  lemma CleanSplitBalanced(u: string, netloc: string)
    requires NetlocOf(AfterScheme(u)) == netloc && ('[' in netloc) == (']' in netloc)
    ensures CleanSplit(u) == Returned(Unsplit(SchemeOf(u), netloc))
  {
  }

  /** An address `scheme://host` followed by a path, query or fragment needs no
      preparation and splits into the lower-cased scheme and `host`. */
  lemma SchemeHostParts(url: string, scheme: string, host: string, rest: string)
    requires ValidScheme(scheme) && url == scheme + [':', '/', '/'] + host + rest
    requires NoUnsafe(host) && NoUnsafe(rest)
    requires forall k :: 0 <= k < |host| ==> !EndsNetloc(host[k])
    requires rest == [] || EndsNetloc(rest[0])
    ensures RemoveUnsafe(LStripC0(url)) == url
    ensures SchemeOf(url) == Lower(scheme) && NetlocOf(AfterScheme(url)) == host
  {
    SchemeHostSafe(url, scheme, host, rest);
    PreparedUnchanged(url);
    var r := ['/', '/'] + host + rest;
    assert url == scheme + [':'] + r;
    SchemeSplits(url, scheme, r);
    NetlocIsHost(r, host, rest);
  }

  /** An address starting `scheme://host` loses everything after the host, and its
      scheme is lower-cased. */
  lemma CleanKeepsSchemeAndHost(url: string, scheme: string, host: string, rest: string)
    requires ValidScheme(scheme) && url == scheme + [':', '/', '/'] + host + rest
    requires NoUnsafe(host) && NoUnsafe(rest)
    requires host != [] && forall k :: 0 <= k < |host| ==> !EndsNetloc(host[k])
    requires ('[' in host) == (']' in host)
    requires rest == [] || EndsNetloc(rest[0])
    ensures CleanedUrl(url) == Lower(scheme) + [':', '/', '/'] + host
  {
    SchemeHostParts(url, scheme, host, rest);
    CleanSplitBalanced(url, host);
    UnsplitWithHost(Lower(scheme), host);
  }

  lemma LowerKeepsScheme(scheme: string)
    requires ValidScheme(scheme)
    ensures ValidScheme(Lower(scheme)) && Lower(Lower(scheme)) == Lower(scheme)
  {
    LowerIdempotent(scheme);
  }

  /** What cleaning keeps is safe to clean again: a lower-case scheme or none, and a
      location free of tabs, line breaks and the characters that end it. */
  lemma CleanedParts(u: string)
    requires NoUnsafe(u)
    ensures SchemeOf(u) == "" || (ValidScheme(SchemeOf(u)) && Lower(SchemeOf(u)) == SchemeOf(u))
    ensures NoUnsafe(NetlocOf(AfterScheme(u)))
    ensures forall k :: 0 <= k < |NetlocOf(AfterScheme(u))| ==> !EndsNetloc(NetlocOf(AfterScheme(u))[k])
  {
    SchemeIsLower(u);
    AfterSchemeSafe(u);
    NetlocSafe(AfterScheme(u));
  }

  lemma PreparedIsSafe(url: string)
    ensures NoUnsafe(RemoveUnsafe(LStripC0(url)))
  {
  }

  lemma SchemeIsLower(u: string)
    ensures SchemeOf(u) == "" || (ValidScheme(SchemeOf(u)) && Lower(SchemeOf(u)) == SchemeOf(u))
  {
    if HasScheme(u) {
      var i := FirstIndex(u, ':');
      assert ValidScheme(u[..i]) by {
        assert u[..i][0] == u[0];
      }
      LowerKeepsScheme(u[..i]);
    }
  }

  lemma AfterSchemeSafe(u: string)
    requires NoUnsafe(u)
    ensures NoUnsafe(AfterScheme(u))
  {
    var r := AfterScheme(u);
    if HasScheme(u) {
      var i := FirstIndex(u, ':');
      forall k | 0 <= k < |r| ensures r[k] in u { assert r[k] == u[i + 1 + k]; }
    }
  }

  lemma NetlocSafe(r: string)
    requires NoUnsafe(r)
    ensures NoUnsafe(NetlocOf(r)) && forall k :: 0 <= k < |NetlocOf(r)| ==> !EndsNetloc(NetlocOf(r)[k])
  {
    var netloc := NetlocOf(r);
    if |r| >= 2 && r[..2] == "//" {
      forall k | 0 <= k < |netloc| ensures netloc[k] in r && !EndsNetloc(netloc[k]) {
        assert netloc[k] == r[2 + k];
      }
    }
  }

  lemma SchemeSafe(scheme: string)
    requires ValidScheme(scheme)
    ensures NoUnsafe(scheme) && !IsC0OrSpace(scheme[0])
  {
    forall k | 0 <= k < |scheme| ensures scheme[k] != '\t' && scheme[k] != '\r' && scheme[k] != '\n' {
      assert SchemeChar(scheme[k]);
    }
  }

  /** `c` needs no preparation and splits into `scheme` and `netloc`. */
  predicate ReadsBack(c: string, scheme: string, netloc: string) {
    RemoveUnsafe(LStripC0(c)) == c && SchemeOf(c) == scheme && NetlocOf(AfterScheme(c)) == netloc
  }

  lemma ReadsBackWithSlashes(scheme: string, netloc: string)
    requires ValidScheme(scheme) && Lower(scheme) == scheme
    requires NoUnsafe(netloc) && forall k :: 0 <= k < |netloc| ==> !EndsNetloc(netloc[k])
    ensures ReadsBack(scheme + [':', '/', '/'] + netloc, scheme, netloc)
  {
    var c := scheme + [':', '/', '/'] + netloc;
    assert c == scheme + [':', '/', '/'] + netloc + [];
    SchemeHostParts(c, scheme, netloc, []);
  }

  lemma ReadsBackSchemeOnly(scheme: string)
    requires ValidScheme(scheme) && Lower(scheme) == scheme
    ensures ReadsBack(scheme + [':'], scheme, "")
  {
    var c := scheme + [':'];
    assert c == scheme + [':'] + [];
    SchemeSafe(scheme);
    PreparedUnchanged(c);
    SchemeSplits(c, scheme, []);
  }

  lemma ReadsBackNetlocOnly(netloc: string)
    requires NoUnsafe(netloc) && forall k :: 0 <= k < |netloc| ==> !EndsNetloc(netloc[k])
    ensures ReadsBack(['/', '/'] + netloc, "", netloc)
  {
    var c := ['/', '/'] + netloc;
    assert c == ['/', '/'] + netloc + [];
    PreparedUnchanged(c);
    assert !HasScheme(c);
    NetlocIsHost(c, netloc, []);
  }

  lemma ReadsBackEmpty()
    ensures ReadsBack([], "", "")
  {
    assert RemoveUnsafe(LStripC0([])) == [];
  }

  /** An address that reads back as the scheme and location it was written from is
      cleaned to itself. */
  lemma ReadsBackIsClean(c: string, scheme: string, netloc: string)
    requires c == Unsplit(scheme, netloc) && ReadsBack(c, scheme, netloc)
    requires ('[' in netloc) == (']' in netloc)
    ensures CleanedUrl(c) == c
  {
    CleanSplitBalanced(c, netloc);
  }

  /** A scheme and location that cleaning can produce are written out and read back the
      same, so the written address is cleaned to itself. */
  lemma UnsplitIsClean(scheme: string, netloc: string)
    requires scheme == "" || (ValidScheme(scheme) && Lower(scheme) == scheme)
    requires NoUnsafe(netloc) && forall k :: 0 <= k < |netloc| ==> !EndsNetloc(netloc[k])
    requires ('[' in netloc) == (']' in netloc)
    ensures CleanedUrl(Unsplit(scheme, netloc)) == Unsplit(scheme, netloc)
  {
    var c := Unsplit(scheme, netloc);
    if scheme != "" && netloc != "" {
      UnsplitWithHost(scheme, netloc);
      ReadsBackWithSlashes(scheme, netloc);
    } else if scheme != "" && scheme in UsesNetloc {
      UnsplitListed(scheme, netloc);
      ReadsBackWithSlashes(scheme, netloc);
    } else if scheme != "" {
      UnsplitUnlisted(scheme, netloc);
      ReadsBackSchemeOnly(scheme);
    } else if netloc != "" {
      UnsplitNoScheme(netloc);
      ReadsBackNetlocOnly(netloc);
    } else {
      UnsplitNothing(scheme, netloc);
      ReadsBackEmpty();
    }
    ReadsBackIsClean(c, scheme, netloc);
  }

  lemma CleanUrlPrepares(url: string)
    ensures CleanUrl(url) == CleanSplit(RemoveUnsafe(LStripC0(url)))
  {
  }

  lemma CleanReturns(url: string)
    requires var netloc := NetlocOf(AfterScheme(RemoveUnsafe(LStripC0(url))));
      ('[' in netloc) == (']' in netloc)
    ensures var u := RemoveUnsafe(LStripC0(url));
      CleanUrl(url) == Returned(Unsplit(SchemeOf(u), NetlocOf(AfterScheme(u))))
  {
    var u := RemoveUnsafe(LStripC0(url));
    CleanUrlPrepares(url);
    CleanSplitBalanced(u, NetlocOf(AfterScheme(u)));
  }

  lemma CleanRaises(url: string)
    requires var netloc := NetlocOf(AfterScheme(RemoveUnsafe(LStripC0(url))));
      ('[' in netloc) != (']' in netloc)
    ensures CleanUrl(url) == Raised
  {
  }

  lemma CleanedIsReturned(url: string, c: string)
    requires CleanUrl(url) == Returned(c)
    ensures CleanedUrl(url) == c
  {
  }

  lemma CleanedIsKept(url: string)
    requires CleanUrl(url) == Raised
    ensures CleanedUrl(url) == url
  {
  }

  /** When parsing succeeds the cleaned address is the reassembled scheme and location. */
  lemma CleanedIsUnsplit(url: string)
    requires var netloc := NetlocOf(AfterScheme(RemoveUnsafe(LStripC0(url))));
      ('[' in netloc) == (']' in netloc)
    ensures var u := RemoveUnsafe(LStripC0(url));
      CleanedUrl(url) == Unsplit(SchemeOf(u), NetlocOf(AfterScheme(u)))
  {
    var u := RemoveUnsafe(LStripC0(url));
    CleanReturns(url);
    CleanedIsReturned(url, Unsplit(SchemeOf(u), NetlocOf(AfterScheme(u))));
  }

  /** When parsing raises the address is kept as it came. */
  lemma CleanedIsRaw(url: string)
    requires var netloc := NetlocOf(AfterScheme(RemoveUnsafe(LStripC0(url))));
      ('[' in netloc) != (']' in netloc)
    ensures CleanedUrl(url) == url
  {
    CleanRaises(url);
    CleanedIsKept(url);
  }

  /** Cleaning an address twice gives what cleaning it once gives. */
  lemma CleanIsIdempotent(url: string)
    ensures CleanedUrl(CleanedUrl(url)) == CleanedUrl(url)
  {
    var netloc := NetlocOf(AfterScheme(RemoveUnsafe(LStripC0(url))));
    if ('[' in netloc) == (']' in netloc) {
      ParsedIsClean(url);
    } else {
      CleanedIsRaw(url);
    }
  }

  lemma ParsedIsClean(url: string)
    requires var netloc := NetlocOf(AfterScheme(RemoveUnsafe(LStripC0(url))));
      ('[' in netloc) == (']' in netloc)
    ensures CleanedUrl(CleanedUrl(url)) == CleanedUrl(url)
  {
    var u := RemoveUnsafe(LStripC0(url));
    CleanedIsUnsplit(url);
    ReparsedIsClean(url);
    FixedThrough(url, Unsplit(SchemeOf(u), NetlocOf(AfterScheme(u))));
  }

  lemma ReparsedIsClean(url: string)
    ensures var u := RemoveUnsafe(LStripC0(url));
      var c := Unsplit(SchemeOf(u), NetlocOf(AfterScheme(u)));
      ('[' in NetlocOf(AfterScheme(u))) == (']' in NetlocOf(AfterScheme(u))) ==> CleanedUrl(c) == c
  {
    var u := RemoveUnsafe(LStripC0(url));
    if ('[' in NetlocOf(AfterScheme(u))) == (']' in NetlocOf(AfterScheme(u))) {
      PreparedIsSafe(url);
      CleanedParts(u);
      UnsplitIsClean(SchemeOf(u), NetlocOf(AfterScheme(u)));
    }
  }

  lemma FixedThrough(url: string, c: string)
    requires CleanedUrl(url) == c && CleanedUrl(c) == c
    ensures CleanedUrl(CleanedUrl(url)) == CleanedUrl(url)
  {
  }

  /** A location with an opening bracket and no closing one makes cleaning raise, and
      the address is then used as it came. */
  lemma UnbalancedBracketKeepsUrl(url: string, scheme: string, host: string)
    requires ValidScheme(scheme) && url == scheme + [':', '/', '/'] + host
    requires NoUnsafe(host)
    requires forall k :: 0 <= k < |host| ==> !EndsNetloc(host[k])
    requires '[' in host && ']' !in host
    ensures CleanUrl(url).Raised? && CleanedUrl(url) == url
  {
    assert url == scheme + [':', '/', '/'] + host + [];
    SchemeHostParts(url, scheme, host, []);
  }

  /** An address with neither a scheme nor a leading `//` cleans to the empty string. */
  lemma BareAddressCleansToEmpty(url: string)
    requires ':' !in url && NoUnsafe(url)
    requires url != [] && !IsC0OrSpace(url[0]) && url[0] != '/'
    ensures CleanedUrl(url) == ""
  {
    PreparedUnchanged(url);
    assert !HasScheme(url);
    if |url| >= 2 {
      assert url[..2][0] == url[0];
    }
    assert NetlocOf(AfterScheme(url)) == "";
    assert Unsplit(SchemeOf(url), "") == "";
  }

  // ----- one site -----

  /** What `process_url` returns: the rows, the cleaned address, whether the login
      succeeded, and the number of rows. */
  datatype UrlReport = UrlReport(bonuses: seq<Bonus>, cleanedUrl: string, success: bool, bonusCount: nat)

  /** The lower and upper bounds of the pause between login and fetch, from the
      `[scraper]` section with defaults 1.0 and 3.0. */
  function Delays(cfg: Ini, py: Py): Outcome<(real, real)> {
    match GetFloat(cfg, "scraper", "min_request_delay", 1.0, py)
    case Raised => Raised
    case Returned(low) =>
      match GetFloat(cfg, "scraper", "max_request_delay", 3.0, py)
      case Raised => Raised
      case Returned(high) => Returned((low, high))
  }

  /** `process_url` without its timestamp: clean, log in, and carry on from the login's
      outcome. */
  function Process(url: string, cfg: Ini, net: Net, py: Py): Traced<Outcome<UrlReport>> {
    var cleaned := CleanedUrl(url);
    AfterLogin(cleaned, Authenticate(cleaned, cfg, net), cfg, net, py)
  }

  /** The rest of `process_url` once the login for `cleaned` has had its outcome:
      anything that escaped the login, or escapes reading the delay settings, escapes
      from here too; a refused login reports failure; otherwise pause, fetch and
      normalise. */
  function AfterLogin(cleaned: string, login: Traced<Outcome<Option<AuthData>>>, cfg: Ini, net: Net, py: Py)
    : Traced<Outcome<UrlReport>>
  {
    match login.value
    case Raised => Traced(Raised, login.effects)
    case Returned(None) => Traced(Returned(UrlReport([], cleaned, false, 0)), login.effects)
    case Returned(Some(a)) =>
      match Delays(cfg, py)
      case Raised => Traced(Raised, login.effects)
      case Returned((low, high)) =>
        var fetch := GetBonuses(a, net);
        var effects := login.effects + [Pause(low, high)] + fetch.effects;
        match fetch.value
        case None => Traced(Returned(UrlReport([], cleaned, true, 0)), effects)
        case Some(records) =>
          var rows := Normalize(records, cleaned, a.merchantName, py);
          Traced(Returned(UrlReport(rows, cleaned, true, |rows|)), effects)
  }

  /** `process_url`: the login appends the current time to the window; the rows are
      normalised by the processing loop. */
  method ProcessUrl(url: string, cfg: Ini, net: Net, py: Py, window: RequestWindow, now: real)
    returns (r: Traced<Outcome<UrlReport>>)
    requires window.Valid()
    modifies window
    ensures window.Valid()
    ensures window.stamps == Pushed(old(window.stamps), now, window.capacity)
    ensures r == Process(url, cfg, net, py)
  {
    var cleaned := CleanedUrl(url);
    var login := GetAuth(cleaned, cfg, net, window, now);
    match login.value
    case Raised =>
      r := Traced(Raised, login.effects);
    case Returned(None) =>
      r := Traced(Returned(UrlReport([], cleaned, false, 0)), login.effects);
    case Returned(Some(a)) =>
      match Delays(cfg, py)
      case Raised =>
        r := Traced(Raised, login.effects);
      case Returned((low, high)) =>
        var fetch := GetBonuses(a, net);
        var effects := login.effects + [Pause(low, high)] + fetch.effects;
        match fetch.value
        case None =>
          r := Traced(Returned(UrlReport([], cleaned, true, 0)), effects);
        case Some(records) =>
          var rows := ProcessBonuses(records, cleaned, a.merchantName, py);
          r := Traced(Returned(UrlReport(rows, cleaned, true, |rows|)), effects);
  }

  /** A site whose login is refused is neither paused for nor fetched from, and is
      reported as unsuccessful with no rows. */
  lemma RefusedLoginStops(cleaned: string, login: Traced<Outcome<Option<AuthData>>>, cfg: Ini, net: Net, py: Py)
    requires login.value == Returned(None)
    ensures AfterLogin(cleaned, login, cfg, net, py).effects == login.effects
    ensures AfterLogin(cleaned, login, cfg, net, py).value == Returned(UrlReport([], cleaned, false, 0))
  {
  }

  /** A site whose fetch fails after a successful login and the pause is reported as a
      success with no rows. */
  lemma FailedFetchReports(cleaned: string, login: Traced<Outcome<Option<AuthData>>>, cfg: Ini, net: Net, py: Py)
    requires login.value.Returned? && login.value.value.Some? && Delays(cfg, py).Returned?
    requires GetBonuses(login.value.value.value, net).value.None?
    ensures AfterLogin(cleaned, login, cfg, net, py).value == Returned(UrlReport([], cleaned, true, 0))
  {
  }

  /** A successful fetch reports the normalised records, counted, as a success. */
  lemma FetchedRowsReport(cleaned: string, login: Traced<Outcome<Option<AuthData>>>, cfg: Ini, net: Net, py: Py)
    requires login.value.Returned? && login.value.value.Some? && Delays(cfg, py).Returned?
    requires GetBonuses(login.value.value.value, net).value.Some?
    ensures var a := login.value.value.value;
      var rows := Normalize(GetBonuses(a, net).value.value, cleaned, a.merchantName, py);
      AfterLogin(cleaned, login, cfg, net, py).value == Returned(UrlReport(rows, cleaned, true, |rows|))
  {
  }

  /** After a successful login the site is paused for, with the configured bounds, and
      then fetched from exactly once, with the credential's endpoint and form; the
      site then counts as a success. */
  lemma PauseThenFetch(cleaned: string, login: Traced<Outcome<Option<AuthData>>>, cfg: Ini, net: Net, py: Py)
    requires login.value.Returned? && login.value.value.Some? && Delays(cfg, py).Returned?
    ensures var a := login.value.value.value;
      var (low, high) := Delays(cfg, py).value;
      var r := AfterLogin(cleaned, login, cfg, net, py);
      && r.effects == login.effects + [Pause(low, high), PostForm(a.apiUrl, FetchForm(a))]
      && r.value.Returned? && r.value.value.success
  {
  }

  /** The only pause in a site's effects is the one after a successful login: there is
      none when the login did not produce a credential. */
  lemma NoPauseWithoutCredential(url: string, cfg: Ini, net: Net, py: Py)
    requires !(Authenticate(CleanedUrl(url), cfg, net).value.Returned? && Authenticate(CleanedUrl(url), cfg, net).value.value.Some?)
    ensures forall k :: 0 <= k < |Process(url, cfg, net, py).effects| ==> !Process(url, cfg, net, py).effects[k].Pause?
  {
    var cleaned := CleanedUrl(url);
    var login := Authenticate(cleaned, cfg, net);
    AuthenticateNeverPauses(cleaned, cfg, net);
    NoPauseAfterRefusal(cleaned, login, cfg, net, py);
    assert Process(url, cfg, net, py) == AfterLogin(cleaned, login, cfg, net, py);
  }

  lemma NoPauseAfterRefusal(cleaned: string, login: Traced<Outcome<Option<AuthData>>>, cfg: Ini, net: Net, py: Py)
    requires !(login.value.Returned? && login.value.value.Some?)
    ensures AfterLogin(cleaned, login, cfg, net, py).effects == login.effects
  {
  }

  /** Unset delay settings give a pause drawn between 1 and 3 seconds. */
  lemma DefaultDelays(cfg: Ini, py: Py)
    requires !HasOption(cfg, "scraper", "min_request_delay") && !HasOption(cfg, "scraper", "max_request_delay")
    ensures Delays(cfg, py) == Returned((1.0, 3.0))
  {
  }

  /** A report carries as many rows as it counts, all tagged with the cleaned address
      and the merchant's name; rows come only with a success. */
  lemma ReportCountsRows(cleaned: string, login: Traced<Outcome<Option<AuthData>>>, cfg: Ini, net: Net, py: Py)
    requires AfterLogin(cleaned, login, cfg, net, py).value.Returned?
    ensures var r := AfterLogin(cleaned, login, cfg, net, py).value.value;
      && r.bonusCount == |r.bonuses|
      && r.cleanedUrl == cleaned
      && (r.bonuses != [] ==> r.success)
      && forall b :: b in r.bonuses ==> b.url == cleaned && b.merchantName == login.value.value.value.merchantName
  {
    if login.value.Returned? && login.value.value.Some? && Delays(cfg, py).Returned? {
      var a := login.value.value.value;
      var fetch := GetBonuses(a, net);
      if fetch.value.Some? {
        NormalizeKeepsSource(fetch.value.value, cleaned, a.merchantName, py);
      }
    }
  }

  // ----- the run over every site -----

  /** One site as the loop sees it: `process_url` is handed the stripped address. */
  function Attempt(url: string, cfg: Ini, net: Net, py: Py): Traced<Outcome<UrlReport>> {
    Process(Strip(url), cfg, net, py)
  }

  /** The rows a site contributes: none when processing it raised. */
  function Rows(o: Outcome<UrlReport>): seq<Bonus> {
    if o.Returned? then o.value.bonuses else []
  }

  /** The progress line for the `n`-th site: when processing raised, the address as it
      was listed, failure and no rows; otherwise what `process_url` reported. */
  function LineFor(n: nat, total: nat, url: string, o: Outcome<UrlReport>): ProgressLine {
    match o
    case Raised => ProgressLine(n, total, StatusLabel(false, 0), 0, url)
    case Returned(r) => ProgressLine(n, total, StatusLabel(r.success, r.bonusCount), r.bonusCount, r.cleanedUrl)
  }

  /** What the loop of `main` has gathered: every row in site order, the number of sites
      whose processing raised, the progress lines and the effects. */
  datatype RunState = RunState(bonuses: seq<Bonus>, failed: nat, lines: seq<ProgressLine>, effects: seq<Effect>)

  function Step(st: RunState, url: string, t: Traced<Outcome<UrlReport>>, total: nat): RunState {
    RunState(
      st.bonuses + Rows(t.value),
      st.failed + (if t.value.Raised? then 1 else 0),
      st.lines + [LineFor(|st.lines| + 1, total, url, t.value)],
      st.effects + t.effects)
  }

  /** Processing one site, as the loop of `main` does it with the run's configuration,
      network and Python primitives. */
  function SiteAttempt(cfg: Ini, net: Net, py: Py): string -> Traced<Outcome<UrlReport>> {
    (url: string) => Attempt(url, cfg, net, py)
  }

  /** The loop of `main` over `urls`, where `attempt` processes one site, reporting
      against a total of `total` sites. */
  function RunFold(urls: seq<string>, attempt: string -> Traced<Outcome<UrlReport>>, total: nat): (st: RunState)
    ensures |st.lines| == |urls| && st.failed <= |urls|
    decreases |urls|
  {
    if urls == [] then RunState([], 0, [], [])
    else
      var front := urls[..|urls| - 1];
      var url := urls[|urls| - 1];
      Step(RunFold(front, attempt, total), url, attempt(url), total)
  }

  /** The clock readings of the first `n` logins, in order. */
  function Stamps(clock: nat -> real, n: nat): (r: seq<real>)
    ensures |r| == n && forall k :: 0 <= k < n ==> r[k] == clock(k)
  {
    if n == 0 then [] else Stamps(clock, n - 1) + [clock(n - 1)]
  }

  lemma RunFoldStep(urls: seq<string>, i: nat, attempt: string -> Traced<Outcome<UrlReport>>, total: nat)
    requires i < |urls|
    ensures RunFold(urls[..i + 1], attempt, total)
      == Step(RunFold(urls[..i], attempt, total), urls[i], attempt(urls[i]), total)
  {
    assert urls[..i + 1][..i] == urls[..i];
  }

  /** One more site adds the same rows, failure and effects to a run as to its tail. */
  lemma StepAdds(whole: RunState, front: RunState, back: RunState, url: string, t: Traced<Outcome<UrlReport>>, total: nat)
    requires whole.bonuses == front.bonuses + back.bonuses
    requires whole.failed == front.failed + back.failed
    requires whole.effects == front.effects + back.effects
    ensures var w, b := Step(whole, url, t, total), Step(back, url, t, total);
      && w.bonuses == front.bonuses + b.bonuses
      && w.failed == front.failed + b.failed
      && w.effects == front.effects + b.effects
  {
    assert front.bonuses + back.bonuses + Rows(t.value) == front.bonuses + (back.bonuses + Rows(t.value));
    assert front.effects + back.effects + t.effects == front.effects + (back.effects + t.effects);
  }

  /** The loop gathers rows, failures and effects site by site: running over `xs + ys`
      gathers those of `xs` followed by those of `ys`. */
  lemma {:induction false} RunFoldAppend(xs: seq<string>, ys: seq<string>, attempt: string -> Traced<Outcome<UrlReport>>, total: nat)
    ensures var whole, front, back := RunFold(xs + ys, attempt, total), RunFold(xs, attempt, total), RunFold(ys, attempt, total);
      && whole.bonuses == front.bonuses + back.bonuses
      && whole.failed == front.failed + back.failed
      && whole.effects == front.effects + back.effects
    decreases |ys|
  {
    if ys == [] {
      assert xs + ys == xs;
    } else {
      var ys', y := ys[..|ys| - 1], ys[|ys| - 1];
      assert (xs + ys)[..|xs + ys| - 1] == xs + ys';
      assert (xs + ys)[|xs + ys| - 1] == y;
      RunFoldAppend(xs, ys', attempt, total);
      StepAdds(RunFold(xs + ys', attempt, total), RunFold(xs, attempt, total), RunFold(ys', attempt, total), y, attempt(y), total);
    }
  }

  /** A single site contributes its rows (none if it raised), counts as failed exactly
      when processing it raised, and adds its effects. */
  lemma RunFoldOne(url: string, attempt: string -> Traced<Outcome<UrlReport>>, total: nat)
    ensures var st, t := RunFold([url], attempt, total), attempt(url);
      && st.bonuses == Rows(t.value)
      && st.failed == (if t.value.Raised? then 1 else 0)
      && st.effects == t.effects
  {
    assert [url][..0] == [];
  }

  /** The failure count stays zero exactly when no site's processing raised: a refused
      login or a failed fetch, which `process_url` returns normally, is not counted. */
  lemma {:induction false} NoFailureIff(urls: seq<string>, attempt: string -> Traced<Outcome<UrlReport>>, total: nat)
    ensures RunFold(urls, attempt, total).failed == 0 <==>
      forall k :: 0 <= k < |urls| ==> attempt(urls[k]).value.Returned?
    decreases |urls|
  {
    if urls != [] {
      var front := urls[..|urls| - 1];
      NoFailureIff(front, attempt, total);
      assert forall k :: 0 <= k < |front| ==> front[k] == urls[k];
    }
  }

  /** Every site gets exactly one progress line, in order: the `k`-th line reports site
      `k` as number `k + 1`, including a site whose processing raised. */
  lemma {:induction false} OneLinePerSite(urls: seq<string>, attempt: string -> Traced<Outcome<UrlReport>>, total: nat)
    ensures var lines := RunFold(urls, attempt, total).lines;
      forall k :: 0 <= k < |urls| ==> lines[k] == LineFor(k + 1, total, urls[k], attempt(urls[k]).value)
    decreases |urls|
  {
    if urls != [] {
      var front := urls[..|urls| - 1];
      OneLinePerSite(front, attempt, total);
      assert forall k :: 0 <= k < |front| ==> front[k] == urls[k];
    }
  }

  /** The bookkeeping of one pass of `main`'s loop once `process_url` has had outcome
      `t`: collect the rows, count a raised failure, and report the site's progress. */
  method Record(ui: UIHandler, st: RunState, url: string, t: Traced<Outcome<UrlReport>>) returns (next: RunState)
    requires ui.processedCount == |st.lines|
    modifies ui
    ensures ui.processedCount == old(ui.processedCount) + 1 && ui.totalUrls == old(ui.totalUrls)
    ensures next == Step(st, url, t, ui.totalUrls)
  {
    var bonuses := st.bonuses;
    var failed := st.failed;
    var shown := url;
    var success := false;
    var found := 0;
    match t.value {
      case Raised =>
        failed := failed + 1;
      case Returned(r) =>
        if r.bonuses != [] {
          bonuses := bonuses + r.bonuses;
        }
        shown, success, found := r.cleanedUrl, r.success, r.bonusCount;
    }
    var line := ui.UpdateSiteProgress(shown, success, found);
    next := RunState(bonuses, failed, st.lines + [line], st.effects + t.effects);
  }

  /** The window after the first `n` logins of a run. */
  lemma StampsStep(clock: nat -> real, n: nat)
    ensures PushedAll([], Stamps(clock, n + 1), 200) == Pushed(PushedAll([], Stamps(clock, n), 200), clock(n), 200)
  {
    assert Stamps(clock, n + 1)[..n] == Stamps(clock, n);
  }

  /** The login and fetch for the `i`-th site, at time `clock(i)`. */
  method AttemptSite(window: RequestWindow, urls: seq<string>, i: nat, cfg: Ini, net: Net, py: Py, clock: nat -> real)
    returns (t: Traced<Outcome<UrlReport>>)
    requires i < |urls| && window.Valid() && window.capacity == 200
    requires window.stamps == PushedAll([], Stamps(clock, i), 200)
    modifies window
    ensures window.Valid() && window.capacity == 200
    ensures window.stamps == PushedAll([], Stamps(clock, i + 1), 200)
    ensures t == Attempt(urls[i], cfg, net, py)
  {
    StampsStep(clock, i);
    t := ProcessUrl(Strip(urls[i]), cfg, net, py, window, clock(i));
  }

  /** The bookkeeping for the `i`-th site once it has been attempted. */
  method RecordSite(ui: UIHandler, st: RunState, urls: seq<string>, i: nat, t: Traced<Outcome<UrlReport>>,
                    ghost attempt: string -> Traced<Outcome<UrlReport>>)
    returns (next: RunState)
    requires i < |urls| && ui.processedCount == i && ui.totalUrls == |urls|
    requires st == RunFold(urls[..i], attempt, |urls|) && t == attempt(urls[i])
    modifies ui
    ensures ui.processedCount == i + 1 && ui.totalUrls == |urls|
    ensures next == RunFold(urls[..i + 1], attempt, |urls|)
  {
    RunFoldStep(urls, i, attempt, |urls|);
    next := Record(ui, st, urls[i], t);
  }

  /** One pass of `main`'s loop: the `i`-th site is processed at time `clock(i)` and
      its outcome recorded. */
  method Visit(ui: UIHandler, window: RequestWindow, st: RunState, urls: seq<string>, i: nat,
               cfg: Ini, net: Net, py: Py, clock: nat -> real)
    returns (next: RunState)
    requires i < |urls| && ui.processedCount == i && ui.totalUrls == |urls|
    requires window.Valid() && window.capacity == 200
    requires window.stamps == PushedAll([], Stamps(clock, i), 200)
    requires st == RunFold(urls[..i], SiteAttempt(cfg, net, py), |urls|)
    modifies ui, window
    ensures ui.processedCount == i + 1 && ui.totalUrls == |urls|
    ensures window.Valid() && window.capacity == 200
    ensures window.stamps == PushedAll([], Stamps(clock, i + 1), 200)
    ensures next == RunFold(urls[..i + 1], SiteAttempt(cfg, net, py), |urls|)
  {
    var t := AttemptSite(window, urls, i, cfg, net, py, clock);
    ghost var stamps := window.stamps;
    next := RecordSite(ui, st, urls, i, t, SiteAttempt(cfg, net, py));
    assert window.stamps == stamps;
  }

  /** `main` between loading the addresses and writing the output: the progress
      reporter and the 200-stamp window are created, every site is processed in turn
      (`clock(k)` is the time at which the `k`-th login starts), and the summary is
      produced.  The window's final stamps are returned alongside. */
  method Run(urls: seq<string>, cfg: Ini, net: Net, py: Py, clock: nat -> real)
    returns (st: RunState, summary: Summary, stamps: seq<real>)
    ensures st == RunFold(urls, SiteAttempt(cfg, net, py), |urls|)
    ensures summary == Summary(|st.bonuses|, |urls| - st.failed, st.failed)
    ensures stamps == PushedAll([], Stamps(clock, |urls|), 200)
  {
    var ui := new UIHandler();
    ui.SetTotalUrls(|urls|);
    var window := new RequestWindow(200);
    st := RunState([], 0, [], []);
    for i := 0 to |urls|
      invariant ui.processedCount == i && ui.totalUrls == |urls|
      invariant window.Valid() && window.capacity == 200
      invariant window.stamps == PushedAll([], Stamps(clock, i), 200)
      invariant st == RunFold(urls[..i], SiteAttempt(cfg, net, py), |urls|)
    {
      st := Visit(ui, window, st, urls, i, cfg, net, py, clock);
    }
    assert urls[..|urls|] == urls;
    stamps := window.stamps;
    summary := ui.PrintFinalSummary(|st.bonuses|, st.failed);
  }
}
