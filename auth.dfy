/** Session discovery and credential assembly (src/acq/auth.py): find the merchant id
    and name in the landing page, post the login form, and turn the reply into a
    credential or a failure. */
module Auth {
  import opened Wrappers
  import opened Text
  import opened PyJson
  import opened Models
  import opened Http
  import opened Config
  import opened Tracker

  // ----- the discovery pattern -----

  const IdPrefix := "var MERCHANTID = "
  const NamePrefix := "var MERCHANTNAME = "

  predicate IsQuote(c: char) { c == '"' || c == '\'' }

  /** `p` occurs at `i` in `s`, letters compared without regard to (ASCII) case. */
  predicate PrefixAt(s: string, i: nat, p: string) {
    i + |p| <= |s| && forall k :: 0 <= k < |p| ==> LowerChar(s[i + k]) == LowerChar(p[k])
  }

  /** Length of the run of ASCII digits starting at `i`. */
  function DigitRun(s: string, i: nat): nat
    decreases |s| - i
  {
    if i < |s| && IsDigit(s[i]) then 1 + DigitRun(s, i + 1) else 0
  }

  /** The digit run is maximal and stays inside the text. */
  lemma {:induction false} DigitRunIsRun(s: string, i: nat)
    ensures var n := DigitRun(s, i);
      && (i + n <= |s| || (i >= |s| && n == 0))
      && (forall k :: i <= k < i + n ==> IsDigit(s[k]))
      && (i + n < |s| ==> !IsDigit(s[i + n]))
    decreases |s| - i
  {
    if i < |s| && IsDigit(s[i]) {
      DigitRunIsRun(s, i + 1);
    }
  }

  /** Length of the run of whitespace starting at `i`. */
  function SpaceRun(s: string, i: nat): nat
    decreases |s| - i
  {
    if i < |s| && IsSpace(s[i]) then 1 + SpaceRun(s, i + 1) else 0
  }

  /** The whitespace run is maximal and stays inside the text. */
  lemma {:induction false} SpaceRunIsRun(s: string, i: nat)
    ensures var n := SpaceRun(s, i);
      && (i + n <= |s| || (i >= |s| && n == 0))
      && (forall k :: i <= k < i + n ==> IsSpace(s[k]))
      && (i + n < |s| ==> !IsSpace(s[i + n]))
    decreases |s| - i
  {
    if i < |s| && IsSpace(s[i]) {
      SpaceRunIsRun(s, i + 1);
    }
  }

  /** A quote followed by `;` at `k`: where the name group may end. */
  predicate ClosesAt(s: string, k: nat) {
    k + 1 < |s| && IsQuote(s[k]) && s[k + 1] == ';'
  }

  /** A character the lazy name group consumes: not a newline and not a closing quote. */
  predicate InName(s: string, k: nat)
    requires k < |s|
  {
    s[k] != '\n' && !ClosesAt(s, k)
  }

  /** The closing quote of the lazy `(.*?)["']` followed by `;`: the first position at or
      after `i` holding a quote followed by `;`, provided no newline comes first. */
  function NameEnd(s: string, i: nat): Option<nat>
    decreases |s| - i
  {
    if ClosesAt(s, i) then Some(i)
    else if i < |s| && s[i] != '\n' then NameEnd(s, i + 1)
    else None
  }

  /** `NameEnd` finds the first closing quote, and finds none only when a newline comes
      before every closing quote. */
  lemma {:induction false} NameEndIsFirstClose(s: string, i: nat)
    ensures var r := NameEnd(s, i);
      && (r.Some? ==> i <= r.value && ClosesAt(s, r.value))
      && (r.Some? ==> forall k :: i <= k < r.value ==> InName(s, k))
      && (r.None? ==> forall e :: i <= e && ClosesAt(s, e) ==> '\n' in s[i..e])
    decreases |s| - i
  {
    if !ClosesAt(s, i) && i < |s| && s[i] != '\n' {
      NameEndIsFirstClose(s, i + 1);
      var r := NameEnd(s, i + 1);
      if r.None? {
        forall e | i <= e && ClosesAt(s, e) ensures '\n' in s[i..e] {
          assert e != i;
          assert s[i + 1..e] == s[i..e][1..];
        }
      }
    } else if !ClosesAt(s, i) {
      forall e | i <= e && ClosesAt(s, e) ensures '\n' in s[i..e] {
        assert e != i;
        assert s[i..e][0] == '\n';
      }
    }
  }

  /** The two groups of a match. */
  datatype Merchant = Merchant(id: string, name: string)

  /** The match of `var MERCHANTID = (\d+);\s*var MERCHANTNAME = ["'](.*?)["'];`, ignoring
      case, that starts exactly at `i`.  At a fixed start the match is unique: the digit
      and whitespace runs must be maximal because a `;` and a `v` follow them. */
  function MatchAt(s: string, i: nat): Option<Merchant> {
    if !PrefixAt(s, i, IdPrefix) then None else AfterIdPrefix(s, i + |IdPrefix|)
  }

  /** The rest of the match once `var MERCHANTID = ` has been read up to `d`. */
  function AfterIdPrefix(s: string, d: nat): Option<Merchant> {
    var n := DigitRun(s, d);
    if n == 0 || d + n >= |s| || s[d + n] != ';' then None
    else AfterSeparator(s, d, n, d + n + 1 + SpaceRun(s, d + n + 1))
  }

  /** The rest of the match once the id `s[d..d + n]`, its `;` and the whitespace after
      it have been read up to `q`. */
  function AfterSeparator(s: string, d: nat, n: nat, q: nat): Option<Merchant>
    requires d + n <= |s|
  {
    if !PrefixAt(s, q, NamePrefix) then None
    else
      var o := q + |NamePrefix|;
      if o >= |s| || !IsQuote(s[o]) then None
      else
        NameEndIsFirstClose(s, o + 1);
        match NameEnd(s, o + 1)
        case None => None
        case Some(e) => Some(Merchant(s[d..d + n], s[o + 1..e]))
  }

  /** The least `j` with `from <= j <= bound` that satisfies `p`, if any. */
  function FirstWhere(p: nat -> bool, from: nat, bound: nat): (r: Option<nat>)
    ensures r.Some? ==> from <= r.value <= bound && p(r.value)
    ensures r.Some? ==> forall j :: from <= j < r.value ==> !p(j)
    ensures r.None? ==> forall j :: from <= j <= bound ==> !p(j)
    decreases bound + 1 - from
  {
    if from > bound then None
    else if p(from) then Some(from)
    else FirstWhere(p, from + 1, bound)
  }

  /** `re.search`: the leftmost start at which the pattern matches. */
  function Search(s: string): Option<nat> {
    FirstWhere((j: nat) => MatchAt(s, j).Some?, 0, |s|)
  }

  /** No match starts past the end of the text. */
  lemma NoMatchPastEnd(s: string, j: nat)
    requires j > |s|
    ensures MatchAt(s, j).None?
  {
  }

  /** `Search` returns the leftmost match, and finds one whenever there is one. */
  lemma SearchLeftmost(s: string)
    ensures Search(s).Some? ==> MatchAt(s, Search(s).value).Some?
    ensures Search(s).Some? ==> forall j :: 0 <= j < Search(s).value ==> MatchAt(s, j).None?
    ensures Search(s).None? ==> forall j: nat :: MatchAt(s, j).None?
  {
    var p := (j: nat) => MatchAt(s, j).Some?;
    var r := FirstWhere(p, 0, |s|);
    if r.None? {
      forall j: nat ensures MatchAt(s, j).None? {
        if j > |s| {
          NoMatchPastEnd(s, j);
        } else {
          assert !p(j);
        }
      }
    } else {
      forall j | 0 <= j < r.value ensures MatchAt(s, j).None? {
        assert !p(j);
      }
      assert p(r.value);
    }
  }

  /** The id and name found in a page, if any. */
  function Discover(html: string): Option<Merchant> {
    match Search(html)
    case None => None
    case Some(i) => MatchAt(html, i)
  }

  // ----- what a match is -----

  /** From `d`: the digits of `id`, then `;`. */
  predicate IdPart(s: string, d: nat, id: string) {
    && id != [] && d + |id| < |s|
    && s[d..d + |id|] == id && (forall k :: 0 <= k < |id| ==> IsDigit(id[k]))
    && s[d + |id|] == ';'
  }

  /** From `w`: `ws` whitespace characters. */
  predicate SpacePart(s: string, w: nat, ws: nat) {
    w + ws <= |s| && forall k :: w <= k < w + ws ==> IsSpace(s[k])
  }

  /** From `q`: `var MERCHANTNAME = ` (case aside), a quote, `name`, a quote and `;`; the
      name holds no newline and no quote followed by `;`, since the lazy group stops at
      the first one. */
  predicate NamePart(s: string, q: nat, name: string) {
    var o := q + |NamePrefix|;
    var e := o + 1 + |name|;
    && PrefixAt(s, q, NamePrefix)
    && e < |s| && IsQuote(s[o])
    && s[o + 1..e] == name
    && ClosesAt(s, e)
    && (forall k :: o + 1 <= k < e ==> InName(s, k))
  }

  /** What follows `var MERCHANTID = ` at `d`: the id part for `m.id`, `ws` whitespace
      characters, and the name part for `m.name`. */
  predicate Tail(s: string, d: nat, m: Merchant, ws: nat) {
    && IdPart(s, d, m.id)
    && SpacePart(s, d + |m.id| + 1, ws)
    && NamePart(s, d + |m.id| + 1 + ws, m.name)
  }

  /** The text at `i` reads, case aside, `var MERCHANTID = ` and then the tail for `m`
      with `ws` whitespace characters between the two statements. */
  predicate Layout(s: string, i: nat, m: Merchant, ws: nat) {
    PrefixAt(s, i, IdPrefix) && Tail(s, i + |IdPrefix|, m, ws)
  }

  lemma {:induction false} DigitRunExact(s: string, i: nat, n: nat)
    requires i + n <= |s| && (forall k :: i <= k < i + n ==> IsDigit(s[k]))
    requires i + n < |s| ==> !IsDigit(s[i + n])
    ensures DigitRun(s, i) == n
    decreases n
  {
    if n > 0 {
      DigitRunExact(s, i + 1, n - 1);
    }
  }

  lemma {:induction false} SpaceRunExact(s: string, i: nat, n: nat)
    requires i + n <= |s| && (forall k :: i <= k < i + n ==> IsSpace(s[k]))
    requires i + n < |s| ==> !IsSpace(s[i + n])
    ensures SpaceRun(s, i) == n
    decreases n
  {
    if n > 0 {
      SpaceRunExact(s, i + 1, n - 1);
    }
  }

  lemma {:induction false} NameEndExact(s: string, i: nat, e: nat)
    requires i <= e && ClosesAt(s, e)
    requires forall k :: i <= k < e ==> InName(s, k)
    ensures NameEnd(s, i) == Some(e)
    decreases e - i
  {
    if i < e {
      assert InName(s, i);
      NameEndExact(s, i + 1, e);
    }
  }

  /** The name prefix starts with a letter, which is not whitespace in any case. */
  lemma NamePrefixStartsWithLetter(s: string, q: nat)
    requires PrefixAt(s, q, NamePrefix)
    ensures !IsSpace(s[q])
  {
    assert LowerChar(s[q + 0]) == LowerChar(NamePrefix[0]);
  }

  lemma NameStageIff(s: string, d: nat, n: nat, q: nat, m: Merchant)
    requires d + n <= |s|
    ensures AfterSeparator(s, d, n, q) == Some(m) <==> s[d..d + n] == m.id && NamePart(s, q, m.name)
  {
    var o := q + |NamePrefix|;
    NameEndIsFirstClose(s, o + 1);
    if s[d..d + n] == m.id && NamePart(s, q, m.name) {
      NameEndExact(s, o + 1, o + 1 + |m.name|);
    }
  }

  lemma AfterIdPrefixSteps(s: string, d: nat, n: nat, ws: nat)
    requires DigitRun(s, d) == n && n > 0 && d + n < |s| && s[d + n] == ';'
    requires SpaceRun(s, d + n + 1) == ws
    ensures AfterIdPrefix(s, d) == AfterSeparator(s, d, n, d + n + 1 + ws)
  {
  }

  /** A maximal non-empty digit run followed by `;` is an id part. */
  lemma IdFromRun(s: string, d: nat, n: nat, id: string)
    requires DigitRun(s, d) == n && n > 0 && d + n < |s| && s[d + n] == ';'
    requires id == s[d..d + n]
    ensures IdPart(s, d, id)
  {
    DigitRunIsRun(s, d);
    assert forall k :: 0 <= k < n ==> id[k] == s[d + k];
  }

  /** The three parts of a tail, for an id of length `n`. */
  lemma TailOfParts(s: string, d: nat, m: Merchant, n: nat, ws: nat)
    requires |m.id| == n && IdPart(s, d, m.id)
    requires SpacePart(s, d + n + 1, ws) && NamePart(s, d + n + 1 + ws, m.name)
    ensures Tail(s, d, m, ws)
  {
  }

  /** The id run, the whitespace run and a name part make a tail. */
  lemma RunsTail(s: string, d: nat, n: nat, ws: nat, m: Merchant)
    requires DigitRun(s, d) == n && n > 0 && d + n < |s| && s[d + n] == ';'
    requires SpaceRun(s, d + n + 1) == ws
    requires s[d..d + n] == m.id && NamePart(s, d + n + 1 + ws, m.name)
    ensures Tail(s, d, m, ws)
  {
    IdFromRun(s, d, n, m.id);
    SpaceRunIsRun(s, d + n + 1);
    TailOfParts(s, d, m, n, ws);
  }

  /** A successful read after the id, its `;` and the whitespace run gives the tail. */
  lemma SeparatorSound(s: string, d: nat, n: nat, ws: nat, m: Merchant)
    requires DigitRun(s, d) == n && n > 0 && d + n < |s| && s[d + n] == ';'
    requires SpaceRun(s, d + n + 1) == ws
    requires AfterSeparator(s, d, n, d + n + 1 + ws) == Some(m)
    ensures Tail(s, d, m, ws)
  {
    NameStageIff(s, d, n, d + n + 1 + ws, m);
    RunsTail(s, d, n, ws, m);
  }

  /** Once `var MERCHANTID = ` has been read, a successful match reads the tail. */
  lemma IdStageSound(s: string, d: nat)
    requires AfterIdPrefix(s, d).Some?
    ensures Tail(s, d, AfterIdPrefix(s, d).value, SpaceRun(s, d + DigitRun(s, d) + 1))
  {
    var n := DigitRun(s, d);
    var ws := SpaceRun(s, d + n + 1);
    AfterIdPrefixSteps(s, d, n, ws);
    SeparatorSound(s, d, n, ws, AfterIdPrefix(s, d).value);
  }

  lemma IdDigitsExact(s: string, d: nat, id: string)
    requires IdPart(s, d, id)
    ensures DigitRun(s, d) == |id|
  {
    forall k | d <= k < d + |id| ensures IsDigit(s[k]) {
      assert s[k] == s[d..d + |id|][k - d];
    }
    DigitRunExact(s, d, |id|);
  }

  lemma SpacesExact(s: string, w: nat, ws: nat, name: string)
    requires SpacePart(s, w, ws) && NamePart(s, w + ws, name)
    ensures SpaceRun(s, w) == ws
  {
    NamePrefixStartsWithLetter(s, w + ws);
    SpaceRunExact(s, w, ws);
  }

  /** The name part of a tail is what `AfterSeparator` reads. */
  lemma TailSeparator(s: string, d: nat, m: Merchant, ws: nat)
    requires Tail(s, d, m, ws)
    ensures AfterSeparator(s, d, |m.id|, d + |m.id| + 1 + ws) == Some(m)
  {
    NameStageIff(s, d, |m.id|, d + |m.id| + 1 + ws, m);
  }

  /** A tail is read by the id run, the whitespace run and the name part. */
  lemma SeparatorComplete(s: string, d: nat, m: Merchant, ws: nat)
    requires Tail(s, d, m, ws)
    ensures DigitRun(s, d) == |m.id| && SpaceRun(s, d + |m.id| + 1) == ws
    ensures AfterSeparator(s, d, |m.id|, d + |m.id| + 1 + ws) == Some(m)
  {
    IdDigitsExact(s, d, m.id);
    SpacesExact(s, d + |m.id| + 1, ws, m.name);
    TailSeparator(s, d, m, ws);
  }

  /** Once `var MERCHANTID = ` has been read, every tail is matched. */
  lemma IdStageComplete(s: string, d: nat, m: Merchant, ws: nat)
    requires Tail(s, d, m, ws)
    ensures AfterIdPrefix(s, d) == Some(m)
  {
    SeparatorComplete(s, d, m, ws);
    AfterIdPrefixSteps(s, d, |m.id|, ws);
  }

  /** What `MatchAt` returns is laid out in the text as the pattern demands. */
  lemma MatchAtSound(s: string, i: nat)
    requires MatchAt(s, i).Some?
    ensures Layout(s, i, MatchAt(s, i).value, SpaceRun(s, i + |IdPrefix| + DigitRun(s, i + |IdPrefix|) + 1))
  {
    var d := i + |IdPrefix|;
    assert MatchAt(s, i) == AfterIdPrefix(s, d);
    IdStageSound(s, d);
  }

  /** Every layout of the pattern at `i` is what `MatchAt` returns there. */
  lemma MatchAtComplete(s: string, i: nat, m: Merchant, ws: nat)
    requires Layout(s, i, m, ws)
    ensures MatchAt(s, i) == Some(m)
  {
    IdStageComplete(s, i + |IdPrefix|, m, ws);
  }

  /** The page is searched left to right and the first match wins. */
  lemma DiscoverLeftmost(html: string)
    ensures Discover(html).Some? <==> exists i: nat :: MatchAt(html, i).Some?
    ensures Discover(html).Some? ==>
      && Discover(html) == MatchAt(html, Search(html).value)
      && (forall j :: 0 <= j < Search(html).value ==> MatchAt(html, j).None?)
  {
    SearchLeftmost(html);
  }

  // ----- the page the pattern is written for -----

  /** A landing page that declares merchant `id` and `name`, with `ws` between the two
      statements and the name in single quotes. */
  function Page(id: string, name: string, ws: string): string {
    IdPrefix + id + ";" + ws + NamePrefix + "'" + name + "';"
  }

  /** Characters a page can hold as the merchant's name: no newline and no quote. */
  predicate PlainName(name: string) {
    forall k :: 0 <= k < |name| ==> name[k] != '\n' && !IsQuote(name[k])
  }

  predicate WellFormedId(id: string) {
    id != [] && forall k :: 0 <= k < |id| ==> IsDigit(id[k])
  }

  predicate AllSpace(ws: string) {
    forall k :: 0 <= k < |ws| ==> IsSpace(ws[k])
  }

  /** A verbatim copy of `p` is a case-insensitive occurrence of it. */
  lemma CopyIsPrefixAt(s: string, i: nat, p: string)
    requires i + |p| <= |s| && s[i..i + |p|] == p
    ensures PrefixAt(s, i, p)
  {
    forall k | 0 <= k < |p| ensures LowerChar(s[i + k]) == LowerChar(p[k]) {
      assert s[i + k] == s[i..i + |p|][k];
    }
  }

  lemma PageSlices(id: string, name: string, ws: string)
    ensures var p := Page(id, name, ws);
      var q := |IdPrefix| + |id| + 1 + |ws|;
      var o := q + |NamePrefix|;
      var e := o + 1 + |name|;
      && |p| == e + 2
      && p[..|IdPrefix|] == IdPrefix
      && p[|IdPrefix|..|IdPrefix| + |id|] == id
      && p[|IdPrefix| + |id|] == ';'
      && p[|IdPrefix| + |id| + 1..q] == ws
      && p[q..o] == NamePrefix
      && p[o] == '\'' && p[o + 1..e] == name
      && p[e] == '\'' && p[e + 1] == ';'
  {
    var a := IdPrefix + id + ";" + ws + NamePrefix + "'";
    var b := a + name;
    assert Page(id, name, ws) == b + "';";
    assert b[..|a|] == a;
    assert a[..|IdPrefix| + |id| + 1 + |ws|] == IdPrefix + id + ";" + ws;
  }

  lemma PageNamePart(id: string, name: string, ws: string)
    requires PlainName(name)
    ensures NamePart(Page(id, name, ws), |IdPrefix| + |id| + 1 + |ws|, name)
  {
    var p := Page(id, name, ws);
    var q := |IdPrefix| + |id| + 1 + |ws|;
    var o := q + |NamePrefix|;
    var e := o + 1 + |name|;
    PageSlices(id, name, ws);
    CopyIsPrefixAt(p, q, NamePrefix);
    forall k | o + 1 <= k < e ensures InName(p, k) {
      assert p[k] == p[o + 1..e][k - (o + 1)];
    }
  }

  lemma PageTail(id: string, name: string, ws: string)
    requires WellFormedId(id) && AllSpace(ws) && PlainName(name)
    ensures Tail(Page(id, name, ws), |IdPrefix|, Merchant(id, name), |ws|)
  {
    var p := Page(id, name, ws);
    var w := |IdPrefix| + |id| + 1;
    PageSlices(id, name, ws);
    forall k | w <= k < w + |ws| ensures IsSpace(p[k]) {
      assert p[k] == p[w..w + |ws|][k - w];
    }
    PageNamePart(id, name, ws);
  }

  /** The pattern recovers exactly the id and name a page was written with: discovery is
      the inverse of writing the page. */
  lemma DiscoverPage(id: string, name: string, ws: string)
    requires WellFormedId(id) && AllSpace(ws) && PlainName(name)
    ensures Discover(Page(id, name, ws)) == Some(Merchant(id, name))
  {
    var p := Page(id, name, ws);
    PageSlices(id, name, ws);
    CopyIsPrefixAt(p, 0, IdPrefix);
    PageTail(id, name, ws);
    MatchAtComplete(p, 0, Merchant(id, name), |ws|);
    assert Search(p) == Some(0);
  }

  // ----- the login -----

  /** The login endpoint under the site's address. */
  const LoginPath := "/api/v1/index.php"

  /** The login form: the configured credentials and the discovered merchant id. */
  function LoginForm(user: string, password: string, merchantId: string): map<string, string> {
    map["module" := "/users/login", "mobile" := user, "password" := password, "merchantId" := merchantId]
  }

  /** The credential read from a successful login reply: the reply must decode to an
      object whose `status` is "SUCCESS", and its `data` object must hold an `id` and a
      `token` that are both strings. */
  predicate Accepted(res: Json) {
    && res.JObj?
    && Get(res.fields, "status", JNull) == JStr("SUCCESS")
    && Get(res.fields, "data", JObj(map[])).JObj?
    && Get(Get(res.fields, "data", JObj(map[])).fields, "id", JNull).JStr?
    && Get(Get(res.fields, "data", JObj(map[])).fields, "token", JNull).JStr?
  }

  /** What the second step makes of the login reply.  Timeouts, status and connection
      errors are logged and give None; any other client failure escapes.  A reply that
      is not an object, or a successful one whose `data` is not an object, fails on
      `.get` and escapes; an `id` or `token` that is missing or not a string fails the
      credential's validation and gives None. */
  function LoginReply(reply: Transport<Json>, m: Merchant, api: string): Outcome<Option<AuthData>> {
    match reply
    case Failed(f) => if Handled(f) then Returned(None) else Raised
    case Reply(res) =>
      if !res.JObj? then Raised
      else if Get(res.fields, "status", JNull) != JStr("SUCCESS") then Returned(None)
      else
        var data := Get(res.fields, "data", JObj(map[]));
        if !data.JObj? then Raised
        else
          var id := Get(data.fields, "id", JNull);
          var token := Get(data.fields, "token", JNull);
          if id.JStr? && token.JStr? then Returned(Some(AuthData(m.id, m.name, id.s, token.s, api)))
          else Returned(None)
  }

  /** `get_auth` without its logging and its timestamp: fetch the page, discover the
      merchant, read the credentials from the `[auth]` section and post the login.  An
      empty page or one without the declarations gives None before any login is tried;
      a missing `[auth]` setting escapes from `config.get`. */
  function Authenticate(url: string, cfg: Ini, net: Net): Traced<Outcome<Option<AuthData>>> {
    match net.get(url)
    case Failed(f) => Traced(if Handled(f) then Returned(None) else Raised, [GetPage(url)])
    case Reply(html) =>
      if html == [] then Traced(Returned(None), [GetPage(url)])
      else
        match Discover(html)
        case None => Traced(Returned(None), [GetPage(url)])
        case Some(m) =>
          var user := Lookup(cfg, "auth", "username");
          var password := Lookup(cfg, "auth", "password");
          if user.None? || password.None? then Traced(Raised, [GetPage(url)])
          else
            var api := url + LoginPath;
            var form := LoginForm(user.value, password.value, m.id);
            Traced(LoginReply(net.post(api, form), m, api), [GetPage(url), PostForm(api, form)])
  }

  /** `get_auth` itself: the current time is appended to the request window first, then
      the two steps run. */
  method GetAuth(url: string, cfg: Ini, net: Net, window: RequestWindow, now: real)
    returns (r: Traced<Outcome<Option<AuthData>>>)
    requires window.Valid()
    modifies window
    ensures window.Valid()
    ensures window.stamps == Pushed(old(window.stamps), now, window.capacity)
    ensures r == Authenticate(url, cfg, net)
  {
    window.Append(now);
    r := Authenticate(url, cfg, net);
  }

  // ----- what the login promises -----

  /** The page is always fetched first, and a login is posted exactly when the page is
      non-empty, declares a merchant, and both `[auth]` settings are present. */
  lemma LoginAttemptedIff(url: string, cfg: Ini, net: Net)
    ensures var t := Authenticate(url, cfg, net);
      && 1 <= |t.effects| <= 2 && t.effects[0] == GetPage(url)
      && (|t.effects| == 2 <==>
            && net.get(url).Reply? && net.get(url).body != []
            && Discover(net.get(url).body).Some?
            && HasOption(cfg, "auth", "username") && HasOption(cfg, "auth", "password"))
  {
  }

  /** The login goes to `<url>/api/v1/index.php` and carries exactly the four form fields:
      the module, the configured user name and password, and the discovered id. */
  lemma LoginRequest(url: string, cfg: Ini, net: Net)
    requires |Authenticate(url, cfg, net).effects| == 2
    ensures var e := Authenticate(url, cfg, net).effects[1];
      var m := Discover(net.get(url).body).value;
      && e.PostForm? && e.url == url + "/api/v1/index.php"
      && e.form.Keys == {"module", "mobile", "password", "merchantId"}
      && e.form["module"] == "/users/login"
      && e.form["mobile"] == Lookup(cfg, "auth", "username").value
      && e.form["password"] == Lookup(cfg, "auth", "password").value
      && e.form["merchantId"] == m.id
  {
  }

  /** A credential is produced exactly for an accepted reply, and it carries the
      discovered merchant, the reply's id and token, and the login endpoint. */
  lemma LoginReplyCredential(reply: Transport<Json>, m: Merchant, api: string, a: AuthData)
    ensures LoginReply(reply, m, api) == Returned(Some(a)) <==>
      && reply.Reply? && Accepted(reply.body)
      && var data := Get(reply.body.fields, "data", JObj(map[])).fields;
        a == AuthData(m.id, m.name, Get(data, "id", JNull).s, Get(data, "token", JNull).s, api)
  {
  }

  /** The login reply escapes only for an unexpected client failure, a reply that is not
      an object, or a successful reply whose `data` is not an object. */
  lemma LoginReplyRaisesIff(reply: Transport<Json>, m: Merchant, api: string)
    ensures LoginReply(reply, m, api).Raised? <==>
      || reply == Failed(Unexpected)
      || (reply.Reply? && !reply.body.JObj?)
      || (&& reply.Reply? && reply.body.JObj?
          && Get(reply.body.fields, "status", JNull) == JStr("SUCCESS")
          && !Get(reply.body.fields, "data", JObj(map[])).JObj?)
  {
  }

  /** The whole credential step escapes only where the page fetch fails unexpectedly,
      where a merchant was found but an `[auth]` setting is missing, or where the login
      reply escapes. */
  lemma AuthenticateRaisesIff(url: string, cfg: Ini, net: Net)
    ensures Authenticate(url, cfg, net).value.Raised? <==>
      || net.get(url) == Failed(Unexpected)
      || (&& net.get(url).Reply? && net.get(url).body != []
          && Discover(net.get(url).body).Some?
          && !(HasOption(cfg, "auth", "username") && HasOption(cfg, "auth", "password")))
      || (&& |Authenticate(url, cfg, net).effects| == 2
          && LoginReply(net.post(Authenticate(url, cfg, net).effects[1].url, Authenticate(url, cfg, net).effects[1].form),
                        Discover(net.get(url).body).value, url + LoginPath).Raised?)
  {
  }

  /** A credential always names the merchant the page declared and the endpoint that
      was posted to. */
  lemma CredentialFromPage(url: string, cfg: Ini, net: Net)
    requires Authenticate(url, cfg, net).value.Returned? && Authenticate(url, cfg, net).value.value.Some?
    ensures var a := Authenticate(url, cfg, net).value.value.value;
      && net.get(url).Reply?
      && Discover(net.get(url).body) == Some(Merchant(a.merchantId, a.merchantName))
      && a.apiUrl == url + "/api/v1/index.php"
      && |Authenticate(url, cfg, net).effects| == 2
  {
  }

  /** The credential step never pauses: its effects are the page fetch and the login. */
  lemma AuthenticateNeverPauses(url: string, cfg: Ini, net: Net)
    ensures forall k :: 0 <= k < |Authenticate(url, cfg, net).effects| ==> !Authenticate(url, cfg, net).effects[k].Pause?
  {
    LoginAttemptedIff(url, cfg, net);
  }
}
