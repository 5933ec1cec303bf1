/** The parsed `config.ini` and the start-up check that every required setting is
    present (src/core/config.py). */
module Config {
  import opened Wrappers
  import opened PyJson

  /** A parsed configuration: its sections, each a map from option name to raw value,
      and the `[DEFAULT]` options that every section inherits.  Option names are held
      as `configparser` stores them, already lower-cased. */
  datatype Ini = Ini(sections: map<string, map<string, string>>, defaults: map<string, string>)

  /** `has_section`. */
  predicate HasSection(cfg: Ini, section: string) {
    section in cfg.sections
  }

  /** `has_option`: false for a missing section; otherwise the option is the section's
      own or a default. */
  predicate HasOption(cfg: Ini, section: string, key: string) {
    section in cfg.sections && (key in cfg.sections[section] || key in cfg.defaults)
  }

  /** `get(section, key)`: None where `configparser` raises NoSectionError or
      NoOptionError. */
  function Lookup(cfg: Ini, section: string, key: string): (r: Option<string>)
    ensures r.Some? <==> HasOption(cfg, section, key)
    ensures r.Some? && key in cfg.sections[section] ==> r.value == cfg.sections[section][key]
    ensures r.Some? && key !in cfg.sections[section] ==> r.value == cfg.defaults[key]
  {
    if section !in cfg.sections then None
    else if key in cfg.sections[section] then Some(cfg.sections[section][key])
    else if key in cfg.defaults then Some(cfg.defaults[key])
    else None
  }

  /** `getfloat(section, key, fallback=...)`: the fallback when the setting is absent, the
      parsed value when `float()` accepts it, and a raised ValueError otherwise. */
  function GetFloat(cfg: Ini, section: string, key: string, fallback: real, py: Py): (r: Outcome<real>)
    ensures !HasOption(cfg, section, key) ==> r == Returned(fallback)
    ensures HasOption(cfg, section, key) ==>
      (r.Raised? <==> py.floatOf(Lookup(cfg, section, key).value).None?)
    ensures HasOption(cfg, section, key) && r.Returned? ==> Some(r.value) == py.floatOf(Lookup(cfg, section, key).value)
  {
    match Lookup(cfg, section, key)
    case None => Returned(fallback)
    case Some(v) =>
      match py.floatOf(v)
      case None => Raised
      case Some(x) => Returned(x)
  }

  /** The settings that must be present, section by section, in the order checked. */
  const Required: seq<(string, seq<string>)> := [
    ("auth", ["username", "password"]),
    ("scraper", ["url_list_path"]),
    ("output", ["enable_csv_output", "csv_output_path", "enable_db_output", "db_connection_string"]),
    ("logging", ["log_level", "log_file_path"])
  ]

  /** Why start-up stops: no file, or the first missing section or key. */
  datatype ConfigError = FileMissing | MissingSection(section: string) | MissingKey(section: string, key: string)

  datatype Loaded = Loaded(cfg: Ini) | Fatal(error: ConfigError)

  /** One item the check visits: a section, or a key within a section. */
  datatype Item = SectionItem(section: string) | KeyItem(section: string, key: string)

  /** The items in visiting order: each section, then its keys in listed order. */
  function Items(req: seq<(string, seq<string>)>): seq<Item> {
    if req == [] then []
    else [SectionItem(req[0].0)] + KeyItems(req[0].0, req[0].1) + Items(req[1..])
  }

  function KeyItems(section: string, keys: seq<string>): (r: seq<Item>)
    ensures |r| == |keys|
    ensures forall j :: 0 <= j < |keys| ==> r[j] == KeyItem(section, keys[j])
  {
    if keys == [] then [] else [KeyItem(section, keys[0])] + KeyItems(section, keys[1..])
  }

  predicate Present(cfg: Ini, item: Item) {
    match item
    case SectionItem(s) => HasSection(cfg, s)
    case KeyItem(s, k) => HasOption(cfg, s, k)
  }

  function ErrorOf(item: Item): ConfigError {
    match item
    case SectionItem(s) => MissingSection(s)
    case KeyItem(s, k) => MissingKey(s, k)
  }

  /** The first item of `items` that is not present. */
  function FirstAbsent(cfg: Ini, items: seq<Item>): (r: Option<nat>)
    ensures r.None? <==> forall j :: 0 <= j < |items| ==> Present(cfg, items[j])
    ensures r.Some? ==> r.value < |items| && !Present(cfg, items[r.value])
    ensures r.Some? ==> forall j :: 0 <= j < r.value ==> Present(cfg, items[j])
  {
    if items == [] then None
    else if !Present(cfg, items[0]) then Some(0)
    else match FirstAbsent(cfg, items[1..])
      case None => None
      case Some(k) => Some(k + 1)
  }

  /** The first missing item of `req` in visiting order, as the error it stops with. */
  function FirstMissing(cfg: Ini, req: seq<(string, seq<string>)>): Option<ConfigError> {
    var items := Items(req);
    match FirstAbsent(cfg, items)
    case None => None
    case Some(k) => Some(ErrorOf(items[k]))
  }

  /** What `get_config` does with a parsed file: stop at the first missing item in
      visiting order, or hand the configuration over. */
  function Check(fileExists: bool, cfg: Ini): Loaded {
    if !fileExists then Fatal(FileMissing)
    else
      match FirstMissing(cfg, Required)
      case None => Loaded(cfg)
      case Some(e) => Fatal(e)
  }

  /** `get_config`. */
  method GetConfig(fileExists: bool, cfg: Ini) returns (r: Loaded)
    ensures r == Check(fileExists, cfg)
  {
    if !fileExists {
      return Fatal(FileMissing);
    }
    var missing := CheckRequired(cfg, Required);
    if missing.Some? {
      return Fatal(missing.value);
    }
    return Loaded(cfg);
  }

  /** The nested loops of `get_config` over the required sections and their keys, with an
      early exit at the first missing one. */
  method CheckRequired(cfg: Ini, req: seq<(string, seq<string>)>) returns (missing: Option<ConfigError>)
    ensures missing == FirstMissing(cfg, req)
  {
    ghost var items := Items(req);
    for s := 0 to |req|
      invariant |Items(req[..s])| <= |items|
      invariant forall j :: 0 <= j < |Items(req[..s])| ==> Present(cfg, items[j])
    {
      var section := req[s].0;
      var keys := req[s].1;
      ghost var p := |Items(req[..s])|;
      ItemsAt(req, s);
      if !HasSection(cfg, section) {
        FirstAbsentIs(cfg, items, p);
        return Some(MissingSection(section));
      }
      missing := CheckKeys(cfg, section, keys, items, p);
      if missing.Some? {
        return;
      }
    }
    assert req[..|req|] == req;
    return None;
  }

  /** The inner loop of `get_config` over the keys of one present section, whose items
      sit in `items` from `p + 1` on: the first missing key, if any. */
  method CheckKeys(cfg: Ini, section: string, keys: seq<string>, ghost items: seq<Item>, ghost p: nat)
    returns (missing: Option<ConfigError>)
    requires p + 1 + |keys| <= |items|
    requires forall j :: 0 <= j < p + 1 ==> Present(cfg, items[j])
    requires forall k :: 0 <= k < |keys| ==> items[p + 1 + k] == KeyItem(section, keys[k])
    ensures missing.None? ==> forall j :: 0 <= j < p + 1 + |keys| ==> Present(cfg, items[j])
    ensures missing.Some? ==> FirstAbsent(cfg, items).Some? && missing == Some(ErrorOf(items[FirstAbsent(cfg, items).value]))
  {
    for k := 0 to |keys|
      invariant forall j :: 0 <= j < p + 1 + k ==> Present(cfg, items[j])
    {
      if !HasOption(cfg, section, keys[k]) {
        FirstAbsentIs(cfg, items, p + 1 + k);
        return Some(MissingKey(section, keys[k]));
      }
    }
    return None;
  }

  /** The visiting order around section `s`: the items before it, its own, the rest. */
  lemma ItemsAround(req: seq<(string, seq<string>)>, s: nat)
    requires s < |req|
    ensures Items(req) == Items(req[..s]) + [SectionItem(req[s].0)] + KeyItems(req[s].0, req[s].1) + Items(req[s + 1..])
    ensures |Items(req[..s + 1])| == |Items(req[..s])| + 1 + |req[s].1|
  {
    ItemsSplit(req, s);
    ItemsAppend(req[..s], req[s]);
    assert req[..s + 1] == req[..s] + [req[s]];
  }

  /** Where the items of section `s` sit in the visiting order. */
  lemma ItemsAt(req: seq<(string, seq<string>)>, s: nat)
    requires s < |req|
    ensures var p := |Items(req[..s])|;
      && |Items(req[..s + 1])| == p + 1 + |req[s].1| <= |Items(req)|
      && Items(req)[p] == SectionItem(req[s].0)
      && (forall k :: 0 <= k < |req[s].1| ==> Items(req)[p + 1 + k] == KeyItem(req[s].0, req[s].1[k]))
      && Items(req)[..p] == Items(req[..s])
  {
    ItemsAround(req, s);
    var before, keys := Items(req[..s]), KeyItems(req[s].0, req[s].1);
    var all := before + [SectionItem(req[s].0)] + keys + Items(req[s + 1..]);
    assert all[..|before|] == before;
    forall k | 0 <= k < |keys| ensures all[|before| + 1 + k] == keys[k] { }
  }

  lemma {:induction false} ItemsAppend(a: seq<(string, seq<string>)>, x: (string, seq<string>))
    ensures Items(a + [x]) == Items(a) + [SectionItem(x.0)] + KeyItems(x.0, x.1)
    decreases |a|
  {
    if a == [] {
      assert [x][1..] == [];
    } else {
      assert (a + [x])[1..] == a[1..] + [x];
      ItemsAppend(a[1..], x);
    }
  }

  lemma {:induction false} ItemsSplit(req: seq<(string, seq<string>)>, s: nat)
    requires s < |req|
    ensures Items(req) == Items(req[..s]) + [SectionItem(req[s].0)] + KeyItems(req[s].0, req[s].1) + Items(req[s + 1..])
    decreases s
  {
    if s > 0 {
      ItemsSplit(req[1..], s - 1);
      assert req[1..][..s - 1] == req[..s][1..];
      assert req[1..][s - 1] == req[s];
      assert req[1..][s..] == req[s + 1..];
    } else {
      assert req[..0] == [];
      assert req[1..] == req[s + 1..];
    }
  }

  /** An absent item with every earlier item present is the first absent one. */
  lemma {:induction false} FirstAbsentIs(cfg: Ini, items: seq<Item>, p: nat)
    requires p < |items| && !Present(cfg, items[p])
    requires forall j :: 0 <= j < p ==> Present(cfg, items[j])
    ensures FirstAbsent(cfg, items) == Some(p)
    decreases p
  {
    if p > 0 {
      FirstAbsentIs(cfg, items[1..], p - 1);
    }
  }

  // ----- properties of the check -----

  /** Every listed section exists and holds (or inherits) every one of its keys. */
  predicate AllPresent(cfg: Ini, req: seq<(string, seq<string>)>) {
    && (forall i :: 0 <= i < |req| ==> HasSection(cfg, req[i].0))
    && (forall i, j :: 0 <= i < |req| && 0 <= j < |req[i].1| ==> HasOption(cfg, req[i].0, req[i].1[j]))
  }

  predicate AllItemsPresent(cfg: Ini, items: seq<Item>) {
    forall j :: 0 <= j < |items| ==> Present(cfg, items[j])
  }

  lemma AllItemsPresentAppend(cfg: Ini, a: seq<Item>, b: seq<Item>)
    ensures AllItemsPresent(cfg, a + b) <==> AllItemsPresent(cfg, a) && AllItemsPresent(cfg, b)
  {
    if AllItemsPresent(cfg, a + b) {
      forall j | 0 <= j < |a| ensures Present(cfg, a[j]) {
        assert (a + b)[j] == a[j];
      }
      forall j | 0 <= j < |b| ensures Present(cfg, b[j]) {
        assert (a + b)[|a| + j] == b[j];
      }
    }
  }

  lemma AllPresentCons(cfg: Ini, req: seq<(string, seq<string>)>)
    requires req != []
    ensures AllPresent(cfg, req) <==>
      && HasSection(cfg, req[0].0)
      && (forall j :: 0 <= j < |req[0].1| ==> HasOption(cfg, req[0].0, req[0].1[j]))
      && AllPresent(cfg, req[1..])
  {
    var tail := req[1..];
    assert forall i :: 0 <= i < |tail| ==> tail[i] == req[i + 1];
    if AllPresent(cfg, tail) && HasSection(cfg, req[0].0)
       && (forall j :: 0 <= j < |req[0].1| ==> HasOption(cfg, req[0].0, req[0].1[j])) {
      forall i | 0 < i < |req| ensures HasSection(cfg, req[i].0) {
        assert tail[i - 1] == req[i];
      }
      forall i, j | 0 < i < |req| && 0 <= j < |req[i].1| ensures HasOption(cfg, req[i].0, req[i].1[j]) {
        assert tail[i - 1] == req[i];
      }
    }
  }

  /** Nothing is missing exactly when every required section and key is present. */
  lemma {:induction false} NothingMissingIff(cfg: Ini, req: seq<(string, seq<string>)>)
    ensures FirstMissing(cfg, req).None? <==> AllPresent(cfg, req)
    decreases |req|
  {
    if req != [] {
      NothingMissingIff(cfg, req[1..]);
      var keys := KeyItems(req[0].0, req[0].1);
      AllItemsPresentAppend(cfg, [SectionItem(req[0].0)] + keys, Items(req[1..]));
      AllItemsPresentAppend(cfg, [SectionItem(req[0].0)], keys);
      AllPresentCons(cfg, req);
      assert AllItemsPresent(cfg, keys) <==> forall j :: 0 <= j < |req[0].1| ==> HasOption(cfg, req[0].0, req[0].1[j]);
    }
  }

  /** The configuration is handed over exactly when the file exists and every required
      (section, key) pair is present. */
  lemma AcceptedIff(fileExists: bool, cfg: Ini)
    ensures Check(fileExists, cfg).Loaded? <==> fileExists && AllPresent(cfg, Required)
    ensures Check(fileExists, cfg).Loaded? ==> Check(fileExists, cfg).cfg == cfg
  {
    NothingMissingIff(cfg, Required);
  }

  /** A missing file is reported before the contents are looked at. */
  lemma MissingFileFirst(cfg: Ini)
    ensures Check(false, cfg) == Fatal(FileMissing)
  {
  }

  /** The reported error names the first item, in visiting order, that is absent: every
      item visited before it is present. */
  lemma ReportsFirstAbsent(cfg: Ini, e: ConfigError)
    requires Check(true, cfg) == Fatal(e)
    ensures exists p ::
      && 0 <= p < |Items(Required)|
      && !Present(cfg, Items(Required)[p]) && ErrorOf(Items(Required)[p]) == e
      && (forall j :: 0 <= j < p ==> Present(cfg, Items(Required)[j]))
  {
    var p := FirstAbsent(cfg, Items(Required)).value;
    assert !Present(cfg, Items(Required)[p]);
  }
}
