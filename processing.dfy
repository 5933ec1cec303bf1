/** The bonus normaliser (src/proc/processing.py): raw JSON records to `Bonus` rows, and the
    claim-configuration tag decoder. */
module Processing {
  import opened Wrappers
  import opened Text
  import opened PyJson
  import opened Models

  /** `_parse_float`: `None`, and anything `float()` rejects, become 0.0. */
  function ParseFloat(v: Json, py: Py): (r: real)
    ensures v == JNull ==> r == 0.0
    ensures FloatOf(v, py) == None ==> r == 0.0
    ensures FloatOf(v, py) == Some(r) || r == 0.0
    ensures FloatOf(v, py).Some? ==> r == FloatOf(v, py).value
  {
    if v == JNull then 0.0 else FloatOf(v, py).GetOr(0.0)
  }

  /** `str(data.get(key, ""))`: the empty string when the key is absent. */
  function StrField(data: map<string, Json>, key: string, py: Py): (r: string)
    ensures key !in data ==> r == ""
    ensures key in data ==> r == Str(data[key], py)
    ensures key in data && data[key].JStr? ==> r == data[key].s
  {
    Str(Get(data, key, JStr("")), py)
  }

  /** `_parse_float(data.get(key))`: 0.0 when the key is absent. */
  function NumField(data: map<string, Json>, key: string, py: Py): (r: real)
    ensures key !in data ==> r == 0.0
    ensures key in data ==> r == ParseFloat(data[key], py)
  {
    ParseFloat(Get(data, key, JNull), py)
  }

  /** `_create_and_map_bonus`: a fresh row filled from one record. */
  function CreateAndMapBonus(data: map<string, Json>, url: string, merchantName: string, py: Py): Bonus
  {
    var fixed := NumField(data, "bonusFixed", py);
    var minWithdraw := NumField(data, "minWithdraw", py);
    Bonus(
      url := url,
      merchantName := merchantName,
      id := StrField(data, "id", py),
      name := StrField(data, "name", py),
      amount := NumField(data, "amount", py),
      rollover := NumField(data, "rollover", py),
      bonusFixed := fixed,
      minWithdraw := minWithdraw,
      maxWithdraw := NumField(data, "maxWithdraw", py),
      withdrawToBonusRatio := if fixed != 0.0 then Some(minWithdraw / fixed) else None,
      minTopup := NumField(data, "minTopup", py),
      maxTopup := NumField(data, "maxTopup", py),
      transactionType := StrField(data, "transactionType", py),
      balance := StrField(data, "balance", py),
      bonus := StrField(data, "bonus", py),
      bonusRandom := StrField(data, "bonusRandom", py),
      reset := StrField(data, "reset", py),
      referLink := StrField(data, "referLink", py),
      isAutoClaim := None,
      isVipOnly := None,
      hasLossRequirement := None,
      hasTopupRequirement := None,
      lossReqPercent := None,
      lossReqAmount := None,
      topupReqAmount := None,
      claimType := None,
      rawClaimConfig := Get(data, "claimConfig", JStr("")),
      rawClaimCondition := Get(data, "claimCondition", JStr("")))
  }

  /** Each column of a fresh row is read from its key of the record, an absent key
      giving the empty string or 0.0; the ratio is set exactly when the fixed bonus is
      non-zero, and is then the exact real quotient (floats are reals here); nothing about claims is decided here: the flags, the requirement values
      and the claim type stay unset. */
  lemma CreateAndMapBonusFields(data: map<string, Json>, url: string, merchantName: string, py: Py)
    ensures var b := CreateAndMapBonus(data, url, merchantName, py);
      && b.url == url && b.merchantName == merchantName
      && b.id == StrField(data, "id", py) && b.name == StrField(data, "name", py)
      && b.amount == NumField(data, "amount", py) && b.rollover == NumField(data, "rollover", py)
      && b.bonusFixed == NumField(data, "bonusFixed", py)
      && b.minWithdraw == NumField(data, "minWithdraw", py)
      && b.maxWithdraw == NumField(data, "maxWithdraw", py)
      && b.minTopup == NumField(data, "minTopup", py) && b.maxTopup == NumField(data, "maxTopup", py)
      && (b.withdrawToBonusRatio.Some? <==> b.bonusFixed != 0.0)
      && (b.withdrawToBonusRatio.Some? ==> b.withdrawToBonusRatio.value * b.bonusFixed == b.minWithdraw)
      && b.transactionType == StrField(data, "transactionType", py)
      && b.balance == StrField(data, "balance", py) && b.bonus == StrField(data, "bonus", py)
      && b.bonusRandom == StrField(data, "bonusRandom", py) && b.reset == StrField(data, "reset", py)
      && b.referLink == StrField(data, "referLink", py)
      && b.rawClaimConfig == (if "claimConfig" in data then data["claimConfig"] else JStr(""))
      && b.rawClaimCondition == (if "claimCondition" in data then data["claimCondition"] else JStr(""))
      && Unclaimed(b)
  {
  }

  /** No claim field has been assigned yet. */
  predicate Unclaimed(b: Bonus) {
    && b.isAutoClaim == None && b.isVipOnly == None
    && b.hasLossRequirement == None && b.hasTopupRequirement == None
    && b.lossReqPercent == None && b.lossReqAmount == None && b.topupReqAmount == None
    && b.claimType == None
  }

  /** The claim type one upper-cased tag selects on its own: its keywords are tested in
      the order DEPOSIT, RESCUE, REBATE and each overwrites the last, so the strongest
      present keyword is REBATE, then RESCUE, then DEPOSIT. */
  function ClaimKind(upper: string): Option<string> {
    if Contains(upper, "REBATE") then Some("REBATE")
    else if Contains(upper, "RESCUE") then Some("RESCUE")
    else if Contains(upper, "DEPOSIT") then Some("DEPOSIT")
    else None
  }

  /** The claim type after one tag, from the type before it: DEPOSIT, RESCUE and REBATE
      are tested in that order and each match overwrites the previous value. */
  function TagClaimType(upper: string, before: Option<string>): Option<string> {
    var afterDeposit := if Contains(upper, "DEPOSIT") then Some("DEPOSIT") else before;
    var afterRescue := if Contains(upper, "RESCUE") then Some("RESCUE") else afterDeposit;
    if Contains(upper, "REBATE") then Some("REBATE") else afterRescue
  }

  /** One pass of the tag loop of `_parse_claim_config`; tags that are not strings are
      skipped.  The keyword tests look at the upper-cased tag; the requirement values are
      taken from the last `_`-separated segment of the tag as written. */
  function ApplyTag(b: Bonus, item: Json, py: Py): Bonus {
    match item
    case JStr(tag) =>
      var u := Upper(tag);
      TagRequirements(TagFlags(b, u), tag, u, py)
    case _ => b
  }

  /** The flag and claim-type tests of one tag, on its upper-cased text `u`. */
  function TagFlags(b: Bonus, u: string): Bonus {
    b.(isAutoClaim := if Contains(u, "AUTO_CLAIM") then Some(true) else b.isAutoClaim,
       isVipOnly := if Contains(u, "VIP") then Some(true) else b.isVipOnly,
       claimType := TagClaimType(u, b.claimType))
  }

  /** The loss and top-up tests of one tag: `u` is the upper-cased `tag`. */
  function TagRequirements(b: Bonus, tag: string, u: string, py: Py): Bonus {
    var parts := Split(tag, '_');
    var last := parts[|parts| - 1];
    var loss := Contains(u, "LOSS");
    var topup := Contains(u, "TOPUP");
    var segmented := |parts| > 1;
    b.(hasLossRequirement := if loss then Some(true) else b.hasLossRequirement,
       lossReqPercent :=
         if loss && segmented && '%' in last then Some(ParseFloat(JStr(RemoveChar(last, '%')), py))
         else b.lossReqPercent,
       lossReqAmount :=
         if loss && segmented && '%' !in last then Some(ParseFloat(JStr(RemoveChar(last, '%')), py))
         else b.lossReqAmount,
       hasTopupRequirement := if topup then Some(true) else b.hasTopupRequirement,
       topupReqAmount := if topup && segmented then Some(ParseFloat(JStr(last), py)) else b.topupReqAmount)
  }

  /** The tag loop over a whole list, in list order. */
  function ApplyTags(b: Bonus, tags: seq<Json>, py: Py): Bonus
    decreases |tags|
  {
    if tags == [] then b
    else ApplyTag(ApplyTags(b, tags[..|tags| - 1], py), tags[|tags| - 1], py)
  }

  /** What `_parse_claim_config` makes of a row: the row itself unless its raw claim
      config is a string that starts with `[` and decodes to a JSON list. */
  function DecodeClaims(b: Bonus, py: Py): Bonus {
    match b.rawClaimConfig
    case JStr(s) =>
      if !StartsWith(s, "[") then b
      else (
        match py.loads(s)
        case Some(JList(tags)) => ApplyTags(b, tags, py)
        case _ => b)
    case _ => b
  }

  /** The first statements of the loop body of `_parse_claim_config`: the flags and the
      claim type, each keyword test overwriting the field it names. */
  method ReadFlags(r: Bonus, upper: string) returns (next: Bonus)
    ensures next == TagFlags(r, upper)
  {
    next := r;
    if Contains(upper, "AUTO_CLAIM") { next := next.(isAutoClaim := Some(true)); }
    if Contains(upper, "VIP") { next := next.(isVipOnly := Some(true)); }
    if Contains(upper, "DEPOSIT") { next := next.(claimType := Some("DEPOSIT")); }
    if Contains(upper, "RESCUE") { next := next.(claimType := Some("RESCUE")); }
    if Contains(upper, "REBATE") { next := next.(claimType := Some("REBATE")); }
  }

  /** The rest of the loop body: the loss and top-up requirements. */
  method ReadRequirements(r: Bonus, item: string, upper: string, py: Py) returns (next: Bonus)
    ensures next == TagRequirements(r, item, upper, py)
  {
    next := r;
    if Contains(upper, "LOSS") {
      next := next.(hasLossRequirement := Some(true));
      var parts := Split(item, '_');
      if |parts| > 1 {
        var valStr := RemoveChar(parts[|parts| - 1], '%');
        if '%' in parts[|parts| - 1] {
          next := next.(lossReqPercent := Some(ParseFloat(JStr(valStr), py)));
        } else {
          next := next.(lossReqAmount := Some(ParseFloat(JStr(valStr), py)));
        }
      }
    }
    if Contains(upper, "TOPUP") {
      next := next.(hasTopupRequirement := Some(true));
      var parts := Split(item, '_');
      if |parts| > 1 {
        next := next.(topupReqAmount := Some(ParseFloat(JStr(parts[|parts| - 1]), py)));
      }
    }
  }

  /** `_parse_claim_config`, the loop that sets the claim fields tag by tag. */
  method ParseClaimConfig(b: Bonus, py: Py) returns (r: Bonus)
    ensures r == DecodeClaims(b, py)
  {
    r := b;
    if !b.rawClaimConfig.JStr? || !StartsWith(b.rawClaimConfig.s, "[") {
      return;
    }
    var decoded := py.loads(b.rawClaimConfig.s);
    if decoded.None? {
      // JSONDecodeError: logged and ignored
      return;
    }
    if !decoded.value.JList? {
      return;
    }
    var tags := decoded.value.items;
    for i := 0 to |tags|
      invariant r == ApplyTags(b, tags[..i], py)
    {
      assert tags[..i + 1][..i] == tags[..i];
      if tags[i].JStr? {
        var item := tags[i].s;
        var upper := Upper(item);
        r := ReadFlags(r, upper);
        r := ReadRequirements(r, item, upper, py);
      }
    }
    assert tags[..|tags|] == tags;
  }

  /** One record through `_create_and_map_bonus` and `_parse_claim_config`. */
  function NormalizeOne(data: map<string, Json>, url: string, merchantName: string, py: Py): Bonus {
    DecodeClaims(CreateAndMapBonus(data, url, merchantName, py), py)
  }

  /** What `process_bonuses` returns for a list of records. */
  function Normalize(records: seq<Json>, url: string, merchantName: string, py: Py): seq<Bonus>
    decreases |records|
  {
    if records == [] then []
    else
      var front := Normalize(records[..|records| - 1], url, merchantName, py);
      match records[|records| - 1]
      case JObj(data) => front + [NormalizeOne(data, url, merchantName, py)]
      case _ => front
  }

  /** `process_bonuses`: the loop that appends one row per dict record. */
  method ProcessBonuses(records: seq<Json>, url: string, merchantName: string, py: Py)
    returns (processed: seq<Bonus>)
    ensures processed == Normalize(records, url, merchantName, py)
  {
    processed := [];
    for i := 0 to |records|
      invariant processed == Normalize(records[..i], url, merchantName, py)
    {
      assert records[..i + 1][..i] == records[..i];
      if !records[i].JObj? {
        continue;
      }
      var row := CreateAndMapBonus(records[i].fields, url, merchantName, py);
      var full := ParseClaimConfig(row, py);
      processed := processed + [full];
    }
    assert records[..|records|] == records;
  }

  // ----- properties of the normaliser -----

  /** The dict entries of a record list, in their original order. */
  function Objects(records: seq<Json>): seq<map<string, Json>>
    decreases |records|
  {
    if records == [] then []
    else
      var front := Objects(records[..|records| - 1]);
      match records[|records| - 1]
      case JObj(data) => front + [data]
      case _ => front
  }

  /** Normalising drops every entry that is not a dict and maps each dict, in order, to
      exactly one row. */
  lemma {:induction false} NormalizeIsMapOverObjects(records: seq<Json>, url: string, merchantName: string, py: Py)
    ensures |Normalize(records, url, merchantName, py)| == |Objects(records)|
    ensures forall k :: 0 <= k < |Objects(records)| ==>
      Normalize(records, url, merchantName, py)[k] == NormalizeOne(Objects(records)[k], url, merchantName, py)
    decreases |records|
  {
    if records != [] {
      NormalizeIsMapOverObjects(records[..|records| - 1], url, merchantName, py);
    }
  }

  /** Normalising a concatenation normalises each part. */
  lemma {:induction false} NormalizeAppend(xs: seq<Json>, ys: seq<Json>, url: string, merchantName: string, py: Py)
    ensures Normalize(xs + ys, url, merchantName, py) == Normalize(xs, url, merchantName, py) + Normalize(ys, url, merchantName, py)
    decreases |ys|
  {
    if ys == [] {
      assert xs + ys == xs;
    } else {
      var ys' := ys[..|ys| - 1];
      assert (xs + ys)[..|xs + ys| - 1] == xs + ys';
      assert (xs + ys)[|xs + ys| - 1] == ys[|ys| - 1];
      NormalizeAppend(xs, ys', url, merchantName, py);
    }
  }

  /** Every row keeps the url and merchant name it was given. */
  lemma {:induction false} NormalizeKeepsSource(records: seq<Json>, url: string, merchantName: string, py: Py)
    ensures forall b :: b in Normalize(records, url, merchantName, py) ==> b.url == url && b.merchantName == merchantName
    decreases |records|
  {
    if records != [] {
      NormalizeKeepsSource(records[..|records| - 1], url, merchantName, py);
      var last := records[|records| - 1];
      if last.JObj? {
        var b0 := CreateAndMapBonus(last.fields, url, merchantName, py);
        CreateAndMapBonusFields(last.fields, url, merchantName, py);
        SameRecordAfterTags(b0, py);
      }
    }
  }

  /** Only the claim fields may differ between two rows. */
  predicate SameRecord(a: Bonus, b: Bonus) {
    && a.url == b.url && a.merchantName == b.merchantName && a.id == b.id && a.name == b.name
    && a.amount == b.amount && a.rollover == b.rollover && a.bonusFixed == b.bonusFixed
    && a.minWithdraw == b.minWithdraw && a.maxWithdraw == b.maxWithdraw
    && a.withdrawToBonusRatio == b.withdrawToBonusRatio && a.minTopup == b.minTopup && a.maxTopup == b.maxTopup
    && a.transactionType == b.transactionType && a.balance == b.balance && a.bonus == b.bonus
    && a.bonusRandom == b.bonusRandom && a.reset == b.reset && a.referLink == b.referLink
    && a.rawClaimConfig == b.rawClaimConfig && a.rawClaimCondition == b.rawClaimCondition
  }

  /** Each flag of `b` is the one of `a`, or has become true. */
  predicate FlagsOnlyRise(a: Bonus, b: Bonus) {
    && (b.isAutoClaim == a.isAutoClaim || b.isAutoClaim == Some(true))
    && (b.isVipOnly == a.isVipOnly || b.isVipOnly == Some(true))
    && (b.hasLossRequirement == a.hasLossRequirement || b.hasLossRequirement == Some(true))
    && (b.hasTopupRequirement == a.hasTopupRequirement || b.hasTopupRequirement == Some(true))
  }

  /** The tag loop touches only the claim fields, and flags only ever become True: a flag
      that is set stays set. */
  lemma {:induction false} DecodingOnlyRaisesFlags(b: Bonus, tags: seq<Json>, py: Py)
    ensures SameRecord(b, ApplyTags(b, tags, py))
    ensures FlagsOnlyRise(b, ApplyTags(b, tags, py))
    decreases |tags|
  {
    if tags != [] {
      DecodingOnlyRaisesFlags(b, tags[..|tags| - 1], py);
    }
  }

  lemma SameRecordAfterTags(b: Bonus, py: Py)
    ensures SameRecord(b, DecodeClaims(b, py)) && FlagsOnlyRise(b, DecodeClaims(b, py))
  {
    if b.rawClaimConfig.JStr? && StartsWith(b.rawClaimConfig.s, "[") {
      var d := py.loads(b.rawClaimConfig.s);
      if d.Some? && d.value.JList? {
        DecodingOnlyRaisesFlags(b, d.value.items, py);
      }
    }
  }

  /** A raw claim config that is not a string, does not start with `[`, is not valid
      JSON, or is JSON but not a list leaves the row exactly as it was. */
  lemma MalformedConfigLeavesRow(b: Bonus, py: Py)
    requires || !b.rawClaimConfig.JStr?
             || !StartsWith(b.rawClaimConfig.s, "[")
             || py.loads(b.rawClaimConfig.s).None?
             || !py.loads(b.rawClaimConfig.s).value.JList?
    ensures DecodeClaims(b, py) == b
  {
  }

  /** Non-string tags are skipped. */
  lemma NonStringTagSkipped(b: Bonus, item: Json, py: Py)
    requires !item.JStr?
    ensures ApplyTag(b, item, py) == b
  {
  }

  /** The last tag that names a claim type, read from the end of the list backwards. */
  function LastClaimKind(tags: seq<Json>): Option<string>
    decreases |tags|
  {
    if tags == [] then None
    else
      var last := tags[|tags| - 1];
      if last.JStr? && ClaimKind(Upper(last.s)).Some? then ClaimKind(Upper(last.s))
      else LastClaimKind(tags[..|tags| - 1])
  }

  /** `claim_type` is last-write-wins: the kind chosen by the last tag that names one
      (REBATE over RESCUE over DEPOSIT within that tag), or the old value if no tag does. */
  lemma {:induction false} ClaimTypeLastWins(b: Bonus, tags: seq<Json>, py: Py)
    ensures ApplyTags(b, tags, py).claimType == (if LastClaimKind(tags).Some? then LastClaimKind(tags) else b.claimType)
    decreases |tags|
  {
    if tags != [] {
      ClaimTypeLastWins(b, tags[..|tags| - 1], py);
    }
  }

  /** Keyword tests are made on the upper-cased tag: two tags that agree once upper-cased
      set the same flags and the same claim type. */
  lemma KeywordsIgnoreCase(b: Bonus, t1: string, t2: string, py: Py)
    requires Upper(t1) == Upper(t2)
    ensures var r1, r2 := ApplyTag(b, JStr(t1), py), ApplyTag(b, JStr(t2), py);
      && r1.isAutoClaim == r2.isAutoClaim && r1.isVipOnly == r2.isVipOnly
      && r1.hasLossRequirement == r2.hasLossRequirement && r1.hasTopupRequirement == r2.hasTopupRequirement
      && r1.claimType == r2.claimType
  {
  }

  /** The LOSS rule: a LOSS tag sets the flag; with an `_`, its last segment becomes the
      percentage (`%` removed) when it holds a `%` and the amount otherwise; without an
      `_` only the flag is set.  A tag without LOSS leaves all three alone. */
  lemma LossRule(b: Bonus, tag: string, py: Py)
    ensures var r := ApplyTag(b, JStr(tag), py);
      var last := LastPart(tag, '_');
      && (Contains(Upper(tag), "LOSS") ==> r.hasLossRequirement == Some(true))
      && (!Contains(Upper(tag), "LOSS") ==>
            r.hasLossRequirement == b.hasLossRequirement && r.lossReqPercent == b.lossReqPercent && r.lossReqAmount == b.lossReqAmount)
      && (Contains(Upper(tag), "LOSS") && '_' !in tag ==>
            r.lossReqPercent == b.lossReqPercent && r.lossReqAmount == b.lossReqAmount)
      && (Contains(Upper(tag), "LOSS") && '_' in tag && '%' in last ==>
            r.lossReqPercent == Some(ParseFloat(JStr(RemoveChar(last, '%')), py)) && r.lossReqAmount == b.lossReqAmount)
      && (Contains(Upper(tag), "LOSS") && '_' in tag && '%' !in last ==>
            r.lossReqAmount == Some(ParseFloat(JStr(last), py)) && r.lossReqPercent == b.lossReqPercent)
  {
    SplitHasManyParts(tag, '_');
  }

  /** The TOPUP rule: a TOPUP tag sets the flag, and with an `_` its last segment becomes
      the top-up amount. */
  lemma TopupRule(b: Bonus, tag: string, py: Py)
    ensures var r := ApplyTag(b, JStr(tag), py);
      && (Contains(Upper(tag), "TOPUP") ==> r.hasTopupRequirement == Some(true))
      && (!Contains(Upper(tag), "TOPUP") ==> r.hasTopupRequirement == b.hasTopupRequirement && r.topupReqAmount == b.topupReqAmount)
      && (Contains(Upper(tag), "TOPUP") && '_' !in tag ==> r.topupReqAmount == b.topupReqAmount)
      && (Contains(Upper(tag), "TOPUP") && '_' in tag ==> r.topupReqAmount == Some(ParseFloat(JStr(LastPart(tag, '_')), py)))
  {
    SplitHasManyParts(tag, '_');
  }

  // ----- worked examples: the tags of a typical claim configuration -----

  lemma TopupFacts(t: string)
    requires t == "TOPUP_500"
    ensures Upper(t) == t && Contains(t, "TOPUP")
  {
    UpperFixed(t);
    assert Contains(t, "TOPUP");
  }

  lemma TopupAbsent(t: string)
    requires t == "TOPUP_500"
    ensures !Contains(t, "AUTO_CLAIM") && !Contains(t, "VIP") && !Contains(t, "LOSS")
    ensures !Contains(t, "DEPOSIT") && !Contains(t, "RESCUE") && !Contains(t, "REBATE")
  {
    assert 'A' !in t && 'V' !in t && 'S' !in t && 'D' !in t && 'R' !in t;
    AbsentCharExcludes(t, "AUTO_CLAIM", 'A');
    AbsentCharExcludes(t, "VIP", 'V');
    AbsentCharExcludes(t, "LOSS", 'S');
    AbsentCharExcludes(t, "DEPOSIT", 'D');
    AbsentCharExcludes(t, "RESCUE", 'R');
    AbsentCharExcludes(t, "REBATE", 'R');
  }

  lemma TopupSplit(t: string)
    requires t == "TOPUP_500"
    ensures '_' in t && LastPart(t, '_') == "500"
  {
    SplitAtOnly(t, '_', 5);
    assert t[6..] == "500";
  }

  /** `TOPUP_500` sets the top-up flag and an amount of 500, and nothing else. */
  lemma ExampleTopup(b: Bonus, t: string, py: Py)
    requires t == "TOPUP_500" && py.floatOf("500") == Some(500.0)
    ensures ApplyTag(b, JStr(t), py) == b.(hasTopupRequirement := Some(true), topupReqAmount := Some(500.0))
  {
    TopupFacts(t);
    TopupAbsent(t);
    TopupSplit(t);
    TopupRule(b, t, py);
    LossRule(b, t, py);
  }

  lemma AutoFacts(t: string)
    requires t == "AUTO_CLAIM"
    ensures Upper(t) == t && Contains(t, "AUTO_CLAIM")
  {
    UpperFixed(t);
    ContainsSelf(t);
  }

  lemma AutoAbsent(t: string)
    requires t == "AUTO_CLAIM"
    ensures !Contains(t, "VIP") && !Contains(t, "LOSS") && !Contains(t, "TOPUP")
    ensures !Contains(t, "DEPOSIT") && !Contains(t, "RESCUE") && !Contains(t, "REBATE")
  {
    assert 'V' !in t && 'S' !in t && 'P' !in t && 'D' !in t && 'R' !in t;
    AbsentCharExcludes(t, "VIP", 'V');
    AbsentCharExcludes(t, "LOSS", 'S');
    AbsentCharExcludes(t, "TOPUP", 'P');
    AbsentCharExcludes(t, "DEPOSIT", 'D');
    AbsentCharExcludes(t, "RESCUE", 'R');
    AbsentCharExcludes(t, "REBATE", 'R');
  }

  lemma VipFacts(t: string)
    requires t == "VIP"
    ensures Upper(t) == t && Contains(t, "VIP")
  {
    UpperFixed(t);
    ContainsSelf(t);
  }

  lemma VipAbsent(t: string)
    requires t == "VIP"
    ensures !Contains(t, "AUTO_CLAIM") && !Contains(t, "LOSS") && !Contains(t, "TOPUP")
    ensures !Contains(t, "DEPOSIT") && !Contains(t, "RESCUE") && !Contains(t, "REBATE")
  {
    assert 'A' !in t && 'S' !in t && 'T' !in t && 'D' !in t && 'R' !in t;
    AbsentCharExcludes(t, "AUTO_CLAIM", 'A');
    AbsentCharExcludes(t, "LOSS", 'S');
    AbsentCharExcludes(t, "TOPUP", 'T');
    AbsentCharExcludes(t, "DEPOSIT", 'D');
    AbsentCharExcludes(t, "RESCUE", 'R');
    AbsentCharExcludes(t, "REBATE", 'R');
  }

  lemma LossFacts(t: string)
    requires t == "LOSS_20%"
    ensures Upper(t) == t && Contains(t, "LOSS")
  {
    UpperFixed(t);
    assert Contains(t, "LOSS");
  }

  lemma LossAbsent(t: string)
    requires t == "LOSS_20%"
    ensures !Contains(t, "AUTO_CLAIM") && !Contains(t, "VIP") && !Contains(t, "TOPUP")
    ensures !Contains(t, "DEPOSIT") && !Contains(t, "RESCUE") && !Contains(t, "REBATE")
  {
    assert 'A' !in t && 'V' !in t && 'T' !in t && 'D' !in t && 'R' !in t && 'B' !in t;
    AbsentCharExcludes(t, "AUTO_CLAIM", 'A');
    AbsentCharExcludes(t, "VIP", 'V');
    AbsentCharExcludes(t, "TOPUP", 'T');
    AbsentCharExcludes(t, "DEPOSIT", 'D');
    AbsentCharExcludes(t, "RESCUE", 'R');
    AbsentCharExcludes(t, "REBATE", 'B');
  }

  lemma LossSplit(t: string)
    requires t == "LOSS_20%"
    ensures '_' in t && LastPart(t, '_') == "20%" && RemoveChar("20%", '%') == "20"
  {
    SplitAtOnly(t, '_', 4);
    assert t[5..] == "20%";
    PercentDropped("20%");
  }

  lemma PercentDropped(v: string)
    requires v == "20%"
    ensures RemoveChar(v, '%') == "20"
  {
    var u, w := v[1..], v[2..];
    assert u == "0%" && w == "%" && u[1..] == w && w[1..] == [];
    assert RemoveChar(w, '%') == [] + RemoveChar([], '%') == [];
    assert RemoveChar(u, '%') == ['0'] + RemoveChar(w, '%') == "0";
    assert RemoveChar(v, '%') == ['2'] + RemoveChar(u, '%');
  }

  lemma StepAuto(b: Bonus, t: string, py: Py)
    requires t == "AUTO_CLAIM"
    ensures ApplyTag(b, JStr(t), py) == b.(isAutoClaim := Some(true))
  {
    AutoFacts(t);
    AutoAbsent(t);
    LossRule(b, t, py);
    TopupRule(b, t, py);
  }

  lemma StepVip(b: Bonus, t: string, py: Py)
    requires t == "VIP"
    ensures ApplyTag(b, JStr(t), py) == b.(isVipOnly := Some(true))
  {
    VipFacts(t);
    VipAbsent(t);
    LossRule(b, t, py);
    TopupRule(b, t, py);
  }

  lemma StepLoss(b: Bonus, t: string, py: Py)
    requires t == "LOSS_20%" && py.floatOf("20") == Some(20.0)
    ensures ApplyTag(b, JStr(t), py) == b.(hasLossRequirement := Some(true), lossReqPercent := Some(20.0))
  {
    LossFacts(t);
    LossAbsent(t);
    LossSplit(t);
    LossRule(b, t, py);
    TopupRule(b, t, py);
  }

  lemma ApplyThree(b: Bonus, x: Json, y: Json, z: Json, py: Py)
    ensures ApplyTags(b, [x, y, z], py) == ApplyTag(ApplyTag(ApplyTag(b, x, py), y, py), z, py)
  {
    var tags := [x, y, z];
    assert ApplyTags(b, [x], py) == ApplyTag(b, x, py) by { assert [x][..0] == []; }
    assert ApplyTags(b, [x, y], py) == ApplyTag(ApplyTag(b, x, py), y, py) by { assert [x, y][..1] == [x]; }
    assert tags[..2] == [x, y];
  }

  /** AUTO_CLAIM, VIP, LOSS_20%: both flags and the loss flag are set and 20 is recorded
      as a percentage; no amount, top-up or claim type is touched. */
  lemma ExampleAutoVipLoss(b: Bonus, t1: string, t2: string, t3: string, py: Py)
    requires t1 == "AUTO_CLAIM" && t2 == "VIP" && t3 == "LOSS_20%"
    requires py.floatOf("20") == Some(20.0)
    ensures ApplyTags(b, [JStr(t1), JStr(t2), JStr(t3)], py)
      == b.(isAutoClaim := Some(true), isVipOnly := Some(true), hasLossRequirement := Some(true), lossReqPercent := Some(20.0))
  {
    ApplyThree(b, JStr(t1), JStr(t2), JStr(t3), py);
    StepAuto(b, t1, py);
    var r1 := b.(isAutoClaim := Some(true));
    StepVip(r1, t2, py);
    var r2 := r1.(isVipOnly := Some(true));
    StepLoss(r2, t3, py);
  }
}
