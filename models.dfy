/** The two record shapes of the pipeline: the session credential and the bonus row. */
module Models {
  import opened Wrappers
  import opened PyJson

  /** The credential returned by a successful login; every field is a string. */
  datatype AuthData = AuthData(
    merchantId: string,
    merchantName: string,
    accessId: string,
    token: string,
    apiUrl: string)

  /** One normalised bonus as it is held in memory before storage.  A field that has
      never been assigned reads as Python's `None`: the four flags are therefore
      `Option<bool>` (they only ever become `Some(true)`), and the storage default
      `False` is applied by `StoredFlag`.  The two raw fields keep whatever JSON value
      the record carried. */
  datatype Bonus = Bonus(
    url: string,
    merchantName: string,
    id: string,
    name: string,
    amount: real,
    rollover: real,
    bonusFixed: real,
    minWithdraw: real,
    maxWithdraw: real,
    withdrawToBonusRatio: Option<real>,
    minTopup: real,
    maxTopup: real,
    transactionType: string,
    balance: string,
    bonus: string,
    bonusRandom: string,
    reset: string,
    referLink: string,
    isAutoClaim: Option<bool>,
    isVipOnly: Option<bool>,
    hasLossRequirement: Option<bool>,
    hasTopupRequirement: Option<bool>,
    lossReqPercent: Option<real>,
    lossReqAmount: Option<real>,
    topupReqAmount: Option<real>,
    claimType: Option<string>,
    rawClaimConfig: Json,
    rawClaimCondition: Json)

  /** The value a flag column receives when the row is stored: unset means False. */
  function StoredFlag(flag: Option<bool>): (stored: bool)
    ensures stored <==> flag == Some(true)
  {
    flag.GetOr(false)
  }
}
