/** Fetching the raw bonus records with a credential (api_client.py). */
module ApiClient {
  import opened Wrappers
  import opened PyJson
  import opened Models
  import opened Http

  /** The sync form posted to the credential's endpoint. */
  function FetchForm(a: AuthData): map<string, string> {
    map["module" := "/users/syncData", "merchantId" := a.merchantId, "domainId" := "0",
        "accessId" := a.accessId, "accessToken" := a.token, "walletIsAdmin" := ""]
  }

  /** A value taken as a list of records: a list is itself, anything else is empty. */
  function ListOr(v: Json): seq<Json> {
    if v.JList? then v.items else []
  }

  /** What `get_bonuses` makes of the reply.  Every failure, including a reply that is
      not an object or whose `data` is not an object, is caught and gives None.  A
      successful reply gives its `bonus` list followed by its `promotions` list, where a
      missing or non-list entry counts as empty. */
  function FetchReply(reply: Transport<Json>): Option<seq<Json>> {
    match reply
    case Failed(_) => None
    case Reply(res) =>
      if !res.JObj? || Get(res.fields, "status", JNull) != JStr("SUCCESS") then None
      else
        var data := Get(res.fields, "data", JObj(map[]));
        if !data.JObj? then None
        else Some(ListOr(Get(data.fields, "bonus", JList([]))) + ListOr(Get(data.fields, "promotions", JList([]))))
  }

  /** `get_bonuses`: one post of the sync form to the credential's endpoint. */
  function GetBonuses(a: AuthData, net: Net): (r: Traced<Option<seq<Json>>>)
    ensures r.effects == [PostForm(a.apiUrl, FetchForm(a))]
  {
    var form := FetchForm(a);
    Traced(FetchReply(net.post(a.apiUrl, form)), [PostForm(a.apiUrl, form)])
  }

  /** The form carries exactly the six fields, with the credential's id, access id and
      token. */
  lemma FetchFormFields(a: AuthData)
    ensures var f := FetchForm(a);
      && f.Keys == {"module", "merchantId", "domainId", "accessId", "accessToken", "walletIsAdmin"}
      && f["module"] == "/users/syncData" && f["domainId"] == "0" && f["walletIsAdmin"] == ""
      && f["merchantId"] == a.merchantId && f["accessId"] == a.accessId && f["accessToken"] == a.token
  {
  }

  /** The fetch never escapes, and yields records exactly when the reply is a successful
      object whose `data` is an object. */
  lemma FetchSucceedsIff(reply: Transport<Json>)
    ensures FetchReply(reply).Some? <==>
      && reply.Reply? && reply.body.JObj?
      && Get(reply.body.fields, "status", JNull) == JStr("SUCCESS")
      && Get(reply.body.fields, "data", JObj(map[])).JObj?
  {
  }

  /** The records are the bonus list and then the promotions list, each kept whole and in
      order; a list-less reply gives none. */
  lemma FetchRecordsAreBoth(reply: Transport<Json>)
    requires FetchReply(reply).Some?
    ensures var data := Get(reply.body.fields, "data", JObj(map[])).fields;
      var bonus := ListOr(Get(data, "bonus", JList([])));
      var promos := ListOr(Get(data, "promotions", JList([])));
      && |FetchReply(reply).value| == |bonus| + |promos|
      && FetchReply(reply).value[..|bonus|] == bonus
      && FetchReply(reply).value[|bonus|..] == promos
      && ("bonus" !in data && "promotions" !in data ==> FetchReply(reply).value == [])
  {
  }
}
