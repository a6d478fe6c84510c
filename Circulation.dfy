/** Circulation: which delivery methods a patron may use (a two-step policy
    lookup), placing a request, and cancelling one by read-modify-write. */
module Circulation {
  import opened Wrappers
  import opened JsonValue
  import opened Gateway
  import opened Token

  // ---------------------------------------------------------------------------
  // request_options

  /** The symbols the client reports: `:hold`, `:l2l` and `:recall`. */
  datatype DeliveryMethod = Hold | L2L | Recall

  /** The backend label each delivery method stands for. */
  function Label(m: DeliveryMethod): string
  {
    match m
    case Hold => "Hold"
    case L2L => "Page"
    case Recall => "Recall"
  }

  /** `type_map[c]`: the fixed translation table; any other value maps to nil. */
  function TypeMap(c: Json): (r: Option<DeliveryMethod>)
    ensures r.Some? ==> c == JStr(Label(r.value))
    ensures r.None? ==> forall m :: c != JStr(Label(m))
  {
    match c
    case JStr(s) =>
      if s == "Hold" then Some(Hold)
      else if s == "Page" then Some(L2L)
      else if s == "Recall" then Some(Recall)
      else None
    case _ => None
  }

  /** `codes ? codes.map { |c| type_map[c] } : []`. A list is translated element
      by element; nil and false give no methods; a hash is enumerated as pairs,
      none of which is in the table; any other value has no `map`. */
  function Translate(codes: Json): (r: Reply<seq<Option<DeliveryMethod>>>)
    ensures !Truthy(codes) ==> r == Returned([])
    ensures codes.JArr? ==> r.Returned? && |r.value| == |codes.items|
    ensures codes.JArr? ==> forall i | 0 <= i < |codes.items| :: r.value[i] == TypeMap(codes.items[i])
    ensures codes.JObj? ==> r.Returned? && |r.value| == |codes.fields| && forall m | m in r.value :: m.None?
    ensures r.Raised? <==> codes.JStr? || codes.JNum? || codes == JBool(true)
  {
    match codes
    case JNull => Returned([])
    case JBool(b) => if b then Raised(NoMethodError) else Returned([])
    case JArr(items) => Returned(seq(|items|, i requires 0 <= i < |items| => TypeMap(items[i])))
    case JObj(fields) => Returned(seq(|fields|, _ => None))
    case _ => Raised(NoMethodError)
  }

  /** Translating the labels of some methods gives back those methods. */
  lemma {:induction false} TranslateLabelsRoundTrip(ms: seq<DeliveryMethod>)
    ensures Translate(JArr(seq(|ms|, i requires 0 <= i < |ms| => JStr(Label(ms[i]))))) ==
            Returned(seq(|ms|, i requires 0 <= i < |ms| => Some(ms[i])))
  {
    var labels := seq(|ms|, i requires 0 <= i < |ms| => JStr(Label(ms[i])));
    var expected := seq(|ms|, i requires 0 <= i < |ms| => Some(ms[i]));
    var r := Translate(JArr(labels));
    assert |r.value| == |expected|;
    forall i | 0 <= i < |ms| ensures r.value[i] == expected[i] {
      assert r.value[i] == TypeMap(labels[i]);
      match ms[i]
      case Hold =>
      case L2L =>
      case Recall =>
    }
    assert r.value == expected;
  }

  /** The three known labels, in any order, translate to all three methods. */
  lemma {:induction false} KnownLabelsGiveAllMethods(codes: seq<Json>)
    requires multiset(codes) == multiset{JStr("Hold"), JStr("Page"), JStr("Recall")}
    ensures Translate(JArr(codes)).Returned?
    ensures (set m | m in Translate(JArr(codes)).value) == {Some(Hold), Some(L2L), Some(Recall)}
  {
    var r := Translate(JArr(codes)).value;
    forall m | m in r ensures m in {Some(Hold), Some(L2L), Some(Recall)} {
      var i :| 0 <= i < |r| && r[i] == m;
      assert codes[i] in multiset(codes);
    }
    forall name | name in ["Hold", "Page", "Recall"]
      ensures TypeMap(JStr(name)) in r
    {
      assert JStr(name) in multiset(codes);
      var i :| 0 <= i < |codes| && codes[i] == JStr(name);
      assert r[i] == TypeMap(JStr(name));
    }
    assert TypeMap(JStr("Hold")) == Some(Hold);
    assert TypeMap(JStr("Page")) == Some(L2L);
    assert TypeMap(JStr("Recall")) == Some(Recall);
  }

  /** Attach a translation to a code and error, unless translating raised. */
  function WithMethods(methods: Reply<seq<Option<DeliveryMethod>>>, code: int, error: Option<ErrorValue>)
    : Reply<Result<seq<Option<DeliveryMethod>>>>
  {
    match methods
    case Returned(ms) => Returned(Result(ms, code, error))
    case Raised(e) => Raised(e)
  }

  /** `request_options`: look up the request policy for a patron group, material
      type, loan type and location (step 1), then the policy's request types
      (step 2). */
  function RequestOptions(gw: Transport, token: Option<string>,
                          patronGroupId: string, materialTypeId: string, loanTypeId: string, locationId: string)
    : (r: Run<Result<seq<Option<DeliveryMethod>>>>)
    ensures RaisedAuthError(r) <==> TokenMissing(token)
    ensures TokenMissing(token) ==> r.sent == []
    ensures !TokenMissing(token) ==>
      1 <= |r.sent| <= 2 && r.sent[0] == GetRequestPolicyRule(materialTypeId, loanTypeId, patronGroupId, locationId)
    // step 2 is issued exactly when step 1 answered normally, for the policy it named
    ensures |r.sent| == 2 <==> !TokenMissing(token) && gw(r.sent[0]).Ok?
    ensures |r.sent| == 2 ==> r.sent[1] == GetRequestPolicy(Get(gw(r.sent[0]).body, "requestPolicyId"))
    // a failed step 1: no methods, its code and raw body
    ensures |r.sent| == 1 && gw(r.sent[0]).HttpErr? ==>
      r.reply == Returned(Result([], gw(r.sent[0]).code, Some(Text(gw(r.sent[0]).raw))))
    // step 2 answered: its code, no error, its request types translated
    ensures |r.sent| == 2 && gw(r.sent[1]).Ok? ==>
      r.reply == WithMethods(Translate(Get(gw(r.sent[1]).body, "requestTypes")), gw(r.sent[1]).code, None)
    // a failed step 2: its code and raw body; the methods come from step 1's body
    ensures |r.sent| == 2 && gw(r.sent[1]).HttpErr? ==>
      r.reply == WithMethods(Translate(Get(gw(r.sent[0]).body, "requestTypes")),
                             gw(r.sent[1]).code, Some(Text(gw(r.sent[1]).raw)))
    ensures r.reply.Raised? && r.reply.exception.Uncaught? ==> gw(r.sent[|r.sent| - 1]).NetErr?
  {
    if TokenMissing(token) then Refused()
    else
      var rule := GetRequestPolicyRule(materialTypeId, loanTypeId, patronGroupId, locationId);
      match gw(rule)
      case HttpErr(code, raw) => Run(Returned(Result([], code, Some(Text(raw)))), [rule])
      case NetErr(_, _, _, _) => Run(Raised(Rethrown(gw(rule))), [rule])
      case Ok(_, ruleBody, _) =>
        var policy := GetRequestPolicy(Get(ruleBody, "requestPolicyId"));
        match gw(policy)
        case Ok(code, policyBody, _) =>
          Run(WithMethods(Translate(Get(policyBody, "requestTypes")), code, None), [rule, policy])
        case HttpErr(code, raw) =>
          Run(WithMethods(Translate(Get(ruleBody, "requestTypes")), code, Some(Text(raw))), [rule, policy])
        case NetErr(_, _, _, _) => Run(Raised(Rethrown(gw(policy))), [rule, policy])
  }

  /** A policy without request types gives no methods, with the success code and
      no error. */
  lemma NoRequestTypesNoMethods(gw: Transport, token: Option<string>,
                                patronGroupId: string, materialTypeId: string, loanTypeId: string, locationId: string)
    requires !TokenMissing(token)
    requires var rule := GetRequestPolicyRule(materialTypeId, loanTypeId, patronGroupId, locationId);
      && gw(rule).Ok?
      && var policy := gw(GetRequestPolicy(Get(gw(rule).body, "requestPolicyId")));
         policy.Ok? && Get(policy.body, "requestTypes") == JNull
    ensures var r := RequestOptions(gw, token, patronGroupId, materialTypeId, loanTypeId, locationId);
      r.reply.Returned? && r.reply.value.payload == [] && r.reply.value.error == None
      && r.reply.value.code == gw(r.sent[1]).code
  {
  }

  // ---------------------------------------------------------------------------
  // request_item

  /** The required arguments of `request_item`. */
  datatype ItemRequest = ItemRequest(
    instanceId: string, holdingsId: string, itemId: string, requesterId: string,
    requestType: string, requestDate: string, fulfillmentPreference: string, servicePointId: string)

  /** The keys every new request body carries. */
  const RequiredRequestKeys: set<string> := {
    "instanceId", "holdingsRecordId", "itemId", "requesterId", "requestType",
    "requestDate", "requestLevel", "fulfillmentPreference", "pickupServicePointId"}

  /** The JSON body `request_item` posts: `patronComments` is added only when the
      comments are not the empty string. */
  function NewRequestBody(item: ItemRequest, comments: string, requestLevel: string): (body: Object)
    ensures "patronComments" in body <==> comments != ""
    ensures body.Keys == RequiredRequestKeys + (if comments == "" then {} else {"patronComments"})
    ensures "patronComments" in body ==> body["patronComments"] == JStr(comments)
    ensures body["requestLevel"] == JStr(requestLevel)
  {
    var required := map[
      "instanceId" := JStr(item.instanceId),
      "holdingsRecordId" := JStr(item.holdingsId),
      "itemId" := JStr(item.itemId),
      "requesterId" := JStr(item.requesterId),
      "requestType" := JStr(item.requestType),
      "requestDate" := JStr(item.requestDate),
      "requestLevel" := JStr(requestLevel),
      "fulfillmentPreference" := JStr(item.fulfillmentPreference),
      "pickupServicePointId" := JStr(item.servicePointId)];
    if comments != "" then required["patronComments" := JStr(comments)] else required
  }

  /** Read a request body back into the arguments that built it: a string under
      each required key, and comments defaulting to the empty string. */
  function ReadRequestBody(body: Object): Option<(ItemRequest, string, string)>
  {
    if forall k | k in RequiredRequestKeys :: k in body && body[k].JStr? then
      var comments := if "patronComments" in body && body["patronComments"].JStr? then body["patronComments"].s else "";
      Some((ItemRequest(body["instanceId"].s, body["holdingsRecordId"].s, body["itemId"].s, body["requesterId"].s,
                        body["requestType"].s, body["requestDate"].s, body["fulfillmentPreference"].s,
                        body["pickupServicePointId"].s),
            comments, body["requestLevel"].s))
    else None
  }

  /** Omitting blank comments loses nothing: the body still determines them. */
  lemma RequestBodyRoundTrip(item: ItemRequest, comments: string, requestLevel: string)
    ensures ReadRequestBody(NewRequestBody(item, comments, requestLevel)) == Some((item, comments, requestLevel))
  {
  }

  /** The comments touch no other key of the body. */
  lemma CommentsTouchOnlyTheirKey(item: ItemRequest, c1: string, c2: string, requestLevel: string)
    ensures NewRequestBody(item, c1, requestLevel) - {"patronComments"} == NewRequestBody(item, c2, requestLevel) - {"patronComments"}
  {
  }

  /** `request_item`: post a new request; the result carries only code and error. */
  function RequestItem(gw: Transport, token: Option<string>, item: ItemRequest,
                       comments: string := "", requestLevel: string := "Item"): (r: Run<Result<()>>)
    ensures RaisedAuthError(r) <==> TokenMissing(token)
    ensures TokenMissing(token) ==> r.sent == []
    ensures !TokenMissing(token) ==>
      r.sent == [PostCirculationRequest(NewRequestBody(item, comments, requestLevel))]
    ensures !TokenMissing(token) ==> r.reply == StatusOnly(gw(r.sent[0]))
  {
    if TokenMissing(token) then Refused()
    else
      var post := PostCirculationRequest(NewRequestBody(item, comments, requestLevel));
      Run(StatusOnly(gw(post)), [post])
  }

  // ---------------------------------------------------------------------------
  // cancel_request

  const CancelledStatus := "Closed - Cancelled"
  const CancellationNote := "Cancelled by user in My Account"

  /** The fetched fields the cancellation record carries over unchanged. */
  const CopiedRequestKeys: set<string> := {
    "id", "fulfillmentPreference", "instanceId", "itemId", "holdingsRecordId",
    "requestDate", "pickupServicePointId", "patronComments", "requesterId", "requestType"}

  /** The keys whose values the cancellation sets itself. */
  const CancellationFieldKeys: set<string> := {
    "status", "cancellationReasonId", "cancelledByUserId", "cancellationAdditionalInformation",
    "cancelledDate", "requestLevel"}

  /** Every key of the cancellation record. */
  const CancellationKeys: set<string> := CopiedRequestKeys + CancellationFieldKeys

  lemma CopiedKeysAreNotCancellationFields()
    ensures CopiedRequestKeys !! CancellationFieldKeys
  {
  }

  /** The full record `cancel_request` PUTs back: the cancellation fields laid over
      the fetched request. `now` is the UTC ISO 8601 time of the call. */
  function CancellationRecord(fetched: Object, reasonId: string, now: string): (record: Object)
    ensures record.Keys == CancellationKeys
    ensures forall k | k in CopiedRequestKeys :: record[k] == Get(fetched, k)
    ensures record["status"] == JStr(CancelledStatus)
    ensures record["cancellationReasonId"] == JStr(reasonId)
    ensures record["cancelledByUserId"] == Get(fetched, "requesterId")
    ensures record["cancellationAdditionalInformation"] == JStr(CancellationNote)
    ensures record["cancelledDate"] == JStr(now)
    ensures record["requestLevel"] == if Truthy(Get(fetched, "requestLevel")) then Get(fetched, "requestLevel") else JStr("Item")
  {
    CopiedKeysAreNotCancellationFields();
    var level := Get(fetched, "requestLevel");
    var copied := map k | k in CopiedRequestKeys :: Get(fetched, k);
    map[
      "status" := JStr(CancelledStatus),
      "cancellationReasonId" := JStr(reasonId),
      "cancelledByUserId" := Get(fetched, "requesterId"),
      "cancellationAdditionalInformation" := JStr(CancellationNote),
      "cancelledDate" := JStr(now),
      "requestLevel" := if Truthy(level) then level else JStr("Item")] + copied
  }

  /** No fetched field outside the copied ones (and `requestLevel`) reaches the
      record: two fetched requests that agree on those give the same record. */
  lemma {:induction false} CancellationRecordReadsOnlyKnownFields(f1: Object, f2: Object, reasonId: string, now: string)
    requires forall k | k in CopiedRequestKeys + {"requestLevel"} :: Get(f1, k) == Get(f2, k)
    ensures CancellationRecord(f1, reasonId, now) == CancellationRecord(f2, reasonId, now)
  {
    var r1 := CancellationRecord(f1, reasonId, now);
    var r2 := CancellationRecord(f2, reasonId, now);
    assert Get(f1, "requestLevel") == Get(f2, "requestLevel");
    forall k | k in CancellationKeys ensures r1[k] == r2[k] {
      if k in CopiedRequestKeys {
        assert Get(f1, k) == Get(f2, k);
      }
    }
  }

  /** `cancel_request`: fetch the request, then PUT it back cancelled. The fetch
      must not raise and its code must not exceed 200. */
  function CancelRequest(gw: Transport, token: Option<string>, requestId: string, reasonId: string, now: string)
    : (r: Run<Result<()>>)
    ensures RaisedAuthError(r) <==> TokenMissing(token)
    ensures TokenMissing(token) ==> r.sent == []
    ensures !TokenMissing(token) ==> 1 <= |r.sent| <= 2 && r.sent[0] == GetCirculationRequest(requestId)
    // the PUT is issued exactly when the fetch answered normally with a code of at most 200
    ensures |r.sent| == 2 <==> !TokenMissing(token) && gw(r.sent[0]).Ok? && gw(r.sent[0]).code <= 200
    ensures |r.sent| == 2 ==>
      r.sent[1] == PutCirculationRequest(requestId, CancellationRecord(gw(r.sent[0]).body, reasonId, now))
    ensures |r.sent| == 2 ==> r.reply == StatusOnly(gw(r.sent[1]))
    // a fetch that raised: its code and raw body
    ensures |r.sent| == 1 && gw(r.sent[0]).HttpErr? ==>
      r.reply == Returned(Result((), gw(r.sent[0]).code, Some(Text(gw(r.sent[0]).raw))))
    // a fetch with a code above 200: that code, and no error
    ensures |r.sent| == 1 && gw(r.sent[0]).Ok? ==>
      gw(r.sent[0]).code > 200 && r.reply == Returned(Result((), gw(r.sent[0]).code, None))
  {
    if TokenMissing(token) then Refused()
    else
      var fetch := GetCirculationRequest(requestId);
      match gw(fetch)
      case HttpErr(code, raw) => Run(Returned(Result((), code, Some(Text(raw)))), [fetch])
      case NetErr(_, _, _, _) => Run(Raised(Rethrown(gw(fetch))), [fetch])
      case Ok(code, fetched, _) =>
        if code > 200 then Run(Returned(Result((), code, None)), [fetch])
        else
          var put := PutCirculationRequest(requestId, CancellationRecord(fetched, reasonId, now));
          Run(StatusOnly(gw(put)), [fetch, put])
  }
}
