/** The RSpec examples of the client, restated as facts about the model. Each
    lemma fixes the outcomes a test stubs and states what the test expects. */
module Scenarios {
  import opened Wrappers
  import opened JsonValue
  import opened Gateway
  import opened Token
  import opened Auth
  import opened Patron
  import opened Circulation

  const NoHeaders := Headers(None, None)
  const TestToken: Option<string> := Some("test_token")

  lemma TestTokenAccepted()
    ensures !TokenMissing(TestToken)
  {
    TokenMissingIff(TestToken);
    assert !IsRubySpace(TestToken.value[0]);
  }

  /** Two users match the username: no user, code 500, the fixed message. */
  lemma PatronRecordWithTwoMatches(gw: Transport)
    requires gw(GetUsers("testuser")) ==
      Ok(200, map["users" := JArr([JObj(map["id" := JStr("1")]), JObj(map["id" := JStr("2")])])], NoHeaders)
    ensures PatronRecord(gw, TestToken, "testuser").reply == Returned(Result(JNull, 500, Some(Text("Could'nt find user record"))))
  {
    TestTokenAccepted();
  }

  /** No user matches and no folio id is given: the account is never requested. */
  lemma PatronAccountWithUnknownUser(gw: Transport)
    requires gw(GetUsers("testuser")) == Ok(200, map["users" := JArr([])], NoHeaders)
    ensures PatronAccount(gw, TestToken, Identifiers(None, "testuser")) ==
      Run(Returned(Result(JNull, 500, Some(Text("Couldn't identify user")))), [GetUsers("testuser")])
  {
    TestTokenAccepted();
  }

  /** No user matches: renewing crashes on nil, and no renewal is posted. */
  lemma RenewItemWithUnknownUser(gw: Transport)
    requires gw(GetUsers("testuser")) == Ok(200, map["users" := JArr([])], NoHeaders)
    ensures RenewItem(gw, TestToken, "testuser", "item123") == Run(Raised(NoMethodError), [GetUsers("testuser")])
  {
    TestTokenAccepted();
  }

  /** Both policy lookups succeed with Hold, Recall and Page: exactly the three
      methods, code 200, no error. */
  lemma RequestOptionsWithAllTypes(gw: Transport)
    requires gw(GetRequestPolicyRule("material-type", "loan-type", "patron-group", "location-id")) ==
      Ok(200, map["requestPolicyId" := JStr("policy-123")], NoHeaders)
    requires gw(GetRequestPolicy(JStr("policy-123"))) ==
      Ok(200, map["requestTypes" := JArr([JStr("Hold"), JStr("Recall"), JStr("Page")])], NoHeaders)
    ensures var r := RequestOptions(gw, TestToken, "patron-group", "material-type", "loan-type", "location-id");
      && r.reply.Returned? && r.reply.value.code == 200 && r.reply.value.error == None
      && (set m | m in r.reply.value.payload) == {Some(Hold), Some(Recall), Some(L2L)}
  {
    TestTokenAccepted();
    var codes := [JStr("Hold"), JStr("Recall"), JStr("Page")];
    assert multiset(codes) == multiset{JStr("Hold"), JStr("Page"), JStr("Recall")};
    KnownLabelsGiveAllMethods(codes);
  }

  /** The rule lookup fails: no methods, its code and body, no policy request. */
  lemma RequestOptionsWithFailedRule(gw: Transport)
    requires gw(GetRequestPolicyRule("material-type", "loan-type", "patron-group", "location-id")) ==
      HttpErr(404, "Not found")
    ensures RequestOptions(gw, TestToken, "patron-group", "material-type", "loan-type", "location-id") ==
      Run(Returned(Result([], 404, Some(Text("Not found")))),
          [GetRequestPolicyRule("material-type", "loan-type", "patron-group", "location-id")])
  {
    TestTokenAccepted();
  }

  /** The fetch answers 400 without raising: that code, no error, no PUT. */
  lemma CancelRequestWithFetchAbove200(gw: Transport, now: string)
    requires gw(GetCirculationRequest("request-123")) == Ok(400, map[], NoHeaders)
    ensures CancelRequest(gw, TestToken, "request-123", "reason-456", now) ==
      Run(Returned(Result((), 400, None)), [GetCirculationRequest("request-123")])
  {
    TestTokenAccepted();
  }

  /** Blank comments: the posted body has no `patronComments` key. */
  lemma RequestItemWithBlankComments(gw: Transport, item: ItemRequest)
    ensures var r := RequestItem(gw, TestToken, item, "", "Item");
      |r.sent| == 1 && r.sent[0].PostCirculationRequest? && "patronComments" !in r.sent[0].body
  {
    TestTokenAccepted();
  }

  /** A rotating-scheme login whose cookie is `folioAccessToken=abc123; Path=/;
      HttpOnly`: token `abc123`, the body's expiry, code 201, no error. */
  lemma AuthenticateWithAccessTokenCookie(gw: Transport)
    requires gw(PostLogin(LoginWithExpiry, "testuser", "secret")) ==
      Ok(201, map["accessTokenExpiration" := JStr("2026-02-01T00:00:00Z")],
         Headers(Some(["folioAccessToken=abc123; Path=/; HttpOnly"]), None))
    ensures Readable(gw(PostLogin(LoginWithExpiry, "testuser", "secret")), New)
    ensures Authenticate(gw, "testuser", "secret").reply ==
      Returned(AuthResult(Some("abc123"), JStr("2026-02-01T00:00:00Z"), Some(201), None))
  {
    assert "folioAccessToken=abc123; Path=/; HttpOnly" == AccessTokenPrefix + "abc123" + ";" + " Path=/; HttpOnly";
    RotatingSchemeReadsFirstTokenCookie(201, map["accessTokenExpiration" := JStr("2026-02-01T00:00:00Z")],
                                        [], "abc123", " Path=/; HttpOnly", []);
    assert [] + ["folioAccessToken=abc123; Path=/; HttpOnly"] + [] == ["folioAccessToken=abc123; Path=/; HttpOnly"];
  }
}
