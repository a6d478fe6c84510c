/** Patron lookups: the username lookup with its exactly-one-match rule, and the
    two operations that depend on it (account and renewal). */
module Patron {
  import opened Wrappers
  import opened JsonValue
  import opened Gateway
  import opened Token

  /** The fixed message for zero or several matches (its spelling is the source's). */
  const NoUserRecord := "Could'nt find user record"
  const CannotIdentifyUser := "Couldn't identify user"

  /** `patron_account`'s `identifiers` hash: `:folio_id` (may be nil) and `:username`. */
  datatype Identifiers = Identifiers(folioId: Option<string>, username: string)

  /** The lookup answered normally and listed exactly one user record. */
  predicate UniqueUser(o: Outcome, user: Json)
  {
    o.Ok? && Get(o.body, "users") == JArr([user])
  }

  /** The lookup answered normally with a `users` list whose length is not one. */
  predicate NoUniqueUser(o: Outcome)
  {
    o.Ok? && Get(o.body, "users").JArr? && |Get(o.body, "users").items| != 1
  }

  /** The lookup identified a user object in a way `patron_account` accepts: one
      match, and a response code below 300. */
  predicate Identified(o: Outcome, user: Object)
  {
    UniqueUser(o, JObj(user)) && o.code < 300
  }

  /** The result of the `/users` query, after `check_token`. */
  function LookupReply(o: Outcome): Reply<Result<Json>>
  {
    match o
    case Ok(code, body, _) =>
      (match Get(body, "users")
       case JArr(users) =>
         if |users| == 1 then Returned(Result(users[0], code, None))
         else Returned(Result(JNull, 500, Some(Text(NoUserRecord))))
       case JNull => Raised(NoMethodError)
       case _ => Raised(UnexpectedShape))
    case HttpErr(code, raw) => Returned(Result(JNull, code, Some(Text(raw))))
    case NetErr(_, _, _, _) => Raised(Rethrown(o))
  }

  /** `patron_record`: a user's record by exact username match. */
  function PatronRecord(gw: Transport, token: Option<string>, username: string): (r: Run<Result<Json>>)
    ensures RaisedAuthError(r) <==> TokenMissing(token)
    ensures TokenMissing(token) ==> r.sent == []
    ensures !TokenMissing(token) ==> r.sent == [GetUsers(username)]
    // success exactly when one record matched: that record and the response code
    ensures forall u | UniqueUser(gw(GetUsers(username)), u) ::
      !TokenMissing(token) ==> r.reply == Returned(Result(u, gw(GetUsers(username)).code, None))
    ensures r.reply.Returned? && r.reply.value.error.None? ==>
      UniqueUser(gw(GetUsers(username)), r.reply.value.payload)
    // zero and several matches are the same failure, with a fixed code and message
    ensures !TokenMissing(token) && NoUniqueUser(gw(GetUsers(username))) ==>
      r.reply == Returned(Result(JNull, 500, Some(Text(NoUserRecord))))
    // an HTTP error gives its own code and raw body
    ensures !TokenMissing(token) && gw(GetUsers(username)).HttpErr? ==>
      var o := gw(GetUsers(username));
      r.reply == Returned(Result(JNull, o.code, Some(Text(o.raw))))
    ensures !TokenMissing(token) && gw(GetUsers(username)).NetErr? ==>
      r.reply == Raised(Rethrown(gw(GetUsers(username))))
    // an error always comes without a user
    ensures r.reply.Returned? && r.reply.value.error.Some? ==> r.reply.value.payload == JNull
  {
    if TokenMissing(token) then Refused()
    else
      var lookup := GetUsers(username);
      Run(LookupReply(gw(lookup)), [lookup])
  }

  /** The account request once an identifier is known. */
  function AccountStep(gw: Transport, folioId: Json, before: seq<Request>): Run<Result<Json>>
  {
    var req := GetAccount(folioId);
    Run(Normalize(gw(req)), before + [req])
  }

  /** `patron_account`: a user's account, by FOLIO id or by username. */
  function PatronAccount(gw: Transport, token: Option<string>, ids: Identifiers): (r: Run<Result<Json>>)
    ensures RaisedAuthError(r) <==> TokenMissing(token)
    ensures TokenMissing(token) ==> r.sent == []
    // a given id is used as it is, with no lookup
    ensures !TokenMissing(token) && ids.folioId.Some? ==>
      r == Run(Normalize(gw(GetAccount(JStr(ids.folioId.value)))), [GetAccount(JStr(ids.folioId.value))])
    // otherwise the lookup comes first, and the account request (if any) second
    ensures !TokenMissing(token) && ids.folioId.None? ==>
      1 <= |r.sent| <= 2 && r.sent[0] == GetUsers(ids.username)
    // the account is requested after a lookup only for the user it identified
    ensures ids.folioId.None? && |r.sent| == 2 ==>
      exists u :: Identified(gw(GetUsers(ids.username)), u) && r.sent[1] == GetAccount(Get(u, "id"))
    ensures forall u | Identified(gw(GetUsers(ids.username)), u) ::
      !TokenMissing(token) && ids.folioId.None? ==>
        r == Run(Normalize(gw(GetAccount(Get(u, "id")))), [GetUsers(ids.username), GetAccount(Get(u, "id"))])
    // a lookup that did not succeed stops the operation with a fixed failure
    ensures !TokenMissing(token) && ids.folioId.None? && !gw(GetUsers(ids.username)).NetErr? ==>
      var lookup := PatronRecord(gw, token, ids.username);
      lookup.reply.Returned? && lookup.reply.value.code >= 300 ==>
        r == Run(Returned(Result(JNull, 500, Some(Text(CannotIdentifyUser)))), [GetUsers(ids.username)])
  {
    if TokenMissing(token) then Refused()
    else
      match ids.folioId
      case Some(id) => AccountStep(gw, JStr(id), [])
      case None =>
        var lookup := PatronRecord(gw, token, ids.username);
        match lookup.reply
        case Raised(e) => Run(Raised(e), lookup.sent)
        case Returned(found) =>
          if found.code < 300 then
            match Index(found.payload, "id")
            case Raised(e) => Run(Raised(e), lookup.sent)
            case Returned(folioId) => AccountStep(gw, folioId, lookup.sent)
          else
            Run(Returned(Result(JNull, 500, Some(Text(CannotIdentifyUser)))), lookup.sent)
  }

  /** The result of the renewal POST: the new due date, or the status with the
      error body run through `JSON.parse`. */
  function RenewReply(o: Outcome): Reply<Result<Json>>
  {
    match o
    case Ok(code, body, _) => Returned(Result(Get(body, "dueDate"), code, None))
    case HttpErr(code, raw) => Returned(Result(JNull, code, Some(ParsedBody(raw))))
    case NetErr(_, _, _, _) => Raised(Rethrown(o))
  }

  /** `renew_item`: renew an item for the user with the given username. The
      lookup's outcome is not checked: without a user record the code calls
      `['id']` on nil. */
  function RenewItem(gw: Transport, token: Option<string>, username: string, itemId: string): (r: Run<Result<Json>>)
    ensures RaisedAuthError(r) <==> TokenMissing(token)
    ensures TokenMissing(token) ==> r.sent == []
    ensures !TokenMissing(token) ==> 1 <= |r.sent| <= 2 && r.sent[0] == GetUsers(username)
    // the renewal is posted only for the one user the lookup matched
    ensures |r.sent| == 2 ==>
      exists u :: UniqueUser(gw(GetUsers(username)), JObj(u)) && r.sent[1] == PostRenew(Get(u, "id"), itemId)
    ensures forall u | UniqueUser(gw(GetUsers(username)), JObj(u)) :: !TokenMissing(token) ==>
      r == Run(RenewReply(gw(PostRenew(Get(u, "id"), itemId))), [GetUsers(username), PostRenew(Get(u, "id"), itemId)])
    // a failed lookup is not guarded: it crashes before any renewal
    ensures !TokenMissing(token) && (gw(GetUsers(username)).HttpErr? || NoUniqueUser(gw(GetUsers(username)))) ==>
      r == Run(Raised(NoMethodError), [GetUsers(username)])
    // a renewal the gateway accepts gives the new due date, its code and no error
    ensures |r.sent| == 2 && gw(r.sent[1]).Ok? ==>
      r.reply == Returned(Result(Get(gw(r.sent[1]).body, "dueDate"), gw(r.sent[1]).code, None))
    ensures |r.sent| == 2 && gw(r.sent[1]).NetErr? ==> r.reply == Raised(Rethrown(gw(r.sent[1])))
    // a renewal refused by the gateway reports its status and the decoded error body
    ensures |r.sent| == 2 && gw(r.sent[1]).HttpErr? ==>
      r.reply == Returned(Result(JNull, gw(r.sent[1]).code, Some(ParsedBody(gw(r.sent[1]).raw))))
  {
    if TokenMissing(token) then Refused()
    else
      var lookup := PatronRecord(gw, token, username);
      match lookup.reply
      case Raised(e) => Run(Raised(e), lookup.sent)
      case Returned(found) =>
        match Index(found.payload, "id")
        case Raised(e) => Run(Raised(e), lookup.sent)
        case Returned(userId) =>
          var renew := PostRenew(userId, itemId);
          Run(RenewReply(gw(renew)), lookup.sent + [renew])
  }
}
