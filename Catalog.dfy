/** The single-call lookups that follow the base pattern: check the token, issue
    one GET, normalise its outcome. */
module Catalog {
  import opened Wrappers
  import opened JsonValue
  import opened Gateway
  import opened Token

  /** `instance_record`: an inventory instance by UUID. */
  function InstanceRecord(gw: Transport, token: Option<string>, instanceId: string): (r: Run<Result<Json>>)
    ensures RaisedAuthError(r) <==> TokenMissing(token)
    ensures TokenMissing(token) ==> r.sent == []
    ensures !TokenMissing(token) ==> r.sent == [GetInstance(instanceId)]
    ensures !TokenMissing(token) ==> r.reply == Normalize(gw(GetInstance(instanceId)))
  {
    if TokenMissing(token) then Refused()
    else
      var get := GetInstance(instanceId);
      Run(Normalize(gw(get)), [get])
  }

  /** `service_point`: a service point by UUID. */
  function ServicePoint(gw: Transport, token: Option<string>, servicePointId: string): (r: Run<Result<Json>>)
    ensures RaisedAuthError(r) <==> TokenMissing(token)
    ensures TokenMissing(token) ==> r.sent == []
    ensures !TokenMissing(token) ==> r.sent == [GetServicePoint(servicePointId)]
    ensures !TokenMissing(token) ==> r.reply == Normalize(gw(GetServicePoint(servicePointId)))
  {
    if TokenMissing(token) then Refused()
    else
      var get := GetServicePoint(servicePointId);
      Run(Normalize(gw(get)), [get])
  }
}
