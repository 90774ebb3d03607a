/** The `GET /unlock` route: the `authenticate` middleware and the handler behind it. */
module UnlockRoute {
  import opened Wrappers
  import opened EnvConfig

  /** How `intercom.unlock()` settled; a failure may carry the HTTP status of the Ring response. */
  datatype UnlockOutcome = Unlocked | UnlockFailed(statusCode: Option<int>, message: string)

  datatype Response = Response(status: int, body: string)

  const ForbiddenBody := "Forbidden: Incorrect or missing password"
  const UnavailableBody := "Service Unavailable: Ring Intercom is not ready"
  const UnlockedBody := "Intercom unlocked successfully"
  const DeviceBusyBody := "Failed to unlock intercom:\n   "
                        + "The device was unable to perform the action. Please check the "
                        + "intercom's status (e.g. battery, network connection, etc.)"
  const UnexpectedBody := "Failed to unlock intercom due to an unexpected error."

  /** The middleware's test: a configuration exists and the header is exactly `Bearer <password>`. */
  predicate Authorized(config: Option<AppConfig>, header: Option<string>) {
    config.Some? && header == Some("Bearer " + config.value.unlockPassword)
  }

  /** The header carries the `Bearer ` scheme, case and spacing exact, followed by the password and nothing else. */
  lemma AuthorizedHeaderShape(config: AppConfig, header: string)
    ensures Authorized(Some(config), Some(header))
        <==> |header| >= 7 && header[..7] == "Bearer " && header[7..] == config.unlockPassword
  {
    if |header| >= 7 && header[..7] == "Bearer " && header[7..] == config.unlockPassword {
      assert header == header[..7] + header[7..];
    }
  }

  /** The response to one request, given the server state and how the unlock call would settle. */
  function Respond(config: Option<AppConfig>, header: Option<string>, intercomPresent: bool,
                   outcome: UnlockOutcome): (r: Response)
    ensures r.status == 403 <==> !Authorized(config, header)
    ensures r.status == 503 <==> Authorized(config, header) && !intercomPresent
    ensures r.status == 200 <==> Authorized(config, header) && intercomPresent && outcome.Unlocked?
    ensures r.status == 500 <==> Authorized(config, header) && intercomPresent && outcome.UnlockFailed?
    ensures r.status == 403 ==> r.body == ForbiddenBody
    ensures r.status == 503 ==> r.body == UnavailableBody
    ensures r.status == 200 ==> r.body == UnlockedBody
    ensures r.status == 500 ==> (r.body == DeviceBusyBody <==> outcome.statusCode == Some(422))
    ensures r.status == 500 && outcome.statusCode != Some(422) ==> r.body == UnexpectedBody
  {
    if !Authorized(config, header) then Response(403, ForbiddenBody)
    else if !intercomPresent then Response(503, UnavailableBody)
    else
      match outcome
      case Unlocked => Response(200, UnlockedBody)
      case UnlockFailed(statusCode, _) =>
        if statusCode == Some(422) then Response(500, DeviceBusyBody)
        else
          assert |UnexpectedBody| != |DeviceBusyBody|;
          Response(500, UnexpectedBody)
  }

  /** The unlock call is reached only by an authorized request while an intercom is present. */
  lemma OutcomeMattersOnlyWhenReady(config: Option<AppConfig>, header: Option<string>, intercomPresent: bool,
                                    a: UnlockOutcome, b: UnlockOutcome)
    requires !(Authorized(config, header) && intercomPresent)
    ensures Respond(config, header, intercomPresent, a) == Respond(config, header, intercomPresent, b)
  {
  }
}
