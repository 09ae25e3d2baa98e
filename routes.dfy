/** The route that stores a user's brokerage credential pair. */
module Routes {
  import opened Wrappers
  import Models

  /** A JSON reply: the HTTP status and the one field of the body (`error` or `message`). */
  datatype Reply = Reply(status: int, field: string, text: string)

  const MissingCredentials: Reply := Reply(400, "error", "Missing API credentials")
  const StoreFailed: Reply := Reply(500, "error", "Failed to store credentials")
  const Stored: Reply := Reply(200, "message", "Credentials stored successfully")

  /** The outcome of checking the request body before anything is written. */
  datatype Validation = Accepted(apiKey: string, secretKey: string) | Rejected(reply: Reply)

  /** A key taken from the body with `data.get(name)` and checked with `not`. */
  predicate HasKey(body: map<string, string>, name: string) {
    name in body && body[name] != ""
  }

  /** Validation of the JSON body. `None` is a body that is not a JSON object, on which `data.get`
      raises and the handler answers 500. */
  function ValidateCredentialRequest(body: Option<map<string, string>>): (r: Validation)
    ensures r.Accepted? <==> body.Some? && HasKey(body.value, "alpaca_api_key") && HasKey(body.value, "alpaca_secret_key")
    ensures r.Accepted? ==> r.apiKey == body.value["alpaca_api_key"] && r.secretKey == body.value["alpaca_secret_key"]
    ensures r.Accepted? ==> r.apiKey != "" && r.secretKey != ""
    ensures body.None? ==> r == Rejected(StoreFailed)
    ensures body.Some? && !r.Accepted? ==> r == Rejected(MissingCredentials)
  {
    match body
    case None => Rejected(StoreFailed)
    case Some(data) =>
      if HasKey(data, "alpaca_api_key") && HasKey(data, "alpaca_secret_key") then
        Accepted(data["alpaca_api_key"], data["alpaca_secret_key"])
      else
        Rejected(MissingCredentials)
  }

  /** `store_alpaca_credentials`: validates, then writes both keys through one `save_alpaca_credentials` call.
      `commitSucceeds` is the outcome of the database commit inside that call. */
  method StoreAlpacaCredentials(user: Models.User, body: Option<map<string, string>>, now: int, commitSucceeds: bool)
    returns (reply: Reply)
    modifies user
    ensures ValidateCredentialRequest(body).Rejected? ==> unchanged(user) && reply == ValidateCredentialRequest(body).reply
    ensures ValidateCredentialRequest(body).Accepted? ==>
      && user.alpacaApiKey == Some(ValidateCredentialRequest(body).apiKey)
      && user.alpacaSecretKey == Some(ValidateCredentialRequest(body).secretKey)
      && user.updatedAt == now
      && user.HasAlpacaCredentials()
      && reply == (if commitSucceeds then Stored else StoreFailed)
    ensures user.username == old(user.username) && user.email == old(user.email)
    ensures user.passwordHash == old(user.passwordHash)
    // Both keys or neither: no path changes one key without the other.
    ensures unchanged(user) || (user.alpacaApiKey != None && user.alpacaSecretKey != None)
    ensures reply.status == 200 <==> ValidateCredentialRequest(body).Accepted? && commitSucceeds
  {
    var v := ValidateCredentialRequest(body);
    if v.Rejected? {
      return v.reply;
    }
    var committed := user.SaveAlpacaCredentials(Some(v.apiKey), Some(v.secretKey), now, commitSucceeds);
    reply := if committed then Stored else StoreFailed;
  }
}
