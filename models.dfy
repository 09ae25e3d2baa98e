/** The user record and its brokerage credential pair. */
module Models {
  import opened Wrappers

  /** A credential column holds a key: `None` (NULL) and `""` both count as "no key". */
  predicate Present(key: Option<string>) {
    key.Some? && key.value != ""
  }

  class User {
    const id: int
    var username: string
    var email: string
    var passwordHash: string
    var alpacaApiKey: Option<string>
    var alpacaSecretKey: Option<string>
    var createdAt: int
    /** Seconds since the epoch of the last change to the record. */
    var updatedAt: int

    constructor (id: int, username: string, email: string, passwordHash: string, now: int)
      ensures this.id == id && this.username == username && this.email == email
      ensures this.passwordHash == passwordHash
      ensures alpacaApiKey == None && alpacaSecretKey == None
      ensures createdAt == now && updatedAt == now
      ensures !HasAlpacaCredentials()
    {
      this.id := id;
      this.username := username;
      this.email := email;
      this.passwordHash := passwordHash;
      alpacaApiKey := None;
      alpacaSecretKey := None;
      createdAt := now;
      updatedAt := now;
    }

    /** `has_alpaca_credentials`: both keys are set and neither is empty. */
    function HasAlpacaCredentials(): (r: bool)
      reads this
      ensures r <==> alpacaApiKey.Some? && alpacaApiKey.value != "" && alpacaSecretKey.Some? && alpacaSecretKey.value != ""
    {
      Present(alpacaApiKey) && Present(alpacaSecretKey)
    }

    /** `save_alpaca_credentials`: writes both keys in one step and stamps the record with `now`.
        `commitSucceeds` stands for the outcome of the database commit that follows; when it fails the call
        raises (`committed` is false) after the fields have been assigned. */
    method SaveAlpacaCredentials(apiKey: Option<string>, secretKey: Option<string>, now: int, commitSucceeds: bool)
      returns (committed: bool)
      modifies this
      ensures alpacaApiKey == apiKey && alpacaSecretKey == secretKey
      ensures updatedAt == now
      ensures username == old(username) && email == old(email) && passwordHash == old(passwordHash)
      ensures createdAt == old(createdAt)
      ensures committed == commitSucceeds
      ensures Present(apiKey) && Present(secretKey) ==> HasAlpacaCredentials()
    {
      alpacaApiKey := apiKey;
      alpacaSecretKey := secretKey;
      updatedAt := now;
      committed := commitSucceeds;
    }
  }
}
