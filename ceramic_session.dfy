/** validateAndSetCeramicSession: make sure Masca holds a valid Ceramic
    session when the Ceramic store is enabled, asking the user to authorize
    a new one otherwise. */
module CeramicSession {
  import opened Values
  import opened External

  /** `enabledCredentialStoresResult.data.ceramic === false`: only an
      explicit false switches the check off; a missing entry does not. */
  predicate CeramicDisabled(stores: map<string, bool>)
  {
    "ceramic" in stores && !stores["ceramic"]
  }

  /** Neither early return applies: the enabled stores were read, Ceramic is
      not switched off, and the stored session did not validate. */
  predicate NeedsNewSession(host: Host)
  {
    host.credentialStore.Success? && !CeramicDisabled(host.credentialStore.data) && host.storedSession.Failure?
  }

  /** validateAndSetCeramicSession. */
  method ValidateAndSetCeramicSession(host: Host) returns (result: Result<()>, calls: seq<Call>)
    ensures calls != [] && calls[0] == GetCredentialStore
    ensures host.credentialStore.Failure? ==>
              result == Err(StoresUnavailable) && calls == [GetCredentialStore]
    ensures host.credentialStore.Success? && CeramicDisabled(host.credentialStore.data) ==>
              result == Ok(()) && calls == [GetCredentialStore]
    ensures host.credentialStore.Success? && !CeramicDisabled(host.credentialStore.data)
            && host.storedSession.Success? ==>
              result == Ok(()) && calls == [GetCredentialStore, ValidateStoredCeramicSession]
    ensures |calls| > 2 <==> NeedsNewSession(host) && host.provider.Some?
    ensures NeedsNewSession(host) && host.provider.None? ==>
              result == Err(NoProvider) && calls == [GetCredentialStore, ValidateStoredCeramicSession]
    ensures NeedsNewSession(host) && host.provider.Some? ==>
              var wallet := host.provider.value;
              && calls[..3] == [GetCredentialStore, ValidateStoredCeramicSession, RequestAccounts]
              && (wallet.accounts.Rejects? ==>
                    result == Err(Rejected(wallet.accounts.reason)) && |calls| == 3)
              && (wallet.accounts.Resolves? ==>
                    var account := FirstAccount(wallet.accounts.value);
                    var accountId := host.getAccountId(account);
                    && |calls| >= 4 && calls[3] == GetAccountId(account)
                    && (accountId.Rejects? ==> result == Err(Rejected(accountId.reason)) && |calls| == 4)
                    && (accountId.Resolves? ==>
                          var authMethod := host.getAuthMethod(accountId.value);
                          && |calls| >= 5 && calls[4] == GetAuthMethod(accountId.value)
                          && (authMethod.Rejects? ==> result == Err(Rejected(authMethod.reason)) && |calls| == 5)
                          && (authMethod.Resolves? ==>
                                var options := SessionOptions(604800, ["ceramic://*"]);
                                var session := host.authorize(authMethod.value, options);
                                && |calls| >= 6 && calls[5] == AuthorizeSession(authMethod.value, options)
                                && (session.Rejects? ==> result == Err(SessionRefused) && |calls| == 6)
                                && (session.Resolves? ==>
                                      var serialized := host.serialize(session.value);
                                      && |calls| == 7 && calls[6] == SetCeramicSession(serialized)
                                      && result == if host.setCeramicSession(serialized).Failure?
                                                   then Err(SessionNotStored) else Ok(())))))
  {
    calls := [GetCredentialStore];
    var enabledStores := host.credentialStore;
    if enabledStores.Failure? {
      return Err(StoresUnavailable), calls;
    }
    if CeramicDisabled(enabledStores.data) {
      return Ok(()), calls;
    }

    calls := calls + [ValidateStoredCeramicSession];
    var session := host.storedSession;
    if session.Success? {
      return Ok(()), calls;
    }

    if host.provider.None? {
      return Err(NoProvider), calls;
    }
    var provider := host.provider.value;

    calls := calls + [RequestAccounts];
    if provider.accounts.Rejects? {
      return Err(Rejected(provider.accounts.reason)), calls;
    }
    var account := FirstAccount(provider.accounts.value);

    calls := calls + [GetAccountId(account)];
    var accountId := host.getAccountId(account);
    if accountId.Rejects? {
      return Err(Rejected(accountId.reason)), calls;
    }

    calls := calls + [GetAuthMethod(accountId.value)];
    var authMethod := host.getAuthMethod(accountId.value);
    if authMethod.Rejects? {
      return Err(Rejected(authMethod.reason)), calls;
    }

    var options := SessionOptions(60 * 60 * 24 * 7, ["ceramic://*"]);
    calls := calls + [AuthorizeSession(authMethod.value, options)];
    var newSession := host.authorize(authMethod.value, options);
    if newSession.Rejects? {
      return Err(SessionRefused), calls;
    }
    var serializedSession := host.serialize(newSession.value);

    calls := calls + [SetCeramicSession(serializedSession)];
    var stored := host.setCeramicSession(serializedSession);
    if stored.Failure? {
      return Err(SessionNotStored), calls;
    }
    return Ok(()), calls;
  }
}
