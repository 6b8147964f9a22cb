/** What the connector talks to: the wallet's EIP-1193 provider, the viem
    client's ENS lookup, the EIP-712 type generator, the Masca snap API and
    the did-session library. Their replies are given, not computed; every
    operation of the model returns the list of requests it issued, in order. */
module External {
  import opened Values
  import opened TypedData

  /** How an awaited external request settles. */
  datatype Reply<+T> = Resolves(value: T) | Rejects(reason: string)

  /** The result objects the Masca snap API returns; `isError` is `Failure?`. */
  datatype ApiResult<+T> = Success(data: T) | Failure(error: string)

  /** `options.store`: one store name or a list of them, passed through. */
  datatype StoreOption = OneStore(name: string) | StoreList(names: seq<string>)

  /** `params.options` of a create-credential request. */
  datatype CreateOptions = CreateOptions(save: Option<bool>, store: Option<StoreOption>)

  /** The second argument of `DIDSession.authorize`. */
  datatype SessionOptions = SessionOptions(expiresInSecs: nat, resources: seq<string>)

  /** Objects the did-session library hands out and takes back. */
  datatype AuthMethod = AuthMethod(handle: nat)
  datatype DidSession = DidSession(handle: nat)

  /** The errors the connector throws, and a rejection of an awaited
      request, which it lets through unchanged. */
  datatype Error =
    | NoProvider
    | WrongHolder
    | InvalidIssuer
    | SaveFailed
    | StoresUnavailable
    | SessionRefused
    | SessionNotStored
    | Rejected(reason: string)

  /** The message each thrown Error carries. */
  function Message(e: Error): string
  {
    match e
    case NoProvider => "No provider found"
    case WrongHolder => "Wrong holder"
    case InvalidIssuer => "Invalid Issuer"
    case SaveFailed => "Failed to save VC in Masca."
    case StoresUnavailable => "Failed to get enabled VC stores."
    case SessionRefused => "User failed to sign session."
    case SessionNotStored => "Failed to set session in Masca."
    case Rejected(reason) => reason
  }

  /** Every failure the connector raises itself has a message of its own. */
  lemma MessagesDistinct(e1: Error, e2: Error)
    requires !e1.Rejected? && !e2.Rejected? && e1 != e2
    ensures Message(e1) != Message(e2)
  {
  }

  /** How a connector function ends: it returns a value or throws. */
  datatype Result<+T> = Ok(value: T) | Err(error: Error)

  /** An external request, with the arguments that matter. */
  datatype Call =
    | RequestAccounts                                       // eth_requestAccounts
    | GetEns(address: JsArg)                                // viemClient.getEns
    | ChainId                                               // eth_chainId
    | DeriveTypes(message: DocValue, primaryType: string)   // getEthTypesFromInputDoc
    | SignTypedData(signer: JsArg, payload: Payload)        // eth_signTypedData_v4
    | SaveCredential(vc: DocValue, store: Option<StoreOption>) // api.saveCredential
    | GetCredentialStore                                    // api.getCredentialStore
    | ValidateStoredCeramicSession                          // api.validateStoredCeramicSession
    | GetAccountId(address: JsArg)                          // getAccountId
    | GetAuthMethod(accountId: string)                      // EthereumWebAuth.getAuthMethod
    | AuthorizeSession(authMethod: AuthMethod, options: SessionOptions) // DIDSession.authorize
    | SetCeramicSession(serialized: string)                 // api.setCeramicSession

  /** The wallet behind the current provider. */
  datatype Wallet = Wallet(
    accounts: Reply<seq<string>>,
    chainId: Reply<string>,
    signTypedData: (JsArg, Payload) -> Reply<string>)

  /** The connector's surroundings. `provider` is None when the provider
      store has no current provider; `deriveTypes` is
      `getEthTypesFromInputDoc`, which either returns the types or throws. */
  datatype Host = Host(
    provider: Option<Wallet>,
    getEns: JsArg -> Reply<JsArg>,
    deriveTypes: (DocValue, string) -> Reply<Types>,
    saveCredential: (DocValue, Option<StoreOption>) -> ApiResult<()>,
    credentialStore: ApiResult<map<string, bool>>,
    storedSession: ApiResult<()>,
    getAccountId: JsArg -> Reply<string>,
    getAuthMethod: string -> Reply<AuthMethod>,
    authorize: (AuthMethod, SessionOptions) -> Reply<DidSession>,
    serialize: DidSession -> string,
    setCeramicSession: string -> ApiResult<()>)

  /** `addresses[0]`: undefined when the wallet returned no account. */
  function FirstAccount(addresses: seq<string>): (a: JsArg)
    ensures a.Undefined? <==> addresses == []
    ensures a.Str? ==> a.s == addresses[0]
  {
    if addresses == [] then Undefined else Str(addresses[0])
  }
}
