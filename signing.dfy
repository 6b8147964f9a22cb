/** signVerifiablePresentation and signVerifiableCredential: check that the
    wallet's first account (or its ENS name) is the holder or issuer, read
    the chain id, attach an EthereumEip712Signature2021 proof stub to the
    document in place, have the wallet sign the EIP-712 payload built from
    the document, then write the signature and the EIP-712 parameters into
    the proof; a credential is then saved in Masca when the caller asks. */
module Signing {
  import opened Values
  import opened JsString
  import opened JsParseInt
  import opened TypedData
  import opened External

  /** The caller's credential or presentation object, which signing changes
      in place. `members` holds every own property except `proof`. */
  class Document {
    var members: map<string, Json>
    var proof: Option<Proof>

    function Value(): DocValue
      reads this
    {
      DocValue(members, proof)
    }
  }

  // ---------------------------------------------------------------------
  // Reading the signer out of the document and checking it

  /** The parameter type of signVerifiableCredential: `issuer` is a string
      or an object with a string `id`. */
  predicate HasIssuer(members: map<string, Json>)
  {
    && "issuer" in members
    && var issuer := members["issuer"];
       || issuer.JString?
       || (issuer.JObject? && "id" in issuer.members && issuer.members["id"].JString?)
  }

  /** The issuer identifier: `issuer` itself when it is a string, its `id` otherwise. */
  function ResolveIssuer(members: map<string, Json>): (issuer: string)
    requires HasIssuer(members)
    ensures members["issuer"].JString? ==> issuer == members["issuer"].s
    ensures !members["issuer"].JString? ==> issuer == members["issuer"].members["id"].s
  {
    match members["issuer"]
    case JString(s) => s
    case JObject(m) => m["id"].s
  }

  /** The parameter type of signVerifiablePresentation: `holder` is a string. */
  predicate HasHolder(members: map<string, Json>)
  {
    "holder" in members && members["holder"].JString?
  }

  function Holder(members: map<string, Json>): string
    requires HasHolder(members)
  {
    members["holder"].s
  }

  /** The signer check: the identifier includes the account address or,
      failing that, the account's ENS name, each converted to a string
      (`undefined` and `null` become "undefined" and "null"). */
  predicate IdentityMatches(id: string, account: JsArg, ensName: JsArg)
  {
    Includes(id, ToJsString(account)) || Includes(id, ToJsString(ensName))
  }

  /** An identifier that spells out the account address passes the check,
      whatever the ENS lookup would say. */
  lemma AccountInIdentifierMatches(before: string, address: string, after: string, ensName: JsArg)
    ensures Includes(before + address + after, ToJsString(Str(address)))
    ensures IdentityMatches(before + address + after, Str(address), ensName)
  {
    IncludesInfix(before, address, after);
  }

  /** An ENS lookup that returns the empty string lets every identifier pass. */
  lemma EmptyEnsNameMatches(id: string, account: JsArg)
    ensures IdentityMatches(id, account, Str(""))
  {
    IncludesEmpty(id);
  }

  /** An address without an ENS name passes only if the identifier includes
      the address or the four letters "null". */
  lemma NullEnsNameMatchesLiteralNull(id: string, account: JsArg)
    ensures IdentityMatches(id, account, Null)
        <==> Includes(id, ToJsString(account)) || exists i :: OccursAt(id, "null", i)
  {
  }

  // ---------------------------------------------------------------------
  // The specification of one signing call

  /** What one call does: whether and what it throws, the external requests
      it issues in order, and the document afterwards. */
  datatype Run = Run(thrown: Option<Error>, calls: seq<Call>, doc: DocValue)

  /** The outcome of the signer check: what it throws, the requests it
      issued, and the first account. */
  datatype Check = Check(thrown: Option<Error>, calls: seq<Call>, account: JsArg)

  /** The provider lookup, the account request and the signer check.
      `signer` is the issuer or holder identifier and `mismatch` what is
      thrown when the check fails. The ENS lookup is only issued when the
      address alone does not pass. */
  ghost function SignerCheck(host: Host, signer: string, mismatch: Error): (c: Check)
    ensures c.calls == [] <==> host.provider.None?
    ensures c.calls != [] ==> c.calls[0] == RequestAccounts
    ensures forall i :: 0 <= i < |c.calls| ==> c.calls[i] == RequestAccounts || c.calls[i] == GetEns(c.account)
    ensures c.thrown.None? ==>
              && host.provider.Some?
              && host.provider.value.accounts.Resolves?
              && c.account == FirstAccount(host.provider.value.accounts.value)
  {
    if host.provider.None? then Check(Some(NoProvider), [], Undefined)
    else
      var provider := host.provider.value;
      if provider.accounts.Rejects? then Check(Some(Rejected(provider.accounts.reason)), [RequestAccounts], Undefined)
      else
        var account := FirstAccount(provider.accounts.value);
        if Includes(signer, ToJsString(account)) then Check(None, [RequestAccounts], account)
        else
          var ens := host.getEns(account);
          var calls := [RequestAccounts, GetEns(account)];
          if ens.Rejects? then Check(Some(Rejected(ens.reason)), calls, account)
          else if !Includes(signer, ToJsString(ens.value)) then Check(Some(mismatch), calls, account)
          else Check(None, calls, account)
  }

  /** The pipeline both signing functions share, up to writing
      `proof.eip712`: the signer check, then signing. */
  ghost function SignRun(doc: DocValue, host: Host, signer: string, primaryType: string, mismatch: Error): Run
  {
    var check := SignerCheck(host, signer, mismatch);
    if check.thrown.Some? then Run(check.thrown, check.calls, doc)
    else SignAfterCheck(doc, host, signer, check.account, primaryType, check.calls)
  }

  /** From the chain-id request on: the proof stub goes into the document
      before the types are derived and the payload is built, so the signed
      message carries it, and a type generator that throws leaves it there. */
  ghost function SignAfterCheck(doc: DocValue, host: Host, signer: string, account: JsArg,
                                primaryType: string, calls: seq<Call>): Run
    requires host.provider.Some?
  {
    var provider := host.provider.value;
    var calls := calls + [ChainId];
    if provider.chainId.Rejects? then Run(Some(Rejected(provider.chainId.reason)), calls, doc)
    else
      var domain := SigningDomain(ParseInt16(provider.chainId.value), primaryType);
      var message := DocValue(doc.members, Some(ProofStub(signer, Lookup(doc.members, "issuanceDate"))));
      var calls := calls + [DeriveTypes(message, primaryType)];
      var derived := host.deriveTypes(message, primaryType);
      if derived.Rejects? then Run(Some(Rejected(derived.reason)), calls, message)
      else
        var types := derived.value;
        var payload := Payload(domain, types, message, primaryType);
        var calls := calls + [SignTypedData(account, payload)];
        var signature := provider.signTypedData(account, payload);
        if signature.Rejects? then Run(Some(Rejected(signature.reason)), calls, message)
        else
          var proof := message.proof.value.(proofValue := Some(signature.value),
                                            eip712 := Some(Eip712Info(domain, types, primaryType)));
          Run(None, calls, DocValue(doc.members, Some(proof)))
  }

  ghost function PresentationRun(doc: DocValue, host: Host): Run
    requires HasHolder(doc.members)
  {
    SignRun(doc, host, Holder(doc.members), PresentationType, WrongHolder)
  }

  /** `params.options?.save` is truthy. */
  predicate SaveRequested(options: Option<CreateOptions>)
  {
    options.Some? && options.value.save == Some(true)
  }

  /** The credential path: the shared pipeline, then at most one save. */
  ghost function CredentialRun(doc: DocValue, host: Host, options: Option<CreateOptions>): Run
    requires HasIssuer(doc.members)
  {
    var run := SignRun(doc, host, ResolveIssuer(doc.members), CredentialType, InvalidIssuer);
    if run.thrown.Some? || !SaveRequested(options) then run
    else
      var store := options.value.store;
      var calls := run.calls + [SaveCredential(run.doc, store)];
      if host.saveCredential(run.doc, store).Failure? then Run(Some(SaveFailed), calls, run.doc)
      else Run(None, calls, run.doc)
  }

  // ---------------------------------------------------------------------
  // What a signing call promises

  /** The proof stub written into `doc` for `signer`. */
  function Stub(signer: string, doc: DocValue): Proof
  {
    ProofStub(signer, Lookup(doc.members, "issuanceDate"))
  }

  /** The requests of the shared pipeline: the account request comes first,
      at most one signing request is issued and it is the last one, and
      nothing is saved. */
  lemma SignRunCalls(doc: DocValue, host: Host, signer: string, primaryType: string, mismatch: Error)
    ensures var run := SignRun(doc, host, signer, primaryType, mismatch);
            && (run.calls != [] ==> run.calls[0] == RequestAccounts)
            && (forall i :: 0 <= i < |run.calls| && run.calls[i].SignTypedData? ==> i == |run.calls| - 1)
            && (forall i :: 0 <= i < |run.calls| ==> !run.calls[i].SaveCredential?)
  {
    var check := SignerCheck(host, signer, mismatch);
    var run := SignRun(doc, host, signer, primaryType, mismatch);
    if check.thrown.None? {
      AfterCheckCalls(doc, host, signer, check.account, primaryType, check.calls);
      forall i | 0 <= i < |run.calls|
        ensures run.calls[i].SignTypedData? ==> i == |run.calls| - 1
        ensures !run.calls[i].SaveCredential?
      {
        if i < |check.calls| {
          assert run.calls[i] == check.calls[i];
        }
      }
    }
  }

  /** The requests issued from the chain-id request on: those of the check,
      the chain id, then possibly the type derivation and one signing
      request, for `account`. */
  lemma AfterCheckCalls(doc: DocValue, host: Host, signer: string, account: JsArg, primaryType: string, calls: seq<Call>)
    requires host.provider.Some?
    ensures var run := SignAfterCheck(doc, host, signer, account, primaryType, calls);
            && |calls| < |run.calls| <= |calls| + 3
            && run.calls[..|calls|] == calls
            && run.calls[|calls|] == ChainId
            && (|run.calls| >= |calls| + 2 ==> run.calls[|calls| + 1].DeriveTypes?)
            && (|run.calls| == |calls| + 3 ==>
                  run.calls[|calls| + 2].SignTypedData? && run.calls[|calls| + 2].signer == account)
  {
  }

  /** The signer check throws `mismatch` exactly when neither the first
      account nor its ENS name occurs in the identifier; it then has asked
      for the accounts and the ENS name only, neither the chain id nor a
      signature, and the document is untouched. */
  lemma SignerMismatchFailsEarly(doc: DocValue, host: Host, signer: string, primaryType: string, mismatch: Error)
    requires !mismatch.Rejected? && mismatch != NoProvider
    ensures var run := SignRun(doc, host, signer, primaryType, mismatch);
            run.thrown == Some(mismatch)
            <==> && host.provider.Some?
                 && host.provider.value.accounts.Resolves?
                 && var account := FirstAccount(host.provider.value.accounts.value);
                    && host.getEns(account).Resolves?
                    && !IdentityMatches(signer, account, host.getEns(account).value)
    ensures var run := SignRun(doc, host, signer, primaryType, mismatch);
            run.thrown == Some(mismatch) ==>
              && host.provider.Some? && host.provider.value.accounts.Resolves?
              && run.calls == [RequestAccounts, GetEns(FirstAccount(host.provider.value.accounts.value))]
              && run.doc == doc
  {
  }

  /** The payload sent for signing is `{domain, types, message, primaryType}`
      where the message is the document carrying the proof stub (no
      `proofValue`, no `eip712`), the types are derived from that same
      document, and the domain is `{chainId: parseInt(eth_chainId, 16),
      name: primaryType, version: "1"}`; it is sent for the first account. */
  lemma SignedPayload(doc: DocValue, host: Host, signer: string, primaryType: string, mismatch: Error)
    ensures var run := SignRun(doc, host, signer, primaryType, mismatch);
            forall i :: 0 <= i < |run.calls| && run.calls[i].SignTypedData? ==>
              && host.provider.Some?
              && host.provider.value.accounts.Resolves?
              && host.provider.value.chainId.Resolves?
              && run.calls[i].signer == FirstAccount(host.provider.value.accounts.value)
              && var message := DocValue(doc.members, Some(Stub(signer, doc)));
                 && host.deriveTypes(message, primaryType).Resolves?
                 && run.calls[i].payload
                    == Payload(Domain(ParseInt16(host.provider.value.chainId.value), primaryType, "1"),
                               host.deriveTypes(message, primaryType).value, message, primaryType)
  {
    var run := SignRun(doc, host, signer, primaryType, mismatch);
    SignRunCalls(doc, host, signer, primaryType, mismatch);
    forall i | 0 <= i < |run.calls| && run.calls[i].SignTypedData?
      ensures host.provider.Some? && host.provider.value.accounts.Resolves?
      ensures host.provider.value.chainId.Resolves?
      ensures run.calls[i].signer == FirstAccount(host.provider.value.accounts.value)
      ensures var message := DocValue(doc.members, Some(Stub(signer, doc)));
              && host.deriveTypes(message, primaryType).Resolves?
              && run.calls[i].payload
                 == Payload(Domain(ParseInt16(host.provider.value.chainId.value), primaryType, "1"),
                            host.deriveTypes(message, primaryType).value, message, primaryType)
    {
      assert i == |run.calls| - 1;
    }
  }

  /** On success the document has kept all its other members, and its proof
      is the stub plus the signature the wallet returned for the payload and
      exactly that payload's domain, types and primary type. */
  lemma SignedProof(doc: DocValue, host: Host, signer: string, primaryType: string, mismatch: Error)
    ensures var run := SignRun(doc, host, signer, primaryType, mismatch);
            run.thrown.None? ==>
              && host.provider.Some?
              && |run.calls| >= 3
              && run.calls[|run.calls| - 1].SignTypedData?
              && var call := run.calls[|run.calls| - 1];
                 var signature := host.provider.value.signTypedData(call.signer, call.payload);
                 && signature.Resolves?
                 && run.doc == DocValue(doc.members,
                      Some(Stub(signer, doc).(proofValue := Some(signature.value),
                                              eip712 := Some(Eip712Info(call.payload.domain, call.payload.types,
                                                                        call.payload.primaryType)))))
  {
  }

  /** A failure before the type derivation leaves the document as it was.
      Once the types are being derived the stub is already in place: a type
      generator that throws, or a refused signature, leaves the document
      carrying the stub, which is the message a signing request carried. */
  lemma FailedRunDocument(doc: DocValue, host: Host, signer: string, primaryType: string, mismatch: Error)
    ensures var run := SignRun(doc, host, signer, primaryType, mismatch);
            run.thrown.Some? ==>
              if run.calls != [] && (run.calls[|run.calls| - 1].DeriveTypes? || run.calls[|run.calls| - 1].SignTypedData?)
              then && run.doc == DocValue(doc.members, Some(Stub(signer, doc)))
                   && (run.calls[|run.calls| - 1].DeriveTypes? ==> run.doc == run.calls[|run.calls| - 1].message)
                   && (run.calls[|run.calls| - 1].SignTypedData? ==> run.doc == run.calls[|run.calls| - 1].payload.message)
              else run.doc == doc
  {
    var check := SignerCheck(host, signer, mismatch);
    if check.thrown.None? {
      AfterCheckCalls(doc, host, signer, check.account, primaryType, check.calls);
    }
  }

  /** signVerifiableCredential throws "Invalid Issuer" exactly when the
      resolved issuer includes neither the first account nor its ENS name,
      and it then has issued no chain-id, signing or save request. */
  lemma InvalidIssuerFailsEarly(doc: DocValue, host: Host, options: Option<CreateOptions>)
    requires HasIssuer(doc.members)
    ensures var run := CredentialRun(doc, host, options);
            run.thrown == Some(InvalidIssuer)
            <==> && host.provider.Some?
                 && host.provider.value.accounts.Resolves?
                 && var account := FirstAccount(host.provider.value.accounts.value);
                    && host.getEns(account).Resolves?
                    && !IdentityMatches(ResolveIssuer(doc.members), account, host.getEns(account).value)
    ensures var run := CredentialRun(doc, host, options);
            run.thrown == Some(InvalidIssuer) ==>
              && host.provider.Some? && host.provider.value.accounts.Resolves?
              && run.calls == [RequestAccounts, GetEns(FirstAccount(host.provider.value.accounts.value))]
              && run.doc == doc
  {
    SignerMismatchFailsEarly(doc, host, ResolveIssuer(doc.members), CredentialType, InvalidIssuer);
  }

  /** signVerifiablePresentation throws "Wrong holder" exactly when `holder`
      includes neither the first account nor its ENS name, and it then has
      issued no chain-id or signing request. */
  lemma WrongHolderFailsEarly(doc: DocValue, host: Host)
    requires HasHolder(doc.members)
    ensures var run := PresentationRun(doc, host);
            run.thrown == Some(WrongHolder)
            <==> && host.provider.Some?
                 && host.provider.value.accounts.Resolves?
                 && var account := FirstAccount(host.provider.value.accounts.value);
                    && host.getEns(account).Resolves?
                    && !IdentityMatches(Holder(doc.members), account, host.getEns(account).value)
    ensures var run := PresentationRun(doc, host);
            run.thrown == Some(WrongHolder) ==>
              && host.provider.Some? && host.provider.value.accounts.Resolves?
              && run.calls == [RequestAccounts, GetEns(FirstAccount(host.provider.value.accounts.value))]
              && run.doc == doc
  {
    SignerMismatchFailsEarly(doc, host, Holder(doc.members), PresentationType, WrongHolder);
  }

  /** A signed presentation: `holder#controller` as verification method,
      "VerifiablePresentation" as primary type and domain name. */
  lemma SignedPresentation(doc: DocValue, host: Host)
    requires HasHolder(doc.members)
    ensures var run := PresentationRun(doc, host);
            run.thrown.None? ==>
              && run.doc.members == doc.members
              && run.doc.proof.Some?
              && run.doc.proof.value.verificationMethod == Holder(doc.members) + "#controller"
              && run.doc.proof.value.created == Lookup(doc.members, "issuanceDate")
              && run.doc.proof.value.proofPurpose == "assertionMethod"
              && run.doc.proof.value.proofType == "EthereumEip712Signature2021"
              && run.doc.proof.value.proofValue.Some?
              && run.doc.proof.value.eip712.Some?
              && run.doc.proof.value.eip712.value.primaryType == "VerifiablePresentation"
              && run.doc.proof.value.eip712.value.domain.name == "VerifiablePresentation"
              && run.doc.proof.value.eip712.value.domain.version == "1"
  {
    SignedProof(doc, host, Holder(doc.members), PresentationType, WrongHolder);
  }

  /** A signed credential: `issuer#controller` (the resolved issuer) as
      verification method, "VerifiableCredential" as primary type and domain
      name. */
  lemma SignedCredential(doc: DocValue, host: Host, options: Option<CreateOptions>)
    requires HasIssuer(doc.members)
    ensures var run := CredentialRun(doc, host, options);
            run.thrown.None? ==>
              && run.doc.members == doc.members
              && run.doc.proof.Some?
              && run.doc.proof.value.verificationMethod == ResolveIssuer(doc.members) + "#controller"
              && run.doc.proof.value.created == Lookup(doc.members, "issuanceDate")
              && run.doc.proof.value.proofPurpose == "assertionMethod"
              && run.doc.proof.value.proofType == "EthereumEip712Signature2021"
              && run.doc.proof.value.proofValue.Some?
              && run.doc.proof.value.eip712.Some?
              && run.doc.proof.value.eip712.value.primaryType == "VerifiableCredential"
              && run.doc.proof.value.eip712.value.domain.name == "VerifiableCredential"
              && run.doc.proof.value.eip712.value.domain.version == "1"
  {
    CredentialSigning(doc, host, options);
    SignedProof(doc, host, ResolveIssuer(doc.members), CredentialType, InvalidIssuer);
  }

  /** The credential path signs exactly as the shared pipeline does with the
      resolved issuer and "VerifiableCredential"; a save only follows, so it
      never changes the document. */
  lemma CredentialSigning(doc: DocValue, host: Host, options: Option<CreateOptions>)
    requires HasIssuer(doc.members)
    ensures var run := CredentialRun(doc, host, options);
            var signing := SignRun(doc, host, ResolveIssuer(doc.members), CredentialType, InvalidIssuer);
            && run.doc == signing.doc
            && |signing.calls| <= |run.calls|
            && run.calls[..|signing.calls|] == signing.calls
            && (run.thrown.None? || run.thrown == Some(SaveFailed) ==> signing.thrown.None?)
            && (signing.thrown.Some? ==> run == signing)
  {
  }

  /** Saving: at most one save request, only when `options.save` is true,
      only once the signature has been obtained (right after the signing
      request), with the signed credential and the caller's `store`; a
      failed save becomes "Failed to save VC in Masca.". */
  lemma SaveAfterSignature(doc: DocValue, host: Host, options: Option<CreateOptions>)
    requires HasIssuer(doc.members)
    ensures var run := CredentialRun(doc, host, options);
            forall i :: 0 <= i < |run.calls| && run.calls[i].SaveCredential? ==>
              && i == |run.calls| - 1 && i > 0 && run.calls[i - 1].SignTypedData?
              && SaveRequested(options) && run.calls[i].store == options.value.store
              && run.calls[i].vc == run.doc
    ensures var run := CredentialRun(doc, host, options);
            var signing := SignRun(doc, host, ResolveIssuer(doc.members), CredentialType, InvalidIssuer);
            && ((exists i :: 0 <= i < |run.calls| && run.calls[i].SaveCredential?)
                <==> signing.thrown.None? && SaveRequested(options))
            && (run.thrown == Some(SaveFailed)
                <==> && signing.thrown.None? && SaveRequested(options)
                     && host.saveCredential(signing.doc, options.value.store).Failure?)
  {
    var signing := SignRun(doc, host, ResolveIssuer(doc.members), CredentialType, InvalidIssuer);
    SignRunCalls(doc, host, ResolveIssuer(doc.members), CredentialType, InvalidIssuer);
    SignedProof(doc, host, ResolveIssuer(doc.members), CredentialType, InvalidIssuer);
    var run := CredentialRun(doc, host, options);
    if signing.thrown.None? && SaveRequested(options) {
      assert run.calls[|run.calls| - 1].SaveCredential?;
    }
  }

  // ---------------------------------------------------------------------
  // The two signing functions

  /** What both signing functions do once the signer check has passed:
      read the chain id, write the proof stub into the document, derive the
      EIP-712 types from it, have the payload signed for `account`, then add
      the signature and the EIP-712 information to the proof. */
  method SignDocument(doc: Document, host: Host, signer: string, account: JsArg,
                      primaryType: string, callsBefore: seq<Call>)
    returns (thrown: Option<Error>, calls: seq<Call>)
    requires host.provider.Some?
    modifies doc
    ensures var run := SignAfterCheck(old(doc.Value()), host, signer, account, primaryType, callsBefore);
            && thrown == run.thrown
            && calls == run.calls
            && doc.Value() == run.doc
  {
    ghost var unsigned := doc.Value();
    var provider := host.provider.value;
    calls := callsBefore + [ChainId];
    if provider.chainId.Rejects? {
      return Some(Rejected(provider.chainId.reason)), calls;
    }
    var chainId := ParseInt16(provider.chainId.value);
    doc.proof := Some(ProofStub(signer, Lookup(doc.members, "issuanceDate")));
    ghost var stubbed := doc.Value();
    assert stubbed == DocValue(unsigned.members, Some(ProofStub(signer, Lookup(unsigned.members, "issuanceDate"))));

    var message := doc;
    var domain := SigningDomain(chainId, primaryType);
    calls := calls + [DeriveTypes(doc.Value(), primaryType)];
    var derived := host.deriveTypes(doc.Value(), primaryType);
    if derived.Rejects? {
      return Some(Rejected(derived.reason)), calls;
    }
    var types := derived.value;
    var data := Payload(domain, types, message.Value(), primaryType);

    calls := calls + [SignTypedData(account, data)];
    var signature := provider.signTypedData(account, data);
    if signature.Rejects? {
      return Some(Rejected(signature.reason)), calls;
    }
    doc.proof := Some(doc.proof.value.(proofValue := Some(signature.value)));
    doc.proof := Some(doc.proof.value.(eip712 := Some(Eip712Info(domain, types, primaryType))));
    assert doc.Value() == DocValue(stubbed.members,
                                   Some(stubbed.proof.value.(proofValue := Some(signature.value),
                                                             eip712 := Some(Eip712Info(domain, types, primaryType)))));
    return None, calls;
  }

  /** The first steps of both signing functions: find the provider, ask
      for the accounts, and check `signer` against the first account and,
      when that fails, against its ENS name. */
  method CheckSigner(host: Host, signer: string, mismatch: Error)
    returns (thrown: Option<Error>, calls: seq<Call>, account: JsArg)
    ensures Check(thrown, calls, account) == SignerCheck(host, signer, mismatch)
  {
    calls := [];
    account := Undefined;
    if host.provider.None? {
      return Some(NoProvider), calls, account;
    }
    var provider := host.provider.value;
    calls := calls + [RequestAccounts];
    if provider.accounts.Rejects? {
      return Some(Rejected(provider.accounts.reason)), calls, account;
    }
    account := FirstAccount(provider.accounts.value);

    if !Includes(signer, ToJsString(account)) {
      calls := calls + [GetEns(account)];
      var ens := host.getEns(account);
      if ens.Rejects? {
        return Some(Rejected(ens.reason)), calls, account;
      }
      if !Includes(signer, ToJsString(ens.value)) {
        return Some(mismatch), calls, account;
      }
    }
    return None, calls, account;
  }

  /** signVerifiablePresentation. */
  method SignVerifiablePresentation(presentation: Document, host: Host)
    returns (result: Result<Document>, calls: seq<Call>)
    requires HasHolder(presentation.members)
    modifies presentation
    ensures var run := PresentationRun(old(presentation.Value()), host);
            && calls == run.calls
            && presentation.Value() == run.doc
            && result == if run.thrown.Some? then Err(run.thrown.value) else Ok(presentation)
  {
    var holder := presentation.members["holder"].s;
    var thrown, account;
    thrown, calls, account := CheckSigner(host, holder, WrongHolder);
    if thrown.Some? {
      return Err(thrown.value), calls;
    }

    thrown, calls := SignDocument(presentation, host, holder, account, PresentationType, calls);
    if thrown.Some? {
      return Err(thrown.value), calls;
    }
    return Ok(presentation), calls;
  }

  /** signVerifiableCredential. */
  method SignVerifiableCredential(credential: Document, host: Host, options: Option<CreateOptions>)
    returns (result: Result<Document>, calls: seq<Call>)
    requires HasIssuer(credential.members)
    modifies credential
    ensures var run := CredentialRun(old(credential.Value()), host, options);
            && calls == run.calls
            && credential.Value() == run.doc
            && result == if run.thrown.Some? then Err(run.thrown.value) else Ok(credential)
  {
    var issuer := "";
    if credential.members["issuer"].JString? {
      issuer := credential.members["issuer"].s;
    } else {
      issuer := credential.members["issuer"].members["id"].s;
    }
    var thrown, account;
    thrown, calls, account := CheckSigner(host, issuer, InvalidIssuer);
    if thrown.Some? {
      return Err(thrown.value), calls;
    }

    thrown, calls := SignDocument(credential, host, issuer, account, CredentialType, calls);
    if thrown.Some? {
      return Err(thrown.value), calls;
    }

    if SaveRequested(options) {
      var store := options.value.store;
      calls := calls + [SaveCredential(credential.Value(), store)];
      var saved := host.saveCredential(credential.Value(), store);
      if saved.Failure? {
        return Err(SaveFailed), calls;
      }
    }
    return Ok(credential), calls;
  }
}
