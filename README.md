# Masca connector: signing and Ceramic session helpers

This project models the three helpers in `packages/connector/src/utils.ts` of
the Masca connector, the library a dapp uses to talk to the Masca MetaMask
snap:

- `signVerifiableCredential` signs an unsigned Verifiable Credential with an
  `EthereumEip712Signature2021` proof through the wallet's
  `eth_signTypedData_v4`, and optionally saves the result in Masca;
- `signVerifiablePresentation` does the same for a Verifiable Presentation;
- `validateAndSetCeramicSession` makes sure Masca holds a valid Ceramic
  session, asking the user to authorize a new one when it does not.

The document being signed is changed in place by the source, so it is a
`class Document` (its members and its `proof`) that the signing methods
`modify`. Everything the helpers talk to — the EIP-1193 provider, the ENS
lookup, the EIP-712 type generator `getEthTypesFromInputDoc`, the Masca snap
API, `getAccountId`, `EthereumWebAuth` and `DIDSession` — is a field of the
`Host` value: its replies are given, not computed. Every operation returns
the list of external requests it issued, in order, so the model states which
requests are made, which are skipped, and in what order.

The two signing functions repeat the same steps with a different signer
and primary type; the model writes those steps once, as the methods
`CheckSigner` (provider, accounts, signer check) and `SignDocument` (chain
id, proof stub, type derivation, signing request, completed proof), which both signing
methods call. Each method is proved equal to a ghost specification function
(`SignerCheck`, `SignAfterCheck`, `PresentationRun`, `CredentialRun`) that
returns what is thrown, the requests and the final document; the properties
of the helpers are lemmas about those functions.

Files:

- `values.dfy` — JSON values, JavaScript `undefined`/`null`/string
  arguments and their conversion to strings.
- `js_string.dfy` — `String.prototype.includes` against a reference
  definition (an occurrence at some index).
- `parse_int.dfy` — `Number.parseInt(s, 16)` as section 19.2.5 of ECMA-262
  defines it, with the round trip from a wallet's hexadecimal chain id.
- `typed_data.dfy` — the EIP-712 domain, types and payload, and the proof.
- `external.dfy` — the host, its replies, the requests, the thrown errors
  and their messages.
- `signing.dfy` — the two signing helpers and their specification.
- `ceramic_session.dfy` — `validateAndSetCeramicSession`.

## Model

| member | source | states |
|---|---|---|
| JsString.Includes | packages/connector/src/utils.ts:84-87 | `s.includes(t)` holds exactly when `t` occurs in `s` at some index |
| JsString.IncludesEmpty | packages/connector/src/utils.ts:156-160 | every string includes the empty string |
| JsString.IncludesInfix | packages/connector/src/utils.ts:156-160 | a string includes any string it has as an infix |
| External.FirstAccount | packages/connector/src/utils.ts:44-48 | `addresses[0]` is `undefined` exactly when the wallet returned no account, otherwise the first address |
| External.MessagesDistinct | packages/connector/src/utils.ts:20-217 | each error the connector raises itself carries a message different from every other one |
| JsParseInt.ParseInt16 | packages/connector/src/utils.ts:91-94 | `Number.parseInt(s, 16)`: trim leading StrWhiteSpace, take one sign, drop one "0x"/"0X", read the longest run of hexadecimal digits, NaN when it is empty (characterised on every input by `ParseInt16Digits` and `ParseInt16NoDigits`) |
| JsParseInt.TrimStart | packages/connector/src/utils.ts:91-94 | the result is a suffix of the input, everything removed is StrWhiteSpace, and the result does not start with white space |
| JsParseInt.HexRunLength | packages/connector/src/utils.ts:91-94 | the length of the longest prefix made of hexadecimal digits: all of it are digits and the next character is not |
| JsParseInt.DigitValue | packages/connector/src/utils.ts:91-94 | a hexadecimal digit has a value below 16 |
| JsParseInt.HexDigitChar | packages/connector/src/utils.ts:91-94 | the digit written for a value below 16 is a hexadecimal digit with that value |
| JsParseInt.ToHex | packages/connector/src/utils.ts:91-94 | a hexadecimal numeral is non-empty and made of hexadecimal digits |
| JsParseInt.ToHexNoLeadingZero | packages/connector/src/utils.ts:91-94 | the numeral has a leading zero only for zero (the QUANTITY encoding a wallet returns for `eth_chainId`) |
| JsParseInt.HexValueOfToHex | packages/connector/src/utils.ts:91-94 | reading a numeral back gives the number written |
| JsParseInt.TrimStartSkipsWhiteSpace | packages/connector/src/utils.ts:91-94 | trimming removes exactly the leading white space |
| JsParseInt.HexRunOfDigits | packages/connector/src/utils.ts:91-94 | the digit run of `digits + rest` is `digits` when `rest` does not start with a digit |
| JsParseInt.ParseDigitsOf | packages/connector/src/utils.ts:91-94 | the digits stage gives the value of the run, NaN for an empty run |
| JsParseInt.ParseUnsignedOf | packages/connector/src/utils.ts:91-94 | radix 16 drops one "0x" or "0X" prefix |
| JsParseInt.ParseSignedOf | packages/connector/src/utils.ts:91-94 | a "-" negates the unsigned result, a "+" leaves it unchanged |
| JsParseInt.ParseInt16AfterWhiteSpace | packages/connector/src/utils.ts:91-94 | leading white space does not change the result |
| JsParseInt.ParseSignedDigits | packages/connector/src/utils.ts:165-168 | sign, prefix, digits and trailing junk give the signed value of the digits |
| JsParseInt.ParseInt16Digits | packages/connector/src/utils.ts:91-94 | `parseInt(ws + sign + prefix + digits + rest, 16)` is the signed value of `digits` whenever `rest` does not continue the digit run |
| JsParseInt.ParseInt16NoDigits | packages/connector/src/utils.ts:165-168 | with no hexadecimal digit after sign and prefix the result is NaN |
| JsParseInt.ParseSignedNoDigits | packages/connector/src/utils.ts:91-94 | sign and prefix followed by no digit give NaN |
| JsParseInt.ParseQuantity | packages/connector/src/utils.ts:91-94 | "0x" followed by hexadecimal digits parses to the value of those digits |
| JsParseInt.ParseBareHex | packages/connector/src/utils.ts:165-168 | hexadecimal digits without the prefix parse to their value |
| JsParseInt.ChainIdRoundTrip | packages/connector/src/utils.ts:91-94 | the chain id a wallet reports as `"0x" + hex` (or bare hex) parses back to that chain id |
| Signing.ResolveIssuer | packages/connector/src/utils.ts:149-154 | the issuer is `credential.issuer` when it is a string, otherwise `credential.issuer.id` |
| Signing.AccountInIdentifierMatches | packages/connector/src/utils.ts:156-163 | an identifier containing the account address passes the signer check, whatever the ENS name |
| Signing.EmptyEnsNameMatches | packages/connector/src/utils.ts:156-163 | an ENS lookup returning "" lets every identifier pass |
| Signing.NullEnsNameMatchesLiteralNull | packages/connector/src/utils.ts:83-90 | with no ENS name (`null`), the check passes exactly when the identifier includes the address or the letters "null" |
| Signing.IdentityMatches | packages/connector/src/utils.ts:156-163 | the signer check: the identifier includes the address or the ENS name, each converted to a string (same test at lines 83-90) |
| Signing.SignerCheck | packages/connector/src/utils.ts:77-90 | no request without a provider; otherwise the account request comes first and only the ENS lookup may follow; when nothing is thrown the wallet returned accounts and the account is the first of them |
| Signing.CheckSigner | packages/connector/src/utils.ts:77-90 | finding the provider, requesting the accounts and checking the signer (lines 77-90 for the holder, 143-147 and 156-163 for the issuer) throws, requests and yields the account exactly as `SignerCheck` says |
| Signing.SignDocument | packages/connector/src/utils.ts:165-201 | from the chain-id request through the type derivation to the completed proof, the error, the requests and the document afterwards are those of `SignAfterCheck` on the document before the call |
| Signing.SignRun | packages/connector/src/utils.ts:77-126 | the shared pipeline: the signer check, then signing; what is thrown, the requests and the document afterwards |
| Signing.SignAfterCheck | packages/connector/src/utils.ts:91-126 | chain id, proof stub written into the document, types derived, payload signed for the first account, signature and EIP-712 information added to the proof; each failure with the document as it stands at that point |
| Signing.PresentationRun | packages/connector/src/utils.ts:73-129 | the pipeline with `holder` as signer, "VerifiablePresentation" as primary type and "Wrong holder" as mismatch |
| Signing.CredentialRun | packages/connector/src/utils.ts:138-217 | the pipeline with the resolved issuer, "VerifiableCredential" and "Invalid Issuer", then a save of the signed credential when `options.save` is true, a failed save throwing "Failed to save VC in Masca." |
| TypedData.ProofStub | packages/connector/src/utils.ts:95-100 | the proof written before signing: `signer#controller`, `issuanceDate`, "assertionMethod", "EthereumEip712Signature2021", no signature and no EIP-712 information yet |
| TypedData.SigningDomain | packages/connector/src/utils.ts:104-108 | the EIP-712 domain: the parsed chain id, the primary type as name, version "1" |
| Signing.SignRunCalls | packages/connector/src/utils.ts:77-118 | the account request comes first, at most one signing request is issued and it is the last request, and signing itself saves nothing |
| Signing.AfterCheckCalls | packages/connector/src/utils.ts:91-118 | after the signer check the requests are those of the check, the chain id, then possibly the type derivation and one signing request for the checked account |
| Signing.SignerMismatchFailsEarly | packages/connector/src/utils.ts:83-90 | the mismatch error is thrown exactly when neither the address nor its ENS name occurs in the signer; then only the accounts and the ENS name were requested and the document is unchanged |
| Signing.SignedPayload | packages/connector/src/utils.ts:95-118 | the signed payload is `{domain, types, message, primaryType}` with the chain id parsed from `eth_chainId`, the message being the document with the proof stub, the types those `getEthTypesFromInputDoc` returned for that message, sent for the first account |
| Signing.SignedProof | packages/connector/src/utils.ts:120-126 | on success the other members are unchanged and the proof is the stub plus the wallet's signature and the payload's domain, types and primary type |
| Signing.FailedRunDocument | packages/connector/src/utils.ts:91-126 | a failure before the types are derived leaves the document untouched; a type generator that throws or a refused signature leaves it carrying the proof stub, the message that was handed on |
| Signing.WrongHolderFailsEarly | packages/connector/src/utils.ts:83-90 | "Wrong holder" is thrown exactly when `holder` includes neither the address nor its ENS name, before any chain-id or signing request |
| Signing.InvalidIssuerFailsEarly | packages/connector/src/utils.ts:156-163 | "Invalid Issuer" is thrown exactly when the issuer includes neither the address nor its ENS name, before any chain-id, signing or save request |
| Signing.SignedPresentation | packages/connector/src/utils.ts:95-128 | a signed presentation keeps its members and carries `holder#controller`, `issuanceDate`, "assertionMethod", "EthereumEip712Signature2021", a signature, and "VerifiablePresentation" / version "1" in its EIP-712 info |
| Signing.SignedCredential | packages/connector/src/utils.ts:169-201 | a signed credential keeps its members and carries `issuer#controller` for the resolved issuer, `issuanceDate`, "assertionMethod", "EthereumEip712Signature2021", a signature, and "VerifiableCredential" / version "1" in its EIP-712 info |
| Signing.CredentialSigning | packages/connector/src/utils.ts:169-201 | the credential path signs as the shared pipeline does with the resolved issuer; the save never changes the document and only follows a successful signing |
| Signing.SaveAfterSignature | packages/connector/src/utils.ts:203-214 | a save request is issued exactly when signing succeeded and `options.save` is true, right after the signing request, with the signed credential and the caller's `store`; "Failed to save VC in Masca." exactly when that save fails |
| Signing.SignVerifiablePresentation | packages/connector/src/utils.ts:73-129 | the requests, the presentation afterwards and the result (the same object, or the error) are those of `PresentationRun` on the presentation before the call |
| Signing.SignVerifiableCredential | packages/connector/src/utils.ts:138-217 | the requests, the credential afterwards and the result are those of `CredentialRun` on the credential before the call |
| CeramicSession.CeramicDisabled | packages/connector/src/utils.ts:30-32 | only an explicit `ceramic: false` among the enabled stores switches Ceramic off; a missing entry does not |
| External.Message | packages/connector/src/utils.ts:20-217 | the message each error the connector throws carries, as the source spells it |
| CeramicSession.ValidateAndSetCeramicSession | packages/connector/src/utils.ts:20-66 | the store query comes first; a failed query throws "Failed to get enabled VC stores."; only an explicit `ceramic: false` or a valid stored session returns at once; otherwise a new session is authorized for one week on `ceramic://*` and stored, with each failure mapped to its error |

## Left out

- `JSON.stringify` of the payload: the payload is recorded as a structured value, so property order and number formatting of the string handed to the wallet are not modelled.
- `getEthTypesFromInputDoc` is an uninterpreted function of the document and primary type (`Host.deriveTypes`) that returns the types or throws; which documents it rejects is not modelled. The `{ ...allTypes }` copy is the same value, since object identity of the types is not observable in the model.
- The wallet, ENS, Masca API and did-session requests are replies fixed in `Host`; a request issued twice would get the same reply. Asynchronous scheduling and concurrent calls on the same document are not modelled.
- JsParseInt.ParseInt16: the result is an unbounded integer; the rounding of `Number` above 2^53 and the value -0 (for "-0") are not modelled. JsParseInt.ParseInt16Digits states its value in the same exact terms, and the round-trip lemmas JsParseInt.ParseQuantity, JsParseInt.ParseBareHex and JsParseInt.ChainIdRoundTrip inherit the limit: in JavaScript they hold only for values up to 2^53.
- JSON numbers are reals, not IEEE doubles.
- Signing.SignVerifiableCredential: requires the issuer to be a string or an object whose `id` is a string, and Signing.SignVerifiablePresentation requires `holder` to be a string, as their TypeScript parameter types say; what JavaScript would do with other shapes (a TypeError, or `Array.prototype.includes` on an array) is not modelled.
- A `proof` member already present before signing is overwritten by the stub; its previous shape is not modelled beyond the `Proof` type.
- `params.options.save` is a boolean per its TypeScript type; other truthy values are not modelled.
- How the snap routes a saved credential to its stores, and the did:key helpers of the snap, are not part of this model.
- `getCurrentProvider()` is `Host.provider`; a provider object that is present but falsy is not distinguished from a missing one.

## Behaviour of the code worth knowing

- The connector throws plain `Error` objects; their messages are listed in `External.Message`. A rejected request's error passes through unchanged, except a refused `DIDSession.authorize`, which becomes "User failed to sign session." (`SessionRefused`).
- The signer check is a substring test; a missing address or ENS name becomes "undefined" or "null" (`EmptyEnsNameMatches`, `NullEnsNameMatchesLiteralNull`).
- The proof stub is written into the caller's object before the types are derived and the signing request is made, so a throwing type generator, a refused signature or a failed save leaves the caller's document changed (`FailedRunDocument`, `CredentialSigning`).
