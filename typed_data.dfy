/** The EIP-712 typed-data payload and the EthereumEip712Signature2021 proof
    the connector attaches to a credential or presentation. */
module TypedData {
  import opened Values
  import opened JsParseInt

  /** One member of an EIP-712 struct type: `{name, type}`. */
  datatype TypeMember = TypeMember(name: string, typeName: string)

  /** The `types` record of EIP-712: each struct name with its ordered members. */
  type Types = map<string, seq<TypeMember>>

  /** The EIP-712 domain: `{chainId, name, version}`. */
  datatype Domain = Domain(chainId: Number, name: string, version: string)

  /** `proof.eip712`: what a verifier needs to rebuild the signed payload. */
  datatype Eip712Info = Eip712Info(domain: Domain, types: Types, primaryType: string)

  /** The `proof` member. `created` is absent when the document has no
      `issuanceDate`; `proofValue` and `eip712` are absent until signing. */
  datatype Proof = Proof(
    verificationMethod: string,
    created: Option<Json>,
    proofPurpose: string,
    proofType: string,
    proofValue: Option<string>,
    eip712: Option<Eip712Info>)

  /** A credential or presentation document as a value: every own property
      except `proof`, and the proof. */
  datatype DocValue = DocValue(members: map<string, Json>, proof: Option<Proof>)

  /** The object `{domain, types, message, primaryType}` that is serialised
      and handed to `eth_signTypedData_v4`. */
  datatype Payload = Payload(domain: Domain, types: Types, message: DocValue, primaryType: string)

  const CredentialType := "VerifiableCredential"
  const PresentationType := "VerifiablePresentation"
  const ProofSuite := "EthereumEip712Signature2021"
  const AssertionMethod := "assertionMethod"
  const DomainVersion := "1"

  /** The value a document member holds, absent when it is undefined. */
  function Lookup(members: map<string, Json>, key: string): Option<Json>
  {
    if key in members then Some(members[key]) else None
  }

  /** The proof assigned before signing: the signer's controller key,
      the issuance date, and no signature yet. */
  function ProofStub(signer: string, created: Option<Json>): Proof
  {
    Proof(signer + "#controller", created, AssertionMethod, ProofSuite, None, None)
  }

  /** The domain both signing paths build; its name is the primary type. */
  function SigningDomain(chainId: Number, primaryType: string): Domain
  {
    Domain(chainId, primaryType, DomainVersion)
  }
}
