/** Verification of a signed document's authorship (src/utils/verifiers/verify-authorship-proof.ts). */
module VerifyAuthorshipProof {
  import opened Wrappers
  import opened Documents

  /**
   * The cryptographic checks, which are not part of this model: whether the proof is a
   * valid signature of the document, and whether the DID resolves to the signing address.
   */
  datatype Verifiers = Verifiers(
    verifyDocument: (Document, Proof) -> bool,
    checkDidAuthor: (Authorship, Proof) -> bool)

  /** The reasons a document is rejected, in the order they are checked. */
  datatype AuthorshipError = MainnetTestnetMismatch | InvalidAuthorAddress | ProofOfDidInvalid {
    /** The text of the thrown `Error`. */
    function Message(): string {
      match this
      case MainnetTestnetMismatch => "mainnet testnet mismatch"
      case InvalidAuthorAddress => "invalid author address"
      case ProofOfDidInvalid => "proof of did is invalid"
    }
  }

  /** The network a document claims to be signed on; an absent flag means mainnet. */
  function ClaimsTestnet(a: Authorship): bool {
    a.testnet.GetOr(false)
  }

  /**
   * `verifyAuthorshipProof`: the network flag must match the configured network, then the
   * proof must verify over the document with `proof` removed, then the proof must show the
   * DID's control; the first failing check decides the reason. On success the document's
   * own authorship and proof are returned.
   */
  function VerifyAuthorshipProof(document: Document, isTestnet: bool, v: Verifiers)
    : (r: Result<(Authorship, Proof), AuthorshipError>)
    requires Authorized(document) && Proved(document)
    ensures var a := document[AUTHORSHIP].authorship;
      ClaimsTestnet(a) != isTestnet ==> r == Failure(MainnetTestnetMismatch)
    ensures var a := document[AUTHORSHIP].authorship; var p := document[PROOF].proof;
      r == Failure(InvalidAuthorAddress) <==>
        ClaimsTestnet(a) == isTestnet && !v.verifyDocument(document - {PROOF}, p)
    ensures var a := document[AUTHORSHIP].authorship; var p := document[PROOF].proof;
      r == Failure(ProofOfDidInvalid) <==>
        ClaimsTestnet(a) == isTestnet && v.verifyDocument(document - {PROOF}, p) && !v.checkDidAuthor(a, p)
    ensures r.Success? ==> r.value == (document[AUTHORSHIP].authorship, document[PROOF].proof)
  {
    var proof := document[PROOF].proof;
    var rest := document - {PROOF};
    var authorship := rest[AUTHORSHIP].authorship;
    if ClaimsTestnet(authorship) != isTestnet then Failure(MainnetTestnetMismatch)
    else if !v.verifyDocument(rest, proof) then Failure(InvalidAuthorAddress)
    else if !v.checkDidAuthor(authorship, proof) then Failure(ProofOfDidInvalid)
    else Success((authorship, proof))
  }

  /** A document passes exactly when all three checks pass, whatever order they run in. */
  lemma AcceptedIffAllChecksPass(document: Document, isTestnet: bool, v: Verifiers)
    requires Authorized(document) && Proved(document)
    ensures var a := document[AUTHORSHIP].authorship; var p := document[PROOF].proof;
      VerifyAuthorshipProof(document, isTestnet, v).Success? <==>
        ClaimsTestnet(a) == isTestnet && v.verifyDocument(document - {PROOF}, p) && v.checkDidAuthor(a, p)
  {
  }
}
