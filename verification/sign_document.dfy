/** The signer side (src/hooks/use-sign-document.ts): how a document is authored and signed. */
module SignDocument {
  import opened Wrappers
  import opened Documents
  import VerifyAuthorshipProof

  /**
   * The collaborators of the signing callback, none of which is part of this model: the
   * coin type a DID is checked on, the chain's current height, and the wallet's signature.
   */
  datatype Signer = Signer(
    coinTypeOf: string -> int,
    currentSnapshot: int -> nat,
    sign: (Document, string, Option<string>) -> Proof)

  /** What the callback does: nothing without a DID, asks to connect without an address, or signs. */
  datatype SignOutcome = NoDid | ConnectRequested | Signed(document: Document)

  /** JavaScript truthiness of an optional string: present and non-empty. */
  predicate Truthy(s: Option<string>) {
    s.Some? && s.value != ""
  }

  /** The authorship record for a DID: its coin type, that chain's current height, the network. */
  function MakeAuthorship(did: string, isTestnet: bool, s: Signer): (a: Authorship)
    ensures a.author == did && a.coinType == s.coinTypeOf(did)
    ensures a.snapshot == s.currentSnapshot(s.coinTypeOf(did))
    ensures a.testnet == (if isTestnet then Some(true) else None)
  {
    var coinType := s.coinTypeOf(did);
    Authorship(did, coinType, s.currentSnapshot(coinType), if isTestnet then Some(true) else None)
  }

  /**
   * The signing callback: without a DID it returns nothing; without a connected address it
   * asks the wallet to connect and returns nothing; otherwise it signs the document together
   * with its authorship and returns the document with both authorship and proof added.
   */
  function SignDocument(did: Option<string>, template: Option<string>, address: Option<string>,
                        document: Document, isTestnet: bool, s: Signer): (r: SignOutcome)
    ensures !Truthy(did) <==> r == NoDid
    ensures Truthy(did) && !Truthy(address) <==> r == ConnectRequested
    ensures r.Signed? ==> Authorized(r.document) && Proved(r.document)
    ensures r.Signed? ==> r.document.Keys == document.Keys + {AUTHORSHIP, PROOF}
    ensures r.Signed? ==>
      forall k :: k in document && k != AUTHORSHIP && k != PROOF ==> r.document[k] == document[k]
    ensures r.Signed? ==> r.document[AUTHORSHIP].authorship == MakeAuthorship(did.value, isTestnet, s)
    ensures r.Signed? ==>
      r.document[PROOF].proof == s.sign(document[AUTHORSHIP := r.document[AUTHORSHIP]], address.value, template)
  {
    if !Truthy(did) then NoDid
    else if !Truthy(address) then ConnectRequested
    else
      var authorship := MakeAuthorship(did.value, isTestnet, s);
      var payload := document[AUTHORSHIP := AuthorshipValue(authorship)];
      var proof := s.sign(payload, address.value, template);
      Signed(payload[PROOF := ProofValue(proof)])
  }

  /** A document signed on a network never fails the network check on the same network. */
  lemma NetworkFlagRoundTrip(did: string, isTestnet: bool, s: Signer)
    ensures VerifyAuthorshipProof.ClaimsTestnet(MakeAuthorship(did, isTestnet, s)) == isTestnet
  {
  }

  /**
   * Signing and then verifying on the same network: the verifier checks the proof against
   * exactly the document the wallet signed, and the outcome is decided by the two
   * cryptographic checks alone.
   */
  lemma SignThenVerify(did: string, template: Option<string>, address: string,
                       document: Document, isTestnet: bool, s: Signer,
                       v: VerifyAuthorshipProof.Verifiers)
    requires did != "" && address != ""
    requires PROOF !in document
    ensures var r := SignDocument(Some(did), template, Some(address), document, isTestnet, s);
      && r.Signed?
      && var a := MakeAuthorship(did, isTestnet, s);
         var payload := document[AUTHORSHIP := AuthorshipValue(a)];
         var p := s.sign(payload, address, template);
         && r.document - {PROOF} == payload
         && VerifyAuthorshipProof.VerifyAuthorshipProof(r.document, isTestnet, v) ==
            (if !v.verifyDocument(payload, p) then Failure(VerifyAuthorshipProof.InvalidAuthorAddress)
             else if !v.checkDidAuthor(a, p) then Failure(VerifyAuthorshipProof.ProofOfDidInvalid)
             else Success((a, p)))
  {
    var r := SignDocument(Some(did), template, Some(address), document, isTestnet, s);
    var a := MakeAuthorship(did, isTestnet, s);
    var payload := document[AUTHORSHIP := AuthorshipValue(a)];
    assert r.document == payload[PROOF := ProofValue(s.sign(payload, address, template))];
    assert r.document - {PROOF} == payload;
  }

  /** Signed on one network and verified on the other, a document is always rejected as a mismatch. */
  lemma CrossNetworkRejected(did: string, template: Option<string>, address: string,
                             document: Document, isTestnet: bool, s: Signer,
                             v: VerifyAuthorshipProof.Verifiers)
    requires did != "" && address != ""
    ensures var r := SignDocument(Some(did), template, Some(address), document, isTestnet, s);
      r.Signed? && VerifyAuthorshipProof.VerifyAuthorshipProof(r.document, !isTestnet, v)
        == Failure(VerifyAuthorshipProof.MainnetTestnetMismatch)
  {
  }
}
