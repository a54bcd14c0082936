/**
 * Signed documents: a JSON object that gains an `authorship` record and then a `proof`
 * (src/utils/schemas/authorship and src/utils/schemas/proof, which are not part of this
 * model beyond the fields used here).
 */
module Documents {
  import opened Wrappers
  import opened JsonValue

  /**
   * Who signed, on which chain and at which height the DID was resolved, and whether the
   * document was signed on testnet (`testnet` is left out on mainnet).
   */
  datatype Authorship = Authorship(author: string, coinType: int, snapshot: nat, testnet: Option<bool>)

  /** A signature over a document; its contents are checked only by the signature oracles. */
  datatype Proof = Proof(signature: string)

  /** A member of a document: plain JSON data, or one of the two records signing adds. */
  datatype Value =
    | Data(json: Json)
    | AuthorshipValue(authorship: Authorship)
    | ProofValue(proof: Proof)

  /** A document is an object: its members by key. */
  type Document = map<string, Value>

  const AUTHORSHIP := "authorship"
  const PROOF := "proof"

  /** `Authorized<T>`: the document carries an authorship record. */
  predicate Authorized(d: Document) {
    AUTHORSHIP in d && d[AUTHORSHIP].AuthorshipValue?
  }

  /** `Proved<T>`: the document carries a proof. */
  predicate Proved(d: Document) {
    PROOF in d && d[PROOF].ProofValue?
  }
}
