/** The `exact_did` proposer-liberty function (src/functions/proposer-liberty/exact-did.ts). */
module ExactDidLiberty {

  /**
   * What a proposer-liberty function produces from its arguments: the coin types whose
   * snapshots it needs, and the check of a DID at a snapshot.
   */
  datatype LibertyCheck = LibertyCheck(
    requiredCoinTypes: seq<int>,
    execute: (string, nat) -> bool)

  /**
   * `exact_did(list)`: grants liberty to exactly the DIDs of `list`, needs no snapshot, and
   * never looks at the snapshot it is given.
   */
  function ExactDid(list: seq<string>): (r: LibertyCheck)
    ensures r.requiredCoinTypes == []
    ensures forall did, snapshot :: r.execute(did, snapshot) <==> did in list
  {
    var allowed := set did | did in list;
    LibertyCheck([], (did, snapshot) => did in allowed)
  }

  /** Two lists holding the same DIDs, in any order and with any repetition, grant alike. */
  lemma ExactDidIgnoresOrderAndRepetition(l1: seq<string>, l2: seq<string>, did: string, snapshot: nat)
    requires forall d :: d in l1 <==> d in l2
    ensures ExactDid(l1).execute(did, snapshot) == ExactDid(l2).execute(did, snapshot)
  {
  }

  /** The answer for a DID is the same at every snapshot, and an empty list denies everyone. */
  lemma ExactDidSnapshotFree(list: seq<string>, did: string, s1: nat, s2: nat)
    ensures ExactDid(list).execute(did, s1) == ExactDid(list).execute(did, s2)
    ensures list == [] ==> !ExactDid(list).execute(did, s1)
  {
  }
}
