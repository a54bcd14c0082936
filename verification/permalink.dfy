/** Permalinks of stored documents (src/utils/permalink.ts): a transaction id behind `ar://`. */
module Permalink {
  import opened Strings

  const PREFIX := "ar://"
  const EXPLORER := "https://viewblock.io/arweave/tx/"

  /** `id2Permalink`: the id behind the `ar://` scheme. */
  function Id2Permalink(id: string): (r: string)
    ensures StartsWith(r, PREFIX)
    ensures |r| == |id| + 5
    ensures r[5..] == id
  {
    PREFIX + id
  }

  /**
   * `permalink2Id`: strips one leading `ar://` (the regular expression is anchored at the
   * start and not global); any other string is returned unchanged.
   */
  function Permalink2Id(permalink: string): (r: string)
    ensures StartsWith(permalink, PREFIX) ==> PREFIX + r == permalink
    ensures !StartsWith(permalink, PREFIX) ==> r == permalink
  {
    if StartsWith(permalink, PREFIX) then permalink[|PREFIX|..] else permalink
  }

  /** `permalink2Explorer`: the block-explorer page of the permalink's transaction. */
  function Permalink2Explorer(permalink: string): (r: string)
    ensures StartsWith(r, EXPLORER)
    ensures r[|EXPLORER|..] == Permalink2Id(permalink)
  {
    EXPLORER + Permalink2Id(permalink)
  }

  /** Turning an id into a permalink and back gives the id. */
  lemma IdRoundTrip(id: string)
    ensures Permalink2Id(Id2Permalink(id)) == id
  {
    assert (PREFIX + id)[|PREFIX|..] == id;
  }

  /** Turning a permalink into an id and back gives the permalink. */
  lemma PermalinkRoundTrip(permalink: string)
    requires StartsWith(permalink, PREFIX)
    ensures Id2Permalink(Permalink2Id(permalink)) == permalink
  {
  }

  /** Only the first of two prefixes is stripped. */
  lemma StripsOnePrefix(x: string)
    ensures Permalink2Id(PREFIX + PREFIX + x) == PREFIX + x
  {
    assert StartsWith(PREFIX + PREFIX + x, PREFIX) by {
      assert (PREFIX + PREFIX + x)[..|PREFIX|] == PREFIX;
    }
    assert (PREFIX + PREFIX + x)[|PREFIX|..] == PREFIX + x;
  }

  /** The explorer page of a permalink built from an id names that id. */
  lemma ExplorerOfId(id: string)
    ensures Permalink2Explorer(Id2Permalink(id)) == EXPLORER + id
  {
    IdRoundTrip(id);
  }
}
