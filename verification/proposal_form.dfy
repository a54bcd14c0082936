/**
 * The list logic of the proposal form (src/components/proposal-from.tsx): editing the
 * options, collecting the coin types whose snapshots a proposal needs, and offering the
 * DIDs that may propose.
 */
module ProposalForm {
  import opened Wrappers
  import opened Seqs

  /** The options a new proposal starts with. */
  const DEFAULT_OPTIONS: seq<string> := ["", ""]

  /** The elements of `s` at every position except `index`, in order. */
  function KeepOthers<T>(s: seq<T>, index: int): (r: seq<T>)
    ensures 0 <= index < |s| ==> r == s[..index] + s[index + 1..]
    ensures !(0 <= index < |s|) ==> r == s
  {
    if |s| == 0 then []
    else if index == 0 then s[1..]
    else
      var rest := KeepOthers(s[1..], index - 1);
      assert 0 <= index - 1 < |s[1..]| ==> [s[0]] + s[1..][..index - 1] == s[..index];
      [s[0]] + rest
  }

  /**
   * `handleOptionDelete(index)`: drops the option at `index` and keeps the others in order;
   * when nothing would be left, a single empty option remains.
   */
  function HandleOptionDelete(options: seq<string>, index: int): (r: seq<string>)
    ensures |r| >= 1
    ensures 0 <= index < |options| && |options| > 1 ==> r == options[..index] + options[index + 1..]
    ensures 0 <= index < |options| && |options| == 1 ==> r == [""]
    ensures !(0 <= index < |options|) && |options| > 0 ==> r == options
    ensures |options| == 0 ==> r == [""]
  {
    var kept := KeepOthers(options, index);
    if |kept| > 0 then kept else [""]
  }

  /** The Add button: one more, empty, option at the end. */
  function AddOption(options: seq<string>): (r: seq<string>)
    ensures |r| == |options| + 1 && r[..|options|] == options && r[|options|] == ""
  {
    options + [""]
  }

  /** Removing the option just added gives the options back. */
  lemma DeleteUndoesAdd(options: seq<string>)
    requires |options| >= 1
    ensures HandleOptionDelete(AddOption(options), |options|) == options
  {
    assert AddOption(options)[..|options|] == options;
  }

  /**
   * The Remove button is shown only while there are more than two options, so removing
   * through the form shortens the list by one and never below two.
   */
  lemma RemoveButtonKeepsTwo(options: seq<string>, index: int)
    requires |options| > 2 && 0 <= index < |options|
    ensures |HandleOptionDelete(options, index)| == |options| - 1 >= 2
  {
  }

  /** lodash `uniq`: the values of `s` without repetitions, each kept at its first occurrence. */
  function Uniq(s: seq<int>): (r: seq<int>)
    ensures NoDuplicates(r)
    ensures forall c :: c in r <==> c in s
  {
    if |s| == 0 then []
    else
      var init := Uniq(s[..|s| - 1]);
      var last := s[|s| - 1];
      assert s == s[..|s| - 1] + [last];
      if last in init then init else init + [last]
  }

  /**
   * The coin types to fetch snapshots for: the chosen DID's coin type, when a DID is
   * chosen, followed by those the proposing policy requires, without repetitions.
   */
  function RequiredCoinTypes(did: string, coinTypeOf: string -> int, policyCoinTypes: seq<int>): (r: seq<int>)
    ensures NoDuplicates(r)
    ensures forall c :: c in r <==> (did != "" && c == coinTypeOf(did)) || c in policyCoinTypes
  {
    var all := (if did != "" then [coinTypeOf(did)] else []) + policyCoinTypes;
    assert forall c :: c in all <==> (did != "" && c == coinTypeOf(did)) || c in policyCoinTypes;
    Uniq(all)
  }

  /**
   * The `reduce` into an object: the i-th snapshot stored under the i-th coin type, a later
   * entry overwriting an earlier one with the same coin type.
   */
  method SnapshotMap(coinTypes: seq<int>, snapshots: seq<nat>) returns (m: map<int, nat>)
    requires |coinTypes| == |snapshots|
    ensures m.Keys == set c | c in coinTypes
    ensures forall i :: 0 <= i < |coinTypes| && (forall k :: i < k < |coinTypes| ==> coinTypes[k] != coinTypes[i]) ==>
      m[coinTypes[i]] == snapshots[i]
  {
    m := map[];
    var i := 0;
    while i < |coinTypes|
      invariant 0 <= i <= |coinTypes|
      invariant m.Keys == set c | c in coinTypes[..i]
      invariant forall j :: 0 <= j < i && (forall k :: j < k < i ==> coinTypes[k] != coinTypes[j]) ==>
        m[coinTypes[j]] == snapshots[j]
    {
      assert coinTypes[..i + 1] == coinTypes[..i] + [coinTypes[i]];
      m := m[coinTypes[i] := snapshots[i]];
      i := i + 1;
    }
    assert coinTypes[..i] == coinTypes;
  }

  /**
   * The snapshot query: the required coin types, the current height of each (fetched in
   * order, one per coin type), and the map from coin type to height.
   */
  method CurrentSnapshots(did: string, coinTypeOf: string -> int, policyCoinTypes: seq<int>,
                          currentSnapshot: int -> nat) returns (m: map<int, nat>)
    ensures forall c :: c in m <==> (did != "" && c == coinTypeOf(did)) || c in policyCoinTypes
    ensures forall c :: c in m ==> m[c] == currentSnapshot(c)
  {
    var coinTypes := RequiredCoinTypes(did, coinTypeOf, policyCoinTypes);
    var snapshots := seq(|coinTypes|, i requires 0 <= i < |coinTypes| => currentSnapshot(coinTypes[i]));
    m := SnapshotMap(coinTypes, snapshots);
  }

  /** A DID offered as proposer, with whether it is disabled. */
  datatype DidOption = DidOption(did: string, disabled: bool)

  /**
   * The `disables` query: for each DID, whether it fails the proposing policy; the policy
   * check per DID is not part of this model.
   */
  function Disables(dids: seq<string>, check: string -> bool): (r: map<string, bool>)
    ensures r.Keys == set d | d in dids
    ensures forall d :: d in r ==> r[d] == !check(d)
  {
    if |dids| == 0 then map[]
    else
      var init := dids[..|dids| - 1];
      assert dids == init + [dids[|dids| - 1]];
      Disables(init, check)[dids[|dids| - 1] := !check(dids[|dids| - 1])]
  }

  /** A DID absent from `disables` reads as `undefined`, which is not disabled. */
  function IsDisabled(disables: map<string, bool>, did: string): bool {
    did in disables && disables[did]
  }

  /** `didOptions`: the DIDs, in order, that are not disabled. */
  function DidOptions(dids: seq<string>, disables: map<string, bool>): (r: seq<DidOption>)
    ensures |r| <= |dids|
    ensures forall k :: 0 <= k < |r| ==> !r[k].disabled && r[k].did in dids && !IsDisabled(disables, r[k].did)
  {
    if |dids| == 0 then []
    else
      (if IsDisabled(disables, dids[0]) then [] else [DidOption(dids[0], false)])
      + DidOptions(dids[1..], disables)
  }

  /** The DIDs of a list of options. */
  function DidsOf(options: seq<DidOption>): (r: seq<string>)
    ensures |r| == |options|
    ensures forall k :: 0 <= k < |r| ==> r[k] == options[k].did
  {
    seq(|options|, k requires 0 <= k < |options| => options[k].did)
  }

  /** The DIDs offered are exactly those passing the policy, in their original order. */
  lemma EligibleDids(dids: seq<string>, check: string -> bool)
    ensures DidsOf(DidOptions(dids, Disables(dids, check))) == Filter(dids, check)
  {
    EligibleUnder(dids, Disables(dids, check), check);
  }

  /** Offering under any map that records each DID's failure gives the passing DIDs. */
  lemma {:induction false} EligibleUnder(dids: seq<string>, disables: map<string, bool>, check: string -> bool)
    requires forall k :: 0 <= k < |dids| ==> dids[k] in disables && disables[dids[k]] == !check(dids[k])
    ensures DidsOf(DidOptions(dids, disables)) == Filter(dids, check)
  {
    if |dids| > 0 {
      EligibleUnder(dids[1..], disables, check);
      var head := if IsDisabled(disables, dids[0]) then [] else [DidOption(dids[0], false)];
      assert DidOptions(dids, disables) == head + DidOptions(dids[1..], disables);
      assert DidsOf(head + DidOptions(dids[1..], disables)) == DidsOf(head) + DidsOf(DidOptions(dids[1..], disables));
    }
  }

  /** `defaultDid`: the first option that is not disabled, or the empty DID when there is none. */
  function DefaultDid(options: Option<seq<DidOption>>): (r: string)
    ensures options.None? ==> r == ""
    ensures options.Some? && (forall k :: 0 <= k < |options.value| ==> options.value[k].disabled) ==> r == ""
    ensures options.Some? ==>
      forall k ::
        (0 <= k < |options.value| && !options.value[k].disabled
         && forall j :: 0 <= j < k ==> options.value[j].disabled)
        ==> r == options.value[k].did
  {
    match options
    case None => ""
    case Some(opts) =>
      match FindIndex(opts, (o: DidOption) => !o.disabled)
      case Some(i) => opts[i].did
      case None => ""
  }

  /** The default proposer is the first DID passing the policy, or none. */
  lemma DefaultIsFirstEligible(dids: seq<string>, check: string -> bool)
    ensures var opts := DidOptions(dids, Disables(dids, check));
      DefaultDid(Some(opts)) == (if |Filter(dids, check)| > 0 then Filter(dids, check)[0] else "")
  {
    EligibleDids(dids, check);
  }
}
