/** The searchable DID picker (src/components/basic/combobox.tsx). */
module Combobox {
  import opened Strings
  import opened Seqs

  /** A choice of the picker: a DID and whether it is greyed out. */
  datatype Choice = Choice(did: string, disabled: bool)

  /**
   * The options shown for the text typed so far: all of them while nothing is typed, otherwise
   * those whose lowered DID contains the lowered query. `lower` is the platform's
   * `toLowerCase`.
   */
  function FilteredOptions(options: seq<Choice>, query: string, lower: string -> string): (r: seq<Choice>)
    ensures query == "" ==> r == options
    ensures forall o :: o in r <==> o in options && (query == "" || Contains(lower(o.did), lower(query)))
  {
    if query == "" then options
    else Filter(options, (o: Choice) => Contains(lower(o.did), lower(query)))
  }

  /** Filtering keeps the options in their order and never invents or duplicates one. */
  lemma FilteredIsSubsequence(options: seq<Choice>, query: string, lower: string -> string)
    ensures IsSubsequence(FilteredOptions(options, query, lower), options)
  {
    if query != "" {
      FilterIsSubsequence(options, (o: Choice) => Contains(lower(o.did), lower(query)));
    } else {
      SubsequenceRefl(options);
    }
  }

  /** Two non-empty queries that lower to the same text show the same options. */
  lemma CaseInsensitive(options: seq<Choice>, q1: string, q2: string, lower: string -> string)
    requires q1 != "" && q2 != "" && lower(q1) == lower(q2)
    ensures FilteredOptions(options, q1, lower) == FilteredOptions(options, q2, lower)
  {
  }

  /** A typed query that no lowered DID contains leaves the list empty, so no menu opens. */
  lemma NoMatchHidesMenu(options: seq<Choice>, query: string, lower: string -> string)
    requires query != ""
    requires forall k :: 0 <= k < |options| ==> !Contains(lower(options[k].did), lower(query))
    ensures FilteredOptions(options, query, lower) == []
  {
  }
}
