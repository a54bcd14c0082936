/**
 * The editor of a workgroup's proposing policy (src/components/boolean-sets-block.tsx):
 * adding an operand, switching a filter between allowlist and all, and normalising the
 * allowlist text.
 */
module BooleanSetsBlock {
  import opened JsonValue
  import opened Strings
  import opened Seqs

  /** The policy function a new operand uses. */
  const DEFAULT_FUNCTION := "prefixes_dot_suffix_exact_match"

  /** The characters that separate allowlist entries while typing. */
  const TYPING_SEPARATORS: set<char> := {'\t', '\n', ',', ' '}

  /** One operand of the policy: a named call of a policy function. */
  datatype Operand = Operand(functionName: string, arguments: seq<Json>)

  /** The operand the Add button appends: every sub-DID of the entry, with an allowlist of one blank entry. */
  function NewOperand(entry: string): Operand {
    Operand(DEFAULT_FUNCTION, [JStr(entry), JArr([JStr("")])])
  }

  /** The Add button: appends the default operand and opens it for editing. */
  function AddOperand(operands: seq<Operand>, entry: string): (r: (seq<Operand>, nat))
    ensures |r.0| == |operands| + 1 && r.0[..|operands|] == operands
    ensures r.1 < |r.0| && r.0[r.1] == NewOperand(entry)
    ensures r.0[r.1].functionName == DEFAULT_FUNCTION && r.0[r.1].arguments[0] == JStr(entry)
  {
    (operands + [NewOperand(entry)], |operands|)
  }

  /** The two filter modes of an operand. */
  datatype Mode = Allowlist | All

  /** The mode a stored list shows as: an allowlist when it has entries. */
  function ModeOf(list: seq<string>): (m: Mode)
    ensures m == Allowlist <==> |list| > 0
  {
    if |list| > 0 then Allowlist else All
  }

  /** The list stored when a mode is chosen: one blank entry, or none. */
  function ListOf(mode: Mode): seq<string> {
    match mode
    case Allowlist => [""]
    case All => []
  }

  /** Choosing a mode and reading it back gives the chosen mode. */
  lemma ModeRoundTrip(mode: Mode)
    ensures ModeOf(ListOf(mode)) == mode
  {
  }

  /** The allowlist text as the text area shows it: one entry per line. */
  function DisplayText(list: seq<string>): string {
    Join(list, "\n")
  }

  /**
   * The text area's `onChange`: the text split at tabs, newlines, commas and spaces; the
   * stored list is never empty. The pieces, joined by spaces, are the text with every
   * separator turned into a space, so together with the count they are the text's pieces.
   */
  function OnChange(text: string): (r: seq<string>)
    ensures |r| >= 1
    ensures |r| == CountIn(text, TYPING_SEPARATORS) + 1
    ensures forall k :: 0 <= k < |r| ==> FreeOf(r[k], TYPING_SEPARATORS)
    ensures Join(r, " ") == seq(|text|, i requires 0 <= i < |text| =>
      if text[i] in TYPING_SEPARATORS then ' ' else text[i])
  {
    var pieces := Split(text, TYPING_SEPARATORS);
    JoinSplit(text, TYPING_SEPARATORS, ' ');
    if |pieces| > 0 then pieces else [""]
  }

  /** Typing a list shown one entry per line stores that list, when no entry holds a separator. */
  lemma ChangeOfDisplayed(list: seq<string>)
    requires |list| >= 1
    requires forall k :: 0 <= k < |list| ==> FreeOf(list[k], TYPING_SEPARATORS)
    ensures OnChange(DisplayText(list)) == list
  {
    SplitJoin(list, TYPING_SEPARATORS, '\n');
  }

  /**
   * Removes one trailing dot-and-suffix from a line; the suffix is matched literally (the
   * source escapes its dots before building the regular expression).
   */
  function StripSuffix(line: string, suffix: string): (r: string)
    ensures EndsWith(line, "." + suffix) ==> r + "." + suffix == line
    ensures !EndsWith(line, "." + suffix) ==> r == line
  {
    if EndsWith(line, "." + suffix) then line[..|line| - |suffix| - 1] else line
  }

  /** Each line with its suffix stripped and then trimmed; trimming is not part of this model. */
  function CleanLines(lines: seq<string>, suffix: string, trim: string -> string): (r: seq<string>)
    ensures |r| == |lines|
    ensures forall k :: 0 <= k < |r| ==> r[k] == trim(StripSuffix(lines[k], suffix))
  {
    seq(|lines|, k requires 0 <= k < |lines| => trim(StripSuffix(lines[k], suffix)))
  }

  /** Holds for a non-empty string, the values lodash `compact` keeps. */
  predicate NonEmpty(s: string) {
    s != ""
  }

  /**
   * The text area's `onBlur`: lines stripped of the suffix, trimmed, with empty ones
   * dropped; a single blank entry when nothing is left.
   */
  function OnBlur(text: string, suffix: string, trim: string -> string): (r: seq<string>)
    ensures |r| >= 1
    ensures r == [""] || forall k :: 0 <= k < |r| ==> r[k] != ""
    ensures |r| <= CountIn(text, {'\n'}) + 1
    ensures var cleaned := CleanLines(Split(text, {'\n'}), suffix, trim);
      if exists k :: 0 <= k < |cleaned| && cleaned[k] != "" then
        IsSubsequence(r, cleaned) && (forall k :: 0 <= k < |r| ==> r[k] != "")
        && |r| == |Filter(cleaned, NonEmpty)|
      else r == [""]
  {
    FilterIsSubsequence(CleanLines(Split(text, {'\n'}), suffix, trim), NonEmpty);
    var kept := Filter(CleanLines(Split(text, {'\n'}), suffix, trim), NonEmpty);
    if |kept| > 0 then kept else [""]
  }

  /**
   * A list of clean entries (non-empty, single-line, already trimmed, without the suffix)
   * survives being shown in the text area and normalised on blur.
   */
  lemma BlurOfDisplayed(list: seq<string>, suffix: string, trim: string -> string)
    requires |list| >= 1
    requires forall k :: 0 <= k < |list| ==>
      list[k] != "" && FreeOf(list[k], {'\n'}) && !EndsWith(list[k], "." + suffix) && trim(list[k]) == list[k]
    ensures OnBlur(DisplayText(list), suffix, trim) == list
  {
    SplitJoin(list, {'\n'}, '\n');
    assert Split(DisplayText(list), {'\n'}) == list;
    var cleaned := CleanLines(list, suffix, trim);
    assert cleaned == list;
    FilterAll(list, NonEmpty);
  }
}
