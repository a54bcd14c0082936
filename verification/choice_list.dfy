/** The editable list of voting choices (components/choice-list.tsx). */
module ChoiceList {
  import opened Strings
  import opened Seqs
  import opened Wrappers

  /** A row of the list: the identity it is keyed by and its text. */
  datatype Item = Item(id: string, text: string)

  /** The rows for the given choices: each keyed by its text followed by its position. */
  function ItemsOf(values: seq<string>): (r: seq<Item>)
    ensures |r| == |values|
    ensures forall i :: 0 <= i < |r| ==> r[i].text == values[i] && r[i].id == values[i] + NatToString(i)
  {
    seq(|values|, i requires 0 <= i < |values| => Item(values[i] + NatToString(i), values[i]))
  }

  /** The texts of the rows, in order. */
  function TextsOf(items: seq<Item>): (r: seq<string>)
    ensures |r| == |items|
    ensures forall i :: 0 <= i < |r| ==> r[i] == items[i].text
  {
    seq(|items|, i requires 0 <= i < |items| => items[i].text)
  }

  /** Building the rows and reading their texts gives the choices back. */
  lemma TextsOfItems(values: seq<string>)
    ensures TextsOf(ItemsOf(values)) == values
  {
  }

  /** `handleChange(id, text)`: every row keyed `id` takes the new text; the others keep theirs. */
  function HandleChange(items: seq<Item>, id: string, text: string): (r: seq<string>)
    ensures |r| == |items|
    ensures forall i :: 0 <= i < |r| && items[i].id == id ==> r[i] == text
    ensures forall i :: 0 <= i < |r| && items[i].id != id ==> r[i] == items[i].text
  {
    seq(|items|, i requires 0 <= i < |items| => if items[i].id == id then text else items[i].text)
  }

  /**
   * `Array.prototype.splice(start, 1)`: a negative start counts from the end, a start at or
   * past the end removes nothing.
   */
  function SpliceOne<T>(s: seq<T>, start: int): (r: seq<T>)
    ensures 0 <= start < |s| ==> r == s[..start] + s[start + 1..]
    ensures start >= |s| ==> r == s
    ensures start < 0 && |s| + start >= 0 ==> r == s[..|s| + start] + s[|s| + start + 1..]
    ensures start < 0 && |s| + start < 0 && |s| > 0 ==> r == s[1..]
  {
    var from := if start < 0 then (if |s| + start < 0 then 0 else |s| + start) else start;
    if from < |s| then s[..from] + s[from + 1..] else s
  }

  /**
   * `handleDelete(id)`: removes the first row keyed `id`. When no row has that key,
   * `findIndex` answers -1 and the splice removes the last row.
   */
  function HandleDelete(items: seq<Item>, id: string): (r: seq<string>)
    ensures var i := FindIndex(items, (it: Item) => it.id == id);
      i.Some? ==> r == TextsOf(items[..i.value] + items[i.value + 1..])
    ensures FindIndex(items, (it: Item) => it.id == id).None? && |items| > 0 ==>
      r == TextsOf(items[..|items| - 1])
    ensures |items| > 0 ==> |r| == |items| - 1
  {
    var target := match FindIndex(items, (it: Item) => it.id == id)
      case Some(i) => i as int
      case None => -1;
    TextsOf(SpliceOne(items, target))
  }

  /** `handleAdd`: the current texts followed by an empty one. */
  function HandleAdd(items: seq<Item>): (r: seq<string>)
    ensures |r| == |items| + 1 && r[..|items|] == TextsOf(items) && r[|items|] == ""
  {
    TextsOf(items) + [""]
  }

  /**
   * Only rows before the last offer Delete, so deleting through the list shortens it by one
   * and never empties it.
   */
  lemma UiDeleteKeepsOne(items: seq<Item>, row: nat)
    requires row < |items| - 1
    ensures |HandleDelete(items, items[row].id)| == |items| - 1 >= 1
  {
  }

  /** Only the last row offers Add, which appends exactly one empty choice. */
  lemma UiAddAppends(values: seq<string>)
    ensures HandleAdd(ItemsOf(values)) == values + [""]
  {
  }

  /**
   * Keys built as text followed by position can collide: "a1" at position 1 and "a" at
   * position 11 are both keyed "a11", so editing the first also rewrites the second.
   */
  lemma ChangeEditsTwoRows()
    ensures var values := ["x", "a1", "x", "x", "x", "x", "x", "x", "x", "x", "x", "a"];
      var items := ItemsOf(values);
      items[1].id == items[11].id && HandleChange(items, items[1].id, "edited")[11] == "edited"
  {
    assert NatToString(1) == "1";
    assert NatToString(11) == NatToString(1) + [DigitChar(1)];
  }

  /**
   * With the same colliding keys, Delete on the row "a" at position 11 removes "a1" at
   * position 1 instead.
   */
  lemma DeleteRemovesEarlierRow()
    ensures var values := ["x", "a1", "x", "x", "x", "x", "x", "x", "x", "x", "x", "a", "x"];
      var items := ItemsOf(values);
      HandleDelete(items, items[11].id) == values[..1] + values[2..]
  {
    var values := ["x", "a1", "x", "x", "x", "x", "x", "x", "x", "x", "x", "a", "x"];
    var items := ItemsOf(values);
    assert NatToString(1) == "1";
    assert NatToString(11) == NatToString(1) + [DigitChar(1)];
    assert items[0].id == "x0";
    assert items[1].id == items[11].id;
    assert FindIndex(items, (it: Item) => it.id == items[11].id) == Some(1);
  }

  /** The rows keyed by position alone: every row has its own key. */
  function ItemsByPosition(values: seq<string>): (r: seq<Item>)
    ensures |r| == |values|
    ensures forall i :: 0 <= i < |r| ==> r[i].text == values[i] && r[i].id == NatToString(i)
  {
    seq(|values|, i requires 0 <= i < |values| => Item(NatToString(i), values[i]))
  }

  /** A digit character records its value. */
  lemma DigitValue(d: nat)
    requires d < 10
    ensures DigitChar(d) as int - '0' as int == d
  {
  }

  /** A number of two or more digits spells its leading digits, then its last one. */
  lemma LongForm(n: nat)
    requires n >= 10
    ensures var s := NatToString(n);
      |s| >= 2 && s[..|s| - 1] == NatToString(n / 10) && s[|s| - 1] == DigitChar(n % 10)
  {
    assert |NatToString(n / 10)| >= 1;
  }

  /** Distinct positions have distinct decimal forms. */
  lemma {:induction false} NatToStringInjective(a: nat, b: nat)
    requires NatToString(a) == NatToString(b)
    ensures a == b
  {
    if a < 10 && b < 10 {
      DigitValue(a);
      DigitValue(b);
    } else if a < 10 {
      LongForm(b);
    } else if b < 10 {
      LongForm(a);
    } else {
      LongForm(a);
      LongForm(b);
      DigitValue(a % 10);
      DigitValue(b % 10);
      NatToStringInjective(a / 10, b / 10);
    }
  }

  /** With keys by position, editing a row changes that row and no other. */
  lemma ChangeByPositionEditsOneRow(values: seq<string>, row: nat, text: string)
    requires row < |values|
    ensures var r := HandleChange(ItemsByPosition(values), NatToString(row), text);
      |r| == |values| && r[row] == text
      && forall i :: 0 <= i < |values| && i != row ==> r[i] == values[i]
  {
    var items := ItemsByPosition(values);
    forall i | 0 <= i < |values| && i != row
      ensures items[i].id != NatToString(row)
    {
      if items[i].id == NatToString(row) {
        NatToStringInjective(i, row);
      }
    }
  }

  /** With keys by position, the first row keyed by a position's decimal form is that row. */
  lemma FirstKeyedByPosition(values: seq<string>, row: nat)
    requires row < |values|
    ensures FindIndex(ItemsByPosition(values), (it: Item) => it.id == NatToString(row)) == Some(row)
  {
    var items := ItemsByPosition(values);
    forall i | 0 <= i < row
      ensures items[i].id != NatToString(row)
    {
      if items[i].id == NatToString(row) {
        NatToStringInjective(i, row);
      }
    }
  }

  /** Reading the texts after removing a row is removing that text. */
  lemma TextsOfRemoval(items: seq<Item>, row: nat)
    requires row < |items|
    ensures TextsOf(items[..row] + items[row + 1..]) == TextsOf(items)[..row] + TextsOf(items)[row + 1..]
  {
    var kept := items[..row] + items[row + 1..];
    var texts := TextsOf(items);
    forall k | 0 <= k < |kept|
      ensures TextsOf(kept)[k] == (texts[..row] + texts[row + 1..])[k]
    {
      if k < row {
        assert kept[k] == items[k];
      } else {
        assert kept[k] == items[k + 1];
      }
    }
  }

  /** With keys by position, Delete on a row removes that row and keeps the others in order. */
  lemma DeleteByPositionRemovesThatRow(values: seq<string>, row: nat)
    requires row < |values|
    ensures HandleDelete(ItemsByPosition(values), NatToString(row)) == values[..row] + values[row + 1..]
  {
    var items := ItemsByPosition(values);
    FirstKeyedByPosition(values, row);
    TextsOfRemoval(items, row);
    assert TextsOf(items) == values;
  }
}
