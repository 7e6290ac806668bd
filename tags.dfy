/** The tag list beside the transcript. Each entry is labelled with the
    history index of the last message at tagging time; the tag log file is
    not modelled. */
module Tags {

  import opened Outcomes
  import opened Text

  /** One entry of the tag list: its caption, and whether its background was
      turned red because a clarification was requested (the foreground is
      always yellow, `#f1fa8c`). */
  datatype TagItem = TagItem(caption: string, highlighted: bool)

  /** `f"{len(chat_history) - 1}: {tag}"`; the index is -1 when the
      history is empty. The label ends with ": " and the tag, and the
      number before its first colon is the index it was made for, whatever
      the tag text (even one containing digits or colons): labels of
      different indices never coincide. */
  function TagLabel(index: int, tag: string): (r: string)
    ensures |r| >= |tag| + 3 && r[|r| - |tag| - 2..] == ": " + tag
    ensures LabelIndex(r) == Some(index)
  {
    LabelIndexOfInteger(index, tag);
    IntToString(index) + ": " + tag
  }

  /** The facts `TagLabel` promises about `"<str(index)>: <tag>"`, proved
      by the sign of the index. */
  lemma LabelIndexOfInteger(index: int, tag: string)
    ensures var l := IntToString(index) + ": " + tag;
      |l| >= |tag| + 3 && l[|l| - |tag| - 2..] == ": " + tag
      && LabelIndex(l) == Some(index)
  {
    var digits := IntToString(index);
    var l := digits + ": " + tag;
    assert l == digits + (": " + tag);
    if index < 0 {
      assert digits == "-" + NatToString(-index);
      LabelIndexOfNegative(-index, tag);
    } else {
      assert digits == NatToString(index);
      LabelIndexOfNatural(index, tag);
    }
  }

  lemma LabelIndexOfNegative(n: nat, tag: string)
    requires n > 0
    ensures LabelIndex("-" + NatToString(n) + ": " + tag) == Some(-(n as int))
  {
    var l := "-" + NatToString(n) + ": " + tag;
    assert l[0] == '-';
    assert l[1..] == NatToString(n) + ": " + tag;
    NumberBeforeColonOfNumeral(n, tag);
  }

  lemma LabelIndexOfNatural(n: nat, tag: string)
    ensures LabelIndex(NatToString(n) + ": " + tag) == Some(n)
  {
    var ds := NatToString(n);
    assert (ds + ": " + tag)[0] == ds[0] && IsDigit(ds[0]);
    NumberBeforeColonOfNumeral(n, tag);
  }

  /** The number at the start of a label, read up to the first colon:
      an optional minus sign and at least one digit. */
  function LabelIndex(caption: string): Option<int> {
    if |caption| > 0 && caption[0] == '-' then
      match NumberBeforeColon(caption[1..])
      case Some(n) => Some(-(n as int))
      case None => None
    else
      match NumberBeforeColon(caption)
      case Some(n) => Some(n as int)
      case None => None
  }

  function NumberBeforeColon(s: string): Option<nat> {
    var d := LeadingDigits(s);
    if 0 < d < |s| && s[d] == ':' then Some(DigitsValue(s[..d])) else None
  }

  lemma NumberBeforeColonOfNumeral(n: nat, tag: string)
    ensures NumberBeforeColon(NatToString(n) + ": " + tag) == Some(n)
  {
    var ds := NatToString(n);
    var s := ds + ": " + tag;
    assert s == ds + (": " + tag);
    LeadingDigitsOfNumeral(ds, ": " + tag);
    assert s[..|ds|] == ds;
    NatToStringValue(n);
  }

  /** `takeItem(row)`: the list without the entry at `row`; the entries
      before it keep their positions and the ones after it move up by
      one. */
  function RemoveAt(tags: seq<TagItem>, row: nat): (r: seq<TagItem>)
    requires row < |tags|
    ensures |r| == |tags| - 1
    ensures forall k :: 0 <= k < row ==> r[k] == tags[k]
    ensures forall k :: row <= k < |r| ==> r[k] == tags[k + 1]
  {
    tags[..row] + tags[row + 1..]
  }

  /** Removing a row removes exactly one occurrence of that entry. */
  lemma RemoveAtMultiset(tags: seq<TagItem>, row: nat)
    requires row < |tags|
    ensures multiset(RemoveAt(tags, row)) + multiset{tags[row]} == multiset(tags)
  {
    assert tags == tags[..row] + [tags[row]] + tags[row + 1..];
  }
}
