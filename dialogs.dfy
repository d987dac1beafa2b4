/// FileInfoDialog.FormatAttributes: the one-letter attribute column of the
/// file information dialog.
module Dialogs {

  /** FileAttribute flag values, as in the FAT family's attribute byte. */
  const ReadOnly: bv8 := 0x01
  const Hidden: bv8 := 0x02
  const System: bv8 := 0x04
  const Directory: bv8 := 0x10
  const Archive: bv8 := 0x20

  /** Enum.HasFlag: every bit of `flag` is set in `attributes`. */
  predicate HasFlag(attributes: bv8, flag: bv8) {
    attributes & flag == flag
  }

  /**
   * The if/else-if chain of FormatAttributes: the letter of the first set
   * flag in the order Archive, Directory, Hidden, ReadOnly, System, or the
   * empty string when none of the five is set.
   */
  function FormatAttributes(attributes: bv8): (r: string)
    ensures |r| <= 1
    ensures HasFlag(attributes, Archive) ==> r == "A"
    ensures !HasFlag(attributes, Archive) && HasFlag(attributes, Directory) ==> r == "D"
    ensures r == "" <==> !HasFlag(attributes, Archive) && !HasFlag(attributes, Directory) &&
                         !HasFlag(attributes, Hidden) && !HasFlag(attributes, ReadOnly) &&
                         !HasFlag(attributes, System)
  {
    if HasFlag(attributes, Archive) then "A"
    else if HasFlag(attributes, Directory) then "D"
    else if HasFlag(attributes, Hidden) then "H"
    else if HasFlag(attributes, ReadOnly) then "R"
    else if HasFlag(attributes, System) then "S"
    else ""
  }

  /** The flags the dialog shows, highest priority first, with their letters. */
  const Priority: seq<(bv8, char)> :=
    [(Archive, 'A'), (Directory, 'D'), (Hidden, 'H'), (ReadOnly, 'R'), (System, 'S')]

  /** Reference definition: the letter of the first flag of `flags` that is set. */
  function FirstSetFlag(attributes: bv8, flags: seq<(bv8, char)>): (r: string)
    ensures |r| <= 1
    ensures |r| == 1 ==> exists i :: 0 <= i < |flags| && r[0] == flags[i].1
  {
    if flags == [] then ""
    else if HasFlag(attributes, flags[0].0) then [flags[0].1]
    else FirstSetFlag(attributes, flags[1..])
  }

  /** FirstSetFlag picks entry k exactly when flag k is set and no earlier one is. */
  lemma {:induction false} FirstSetFlagIs(attributes: bv8, flags: seq<(bv8, char)>, k: nat)
    requires k < |flags|
    requires forall i, j :: 0 <= i < j < |flags| ==> flags[i].1 != flags[j].1
    ensures FirstSetFlag(attributes, flags) == [flags[k].1] <==>
              HasFlag(attributes, flags[k].0) && forall j :: 0 <= j < k ==> !HasFlag(attributes, flags[j].0)
  {
    if HasFlag(attributes, flags[0].0) {
      if k > 0 {
        assert flags[0].1 != flags[k].1;
      }
    } else if k == 0 {
      var r := FirstSetFlag(attributes, flags[1..]);
      if |r| == 1 {
        var i :| 0 <= i < |flags[1..]| && r[0] == flags[1..][i].1;
        assert flags[1..][i] == flags[i + 1];
      }
    } else {
      var rest := flags[1..];
      assert forall i, j :: 0 <= i < j < |rest| ==> rest[i].1 != rest[j].1 by {
        forall i, j | 0 <= i < j < |rest| ensures rest[i].1 != rest[j].1 {
          assert rest[i] == flags[i + 1] && rest[j] == flags[j + 1];
        }
      }
      FirstSetFlagIs(attributes, rest, k - 1);
      assert rest[k - 1] == flags[k];
      assert forall j :: 0 < j < k ==> flags[j] == rest[j - 1];
      assert (forall j :: 0 <= j < k ==> !HasFlag(attributes, flags[j].0)) <==>
             (forall j :: 0 <= j < k - 1 ==> !HasFlag(attributes, rest[j].0));
    }
  }

  /** The if/else-if chain is the priority list read front to back. */
  lemma FormatAttributesIsFirstSetFlag(attributes: bv8)
    ensures FormatAttributes(attributes) == FirstSetFlag(attributes, Priority)
  {
    var p1 := Priority[1..];
    var p2 := p1[1..];
    var p3 := p2[1..];
    var p4 := p3[1..];
    assert p4 == [(System, 'S')] && p4[1..] == [];
    assert FirstSetFlag(attributes, p4) == if HasFlag(attributes, System) then "S" else "";
    assert FirstSetFlag(attributes, p3) ==
      if HasFlag(attributes, ReadOnly) then "R" else FirstSetFlag(attributes, p4);
    assert FirstSetFlag(attributes, p2) ==
      if HasFlag(attributes, Hidden) then "H" else FirstSetFlag(attributes, p3);
    assert FirstSetFlag(attributes, p1) ==
      if HasFlag(attributes, Directory) then "D" else FirstSetFlag(attributes, p2);
  }

  /**
   * A letter shows exactly when its flag is set and every flag of higher
   * priority is clear.
   */
  lemma FormatAttributesPriority(attributes: bv8, k: nat)
    requires k < |Priority|
    ensures FormatAttributes(attributes) == [Priority[k].1] <==>
              HasFlag(attributes, Priority[k].0) && forall j :: 0 <= j < k ==> !HasFlag(attributes, Priority[j].0)
  {
    FormatAttributesIsFirstSetFlag(attributes);
    FirstSetFlagIs(attributes, Priority, k);
  }
}
