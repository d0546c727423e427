/** One row of the status table (internal/ui/ui.go, PrintResourceRow).
    A Go string is a sequence of bytes; here each element of a `string`
    stands for one byte, so lengths and slices are byte lengths and byte
    slices as in the source. */
module Ui {

  const CellWidth := 26
  const KeptBytes := 23
  const Ellipsis := "..."
  const NoneCell := "None"
  const Separator := ", "

  /** strings.Join */
  function JoinWith(elems: seq<string>, sep: string): string {
    if |elems| == 0 then ""
    else if |elems| == 1 then elems[0]
    else elems[0] + sep + JoinWith(elems[1..], sep)
  }

  /** The sum of the lengths of the elements. */
  function TotalLength(elems: seq<string>): nat {
    if elems == [] then 0 else |elems[0]| + TotalLength(elems[1..])
  }

  /** A join is as long as its elements plus one separator between each pair. */
  lemma {:induction false} JoinLength(elems: seq<string>, sep: string)
    requires elems != []
    ensures |JoinWith(elems, sep)| == TotalLength(elems) + |sep| * (|elems| - 1)
  {
    if |elems| > 1 {
      JoinLength(elems[1..], sep);
    }
  }

  /** A join starts with its first element. */
  lemma JoinStartsWithFirst(elems: seq<string>, sep: string)
    requires elems != []
    ensures |elems[0]| <= |JoinWith(elems, sep)|
    ensures JoinWith(elems, sep)[..|elems[0]|] == elems[0]
  {
    if |elems| > 1 {
      assert JoinWith(elems, sep) == elems[0] + (sep + JoinWith(elems[1..], sep));
    }
  }

  /** The IDs column: "None" for no IDs, else the ", "-join, cut to its
      first 23 bytes and "..." when it is longer than the 26-byte cell. */
  function IdCell(ids: seq<string>): (cell: string)
    ensures |cell| <= CellWidth
    ensures ids == [] ==> cell == NoneCell
    ensures ids != [] && |JoinWith(ids, Separator)| <= CellWidth ==> cell == JoinWith(ids, Separator)
    ensures ids != [] && |JoinWith(ids, Separator)| > CellWidth ==>
              |cell| == CellWidth && cell == JoinWith(ids, Separator)[..KeptBytes] + Ellipsis
  {
    if |ids| == 0 then NoneCell
    else
      var joined := JoinWith(ids, Separator);
      if |joined| > CellWidth then joined[..KeptBytes] + Ellipsis else joined
  }

  /** IDs whose lengths and separators fit the cell are shown in full. */
  lemma ShortListShownWhole(ids: seq<string>)
    requires ids != []
    requires TotalLength(ids) + |Separator| * (|ids| - 1) <= CellWidth
    ensures IdCell(ids) == JoinWith(ids, Separator)
  {
    JoinLength(ids, Separator);
  }

  /** Whatever is cut, the cell's first bytes are the join's first bytes. */
  lemma CellIsPrefixOfJoin(ids: seq<string>, k: nat)
    requires ids != [] && k <= KeptBytes && k <= |IdCell(ids)|
    ensures k <= |JoinWith(ids, Separator)|
    ensures IdCell(ids)[..k] == JoinWith(ids, Separator)[..k]
  {
  }

  /** A first ID of at most 23 bytes is always visible in full at the
      start of the cell. */
  lemma FirstIdVisible(ids: seq<string>)
    requires ids != [] && |ids[0]| <= KeptBytes
    ensures |ids[0]| <= |IdCell(ids)| && IdCell(ids)[..|ids[0]|] == ids[0]
  {
    JoinStartsWithFirst(ids, Separator);
    CellIsPrefixOfJoin(ids, |ids[0]|);
  }

  datatype Colour = Green | Yellow

  /** What PrintResourceRow prints: the label, the count in its colour, and
      the IDs cell. */
  datatype Row = Row(resourceType: string, count: nat, colour: Colour, ids: string)

  function ResourceRow(resourceType: string, resources: seq<string>): (row: Row)
    ensures row.resourceType == resourceType
    ensures row.count == |resources|
    ensures row.colour == Yellow <==> resources == []
    ensures row.ids == IdCell(resources) && |row.ids| <= CellWidth
  {
    var count := |resources|;
    var ids := IdCell(resources);
    var col := if count == 0 then Yellow else Green;
    Row(resourceType, count, col, ids)
  }

  /** A single ID "None" fills the cell exactly as no IDs do; only the count
      and its colour tell the two rows apart. */
  lemma NoneIdLooksLikeEmpty(resourceType: string)
    ensures ResourceRow(resourceType, ["None"]).ids == ResourceRow(resourceType, []).ids
    ensures ResourceRow(resourceType, ["None"]).count != ResourceRow(resourceType, []).count
    ensures ResourceRow(resourceType, ["None"]).colour != ResourceRow(resourceType, []).colour
  {
    assert JoinWith(["None"], Separator) == "None";
  }
}
