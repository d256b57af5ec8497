/** The header rows of the request editor: the edits applied to the list in
    place of the old one, and the collapse of the enabled rows into the
    key/value map that is sent. */
module Headers {
  import opened Common

  datatype HeaderRow = HeaderRow(key: string, value: string, enabled: bool)

  /** The two text fields of a row the editor can change. */
  datatype HeaderField = KeyField | ValueField

  /** The row the "add header" button appends. */
  const BlankRow := HeaderRow("", "", true)

  /** `addHeader`: the list with one blank, enabled row at its end. */
  function AddRow(rows: seq<HeaderRow>): (r: seq<HeaderRow>)
    ensures |r| == |rows| + 1
    ensures r[..|rows|] == rows
    ensures r[|rows|] == BlankRow
  {
    rows + [BlankRow]
  }

  function SetField(row: HeaderRow, field: HeaderField, text: string): HeaderRow {
    match field
    case KeyField => row.(key := text)
    case ValueField => row.(value := text)
  }

  /** `updateHeader(index, field, text)`: only row `index` gets the new text in
      the named field; an index outside the list changes nothing. */
  function UpdateRow(rows: seq<HeaderRow>, index: int, field: HeaderField, text: string): (r: seq<HeaderRow>)
    ensures |r| == |rows|
    ensures forall i :: 0 <= i < |rows| && i != index ==> r[i] == rows[i]
    ensures 0 <= index < |rows| ==> r[index].enabled == rows[index].enabled
    ensures 0 <= index < |rows| && field == KeyField ==>
              r[index].key == text && r[index].value == rows[index].value
    ensures 0 <= index < |rows| && field == ValueField ==>
              r[index].value == text && r[index].key == rows[index].key
    ensures !(0 <= index < |rows|) ==> r == rows
  {
    seq(|rows|, i requires 0 <= i < |rows| => if i == index then SetField(rows[i], field, text) else rows[i])
  }

  /** `toggleHeader(index)`: only row `index` has its enabled flag flipped. */
  function ToggleRow(rows: seq<HeaderRow>, index: int): (r: seq<HeaderRow>)
    ensures |r| == |rows|
    ensures forall i :: 0 <= i < |rows| && i != index ==> r[i] == rows[i]
    ensures 0 <= index < |rows| ==>
              r[index] == rows[index].(enabled := !rows[index].enabled)
    ensures !(0 <= index < |rows|) ==> r == rows
  {
    seq(|rows|, i requires 0 <= i < |rows| => if i == index then rows[i].(enabled := !rows[i].enabled) else rows[i])
  }

  /** `removeHeader(index)`: the list without row `index`, the others in their
      order; an index outside the list changes nothing. */
  function RemoveRow(rows: seq<HeaderRow>, index: int): (r: seq<HeaderRow>)
    ensures 0 <= index < |rows| ==> |r| == |rows| - 1
    ensures 0 <= index < |rows| ==> forall i :: 0 <= i < index ==> r[i] == rows[i]
    ensures 0 <= index < |rows| ==> forall i :: index <= i < |r| ==> r[i] == rows[i + 1]
    ensures !(0 <= index < |rows|) ==> r == rows
  {
    if 0 <= index < |rows| then rows[..index] + rows[index + 1..] else rows
  }

  /** Toggling the same row twice gives the list back. */
  lemma ToggleTwice(rows: seq<HeaderRow>, index: int)
    ensures ToggleRow(ToggleRow(rows, index), index) == rows
  {
    var r := ToggleRow(ToggleRow(rows, index), index);
    assert forall i :: 0 <= i < |rows| ==> r[i] == rows[i];
  }

  /** A row takes part in the request when it is enabled and both its key and
      its value are non-empty. */
  predicate Participates(row: HeaderRow) {
    row.enabled && row.key != "" && row.value != ""
  }

  /** Row i of rows takes part and has key k. */
  predicate Supplies(rows: seq<HeaderRow>, i: int, k: string) {
    0 <= i < |rows| && Participates(rows[i]) && rows[i].key == k
  }

  /** The filter-then-reduce of the enabled rows into a map: a key is present
      exactly when some taking-part row has it (compared case-sensitively), and
      its value is that of the last such row. */
  function Collapse(rows: seq<HeaderRow>): (m: map<string, string>)
    ensures forall k :: k in m <==> exists i :: Supplies(rows, i, k)
    ensures forall k :: k in m ==>
              exists i :: Supplies(rows, i, k) && m[k] == rows[i].value &&
                          forall j :: i < j < |rows| ==> !Supplies(rows, j, k)
  {
    if rows == [] then map[]
    else
      var front := rows[..|rows| - 1];
      var last := rows[|rows| - 1];
      var acc := Collapse(front);
      assert forall i, k :: Supplies(front, i, k) ==> Supplies(rows, i, k);
      assert forall i, k :: Supplies(rows, i, k) && i < |rows| - 1 ==> Supplies(front, i, k);
      if Participates(last) then
        assert Supplies(rows, |rows| - 1, last.key);
        acc[last.key := last.value]
      else acc
  }

  /** An enabled row with an empty key and one with an empty value are both
      dropped. */
  lemma CollapseDropsIncompleteRows()
    ensures Collapse([HeaderRow("A", "1", true), HeaderRow("", "2", true), HeaderRow("B", "", true)])
            == map["A" := "1"]
  {
    var rows := [HeaderRow("A", "1", true), HeaderRow("", "2", true), HeaderRow("B", "", true)];
    var m := Collapse(rows);
    assert Supplies(rows, 0, "A");
    assert forall k :: k in m ==> k == "A";
  }

  /** Disabling a row never adds a key to the collapsed map. */
  lemma DisablingShrinks(rows: seq<HeaderRow>, index: int)
    requires 0 <= index < |rows| && rows[index].enabled
    ensures Collapse(ToggleRow(rows, index)).Keys <= Collapse(rows).Keys
  {
    var t := ToggleRow(rows, index);
    forall k | k in Collapse(t) ensures k in Collapse(rows) {
      var i :| Supplies(t, i, k);
      assert Supplies(rows, i, k);
    }
  }
}
