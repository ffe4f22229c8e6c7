/** The statement printers of river/format_query.go: each fills or appends a list of parts and joins it. */
module FormatQuery {
  import opened Decimal
  import opened Sql

  method FormatReplaceQuery(index: string, fields: seq<string>, values: seq<seq<string>>) returns (text: string)
    ensures text == ReplaceText(index, fields, values)
  {
    var rows := new string[|values|](_ => "");
    for i := 0 to |values|
      invariant forall k :: 0 <= k < i ==> rows[k] == RowText(values[k])
    {
      rows[i] := "(" + Join(values[i], ",") + ")";
    }
    assert rows[..] == seq(|values|, i requires 0 <= i < |values| => RowText(values[i]));
    text := "REPLACE INTO " + index + " (" + Join(fields, ",") + ") VALUES " + Join(rows[..], ",");
  }

  method FormatUpdateQuery(index: string, id: nat, fields: seq<string>, values: seq<string>) returns (text: string)
    requires |fields| == |values|
    ensures text == UpdateText(index, id, fields, values)
  {
    var setClause: seq<string> := [];
    for i := 0 to |fields|
      invariant |setClause| == i && forall k :: 0 <= k < i ==> setClause[k] == AssignmentText(fields[k], values[k])
    {
      setClause := setClause + [fields[i] + " = " + values[i]];
    }
    assert setClause == seq(|fields|, i requires 0 <= i < |fields| => AssignmentText(fields[i], values[i]));
    text := "UPDATE " + index + " SET " + Join(setClause, ",") + " WHERE id = " + PrintNat(id);
  }

  method FormatDeleteQuery(index: string, docIDs: seq<nat>) returns (text: string)
    ensures text == DeleteText(index, docIDs)
  {
    var ids := new string[|docIDs|](_ => "");
    for i := 0 to |docIDs|
      invariant forall k :: 0 <= k < i ==> ids[k] == PrintNat(docIDs[k])
    {
      ids[i] := PrintNat(docIDs[i]);
    }
    assert ids[..] == seq(|docIDs|, i requires 0 <= i < |docIDs| => PrintNat(docIDs[i]));
    text := "DELETE FROM " + index + " WHERE id IN (" + Join(ids[..], ",") + ")";
  }
}
