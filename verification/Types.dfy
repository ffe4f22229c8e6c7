/** The values that travel through the replication pipeline. */
module Types {

  datatype Option<+T> = None | Some(value: T)

  datatype Result<+T> = Ok(value: T) | Err

  /** A column value of a binlog row. Byte slices and strings are both `Text`: the source compares
      them after `hashable`, which turns the former into the latter. */
  datatype Value = Null | Num(n: int) | Text(s: string)

  type Row = seq<Value>

  type DocID = nat

  /** Number of values of an unsigned 64-bit integer. */
  const UINT64_RANGE := 0x1_0000_0000_0000_0000

  type ColumnMap = map<string, seq<string>>

  datatype Action = InsertAction | UpdateAction | DeleteAction

  /** A primary key: its length and its values padded to sixteen entries. */
  datatype PrimaryKey = PrimaryKey(len: nat, value: seq<Value>)

  /** One changed row of one table, addressed to one document of one index. */
  datatype TableRowChange = TableRowChange(
    action: Action,
    columns: seq<string>,
    columnMap: ColumnMap,
    docID: DocID,
    eventID: nat,
    index: string,
    oldRow: Row,
    newRow: Row,
    pk: PrimaryKey,
    tableName: string,
    ts: int)

  /** The all-NULL row that stands for an absent one. */
  function NullRow(width: nat): (row: Row)
    ensures |row| == width
    ensures forall i :: 0 <= i < width ==> row[i] == Null
  {
    seq(width, _ => Null)
  }

  /** All but the last element. */
  function Front<T>(s: seq<T>): (front: seq<T>)
    requires s != []
    ensures |front| == |s| - 1
  {
    s[..|s| - 1]
  }

  /** The last element. */
  function Last<T>(s: seq<T>): T
    requires s != []
  {
    s[|s| - 1]
  }

  ghost predicate Distinct<T>(s: seq<T>) {
    forall j, k :: 0 <= j < k < |s| ==> s[j] != s[k]
  }
}
