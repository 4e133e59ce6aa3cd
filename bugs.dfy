/**
 * The row-shaping half of the bugs-table loader. Each input record wraps an
 * issue mapping under the key "bug"; the loader copies that mapping, replaces
 * its three list-valued fields by their comma-separated form, and projects it
 * onto the fixed column order, one row per record, in input order.
 */
module Bugs {
  import opened Wrappers
  import opened CommaList

  /** The table's columns, in order; the first is the index column. */
  const COLUMNS: seq<string> :=
    ["id", "summary", "published", "updated", "state", "status",
     "author", "owner", "cc", "components", "labels"]

  /** The column the table is keyed by. */
  const INDEX: string := COLUMNS[0]

  /** The list-valued fields that are flattened, in the order the loader visits them. */
  const LIST_KEYS: seq<string> := ["cc", "components", "labels"]

  /** The JSON values an issue mapping holds; `Null` is Python's `None`. */
  datatype Value = Null | Int(i: int) | Str(s: string) | List(items: seq<string>)

  /** One issue as a key-value mapping. */
  type Mapping = map<string, Value>

  /** One input record: `{"bug": {...}}`. */
  datatype Entry = Entry(bug: Mapping)

  /** The loader's one failure of its own: a list-valued field that is not a list. */
  datatype BuildError = ShapeError

  /** Python's view of an optional string. */
  function FromOption(o: Option<string>): (r: Value)
  {
    match o
    case None => Null
    case Some(s) => Str(s)
  }

  /**
   * `_CommaSeparate` on a dynamically typed value: the assertion that the
   * argument is a list becomes a failure; a list becomes `None` when empty
   * and a string otherwise.
   */
  function CheckedCommaSeparate(v: Value): (r: Result<Value, BuildError>)
    ensures r.Failure? <==> !v.List?
    ensures r.Success? ==> (r.value == Null <==> v.items == [])
    ensures r.Success? ==> r.value.Null? || r.value.Str?
  {
    match v
    case List(xs) => Success(FromOption(CommaSeparate(xs)))
    case _ => Failure(ShapeError)
  }

  /** Every column the loader reads is present (a missing key is not modelled). */
  predicate HasColumns(m: Mapping)
  {
    forall column :: column in COLUMNS ==> column in m
  }

  /** Every list-valued field is present and holds a list. */
  predicate ListsValid(m: Mapping)
  {
    forall key :: key in LIST_KEYS ==> key in m && m[key].List?
  }

  /** The value a column of the row should hold, stated column by column. */
  function ExpectedCell(m: Mapping, column: string): (r: Value)
    requires column in m
    requires column in LIST_KEYS ==> m[column].List?
  {
    if column in LIST_KEYS then FromOption(CommaSeparate(m[column].items)) else m[column]
  }

  /** The row an issue mapping should become: its cells in column order. */
  function ExpectedRow(m: Mapping): (r: seq<Value>)
    requires HasColumns(m) && ListsValid(m)
  {
    seq(|COLUMNS|, j requires 0 <= j < |COLUMNS| => ExpectedCell(m, COLUMNS[j]))
  }

  /** `tuple(row[k] for k in COLUMNS)`. */
  function Project(m: Mapping): (r: seq<Value>)
    requires HasColumns(m)
  {
    seq(|COLUMNS|, j requires 0 <= j < |COLUMNS| => m[COLUMNS[j]])
  }

  /** The column names are pairwise distinct, so projecting by name is one-to-one. */
  lemma ColumnsDistinct()
    ensures forall i, j :: 0 <= i < j < |COLUMNS| ==> COLUMNS[i] != COLUMNS[j]
    ensures forall i, j :: 0 <= i < j < |LIST_KEYS| ==> LIST_KEYS[i] != LIST_KEYS[j]
  {
  }

  /** Each row has eleven cells and its first cell, the key, is the issue id. */
  lemma RowShape(m: Mapping)
    requires HasColumns(m) && ListsValid(m)
    ensures INDEX == "id"
    ensures |ExpectedRow(m)| == |COLUMNS| == 11
    ensures ExpectedRow(m)[0] == m[INDEX]
  {
    assert "id" !in LIST_KEYS;
  }

  /**
   * Projecting a copy whose list fields were flattened, and whose other
   * fields are untouched, gives the expected row.
   */
  lemma ProjectFlattened(bug: Mapping, row: Mapping)
    requires HasColumns(bug) && row.Keys == bug.Keys
    requires forall key :: key in LIST_KEYS ==>
               bug[key].List? && row[key] == FromOption(CommaSeparate(bug[key].items))
    requires forall key :: key in bug && key !in LIST_KEYS ==> row[key] == bug[key]
    ensures ListsValid(bug) && Project(row) == ExpectedRow(bug)
  {
    forall j | 0 <= j < |COLUMNS| ensures Project(row)[j] == ExpectedRow(bug)[j] {
    }
  }

  /**
   * The inner loop on a copy of one issue mapping: each list field in turn is
   * overwritten by its comma-separated form; a field that is not a list fails.
   */
  method FlattenLists(bug: Mapping) returns (res: Result<Mapping, BuildError>)
    requires HasColumns(bug)
    ensures res.Success? <==> ListsValid(bug)
    ensures res.Success? ==> res.value.Keys == bug.Keys
    ensures res.Success? ==> forall key :: key in LIST_KEYS ==>
              res.value[key] == FromOption(CommaSeparate(bug[key].items))
    ensures res.Success? ==> forall key :: key in bug && key !in LIST_KEYS ==>
              res.value[key] == bug[key]
  {
    ColumnsDistinct();
    var row := bug;  // `.copy()`: a map is a value, the caller's record cannot change
    for k := 0 to |LIST_KEYS|
      invariant row.Keys == bug.Keys
      invariant forall key :: key in LIST_KEYS[..k] ==>
                  bug[key].List? && row[key] == FromOption(CommaSeparate(bug[key].items))
      invariant forall key :: key in bug && key !in LIST_KEYS[..k] ==> row[key] == bug[key]
    {
      var key := LIST_KEYS[k];
      assert key !in LIST_KEYS[..k];
      var joined := CheckedCommaSeparate(row[key]);
      if joined.Failure? {
        return Failure(joined.error);
      }
      row := row[key := joined.value];
    }
    assert LIST_KEYS[..|LIST_KEYS|] == LIST_KEYS;
    return Success(row);
  }

  /**
   * The row-building loop: one row per record, in input order, each the
   * record's issue mapping with its list fields flattened, projected onto
   * the columns. A record whose list field is not a list aborts the build.
   */
  method RowsFromJson(data: seq<Entry>) returns (res: Result<seq<seq<Value>>, BuildError>)
    requires forall i :: 0 <= i < |data| ==> HasColumns(data[i].bug)
    ensures res.Success? <==> forall i :: 0 <= i < |data| ==> ListsValid(data[i].bug)
    ensures res.Success? ==> |res.value| == |data|
    ensures res.Success? ==>
              forall i :: 0 <= i < |data| ==> res.value[i] == ExpectedRow(data[i].bug)
  {
    var rows: seq<seq<Value>> := [];
    for i := 0 to |data|
      invariant |rows| == i
      invariant forall r :: 0 <= r < i ==>
                  ListsValid(data[r].bug) && rows[r] == ExpectedRow(data[r].bug)
    {
      var flattened := FlattenLists(data[i].bug);
      if flattened.Failure? {
        return Failure(flattened.error);
      }
      ProjectFlattened(data[i].bug, flattened.value);
      rows := rows + [Project(flattened.value)];  // `tuple(row[k] for k in COLUMNS)`
    }
    return Success(rows);
  }

  /** An issue as the wire format types it: timestamps are opaque strings. */
  datatype Bug = Bug(
    id: int, summary: string, published: string, updated: string,
    state: string, status: string, author: string, owner: string,
    cc: seq<string>, components: seq<string>, labels: seq<string>)

  /** A table row as a record with one field per column, in column order. */
  datatype Row = Row(
    id: int, summary: string, published: string, updated: string,
    state: string, status: string, author: string, owner: string,
    cc: Option<string>, components: Option<string>, labels: Option<string>)
  {
    /** The row as the tuple handed to the table, one cell per column. */
    function Cells(): (r: seq<Value>)
      ensures |r| == |COLUMNS|
    {
      [Int(id), Str(summary), Str(published), Str(updated), Str(state), Str(status),
       Str(author), Str(owner), FromOption(cc), FromOption(components), FromOption(labels)]
    }
  }

  /** The JSON object a typed issue arrives as: every column present, every list field a list. */
  function ToMapping(b: Bug): (m: Mapping)
    ensures HasColumns(m) && ListsValid(m)
  {
    map["id" := Int(b.id), "summary" := Str(b.summary), "published" := Str(b.published),
        "updated" := Str(b.updated), "state" := Str(b.state), "status" := Str(b.status),
        "author" := Str(b.author), "owner" := Str(b.owner), "cc" := List(b.cc),
        "components" := List(b.components), "labels" := List(b.labels)]
  }

  /** The typed row of a typed issue. */
  function ToRow(b: Bug): (r: Row)
  {
    Row(b.id, b.summary, b.published, b.updated, b.state, b.status, b.author, b.owner,
        CommaSeparate(b.cc), CommaSeparate(b.components), CommaSeparate(b.labels))
  }

  /** Looking a scalar column up in the mapping of a typed issue gives that issue's field. */
  lemma ToMappingScalarLookups(b: Bug)
    ensures ToMapping(b)["id"] == Int(b.id)
    ensures ToMapping(b)["summary"] == Str(b.summary)
    ensures ToMapping(b)["published"] == Str(b.published)
    ensures ToMapping(b)["updated"] == Str(b.updated)
    ensures ToMapping(b)["state"] == Str(b.state)
    ensures ToMapping(b)["status"] == Str(b.status)
    ensures ToMapping(b)["author"] == Str(b.author)
    ensures ToMapping(b)["owner"] == Str(b.owner)
  {
  }

  /** Looking a list field up in the mapping of a typed issue gives that issue's list. */
  lemma ToMappingListLookups(b: Bug)
    ensures ToMapping(b)["cc"] == List(b.cc)
    ensures ToMapping(b)["components"] == List(b.components)
    ensures ToMapping(b)["labels"] == List(b.labels)
  {
  }

  /** The first eight cells built from a typed issue are its scalar fields. */
  lemma TypedScalarCell(b: Bug, j: nat)
    requires j < 8
    ensures ExpectedCell(ToMapping(b), COLUMNS[j]) == ToRow(b).Cells()[j]
  {
    ToMappingScalarLookups(b);
    assert COLUMNS[j] !in LIST_KEYS;
  }

  /** The last three cells built from a typed issue are its flattened lists. */
  lemma TypedListCell(b: Bug, k: nat)
    requires k < |LIST_KEYS|
    ensures ExpectedCell(ToMapping(b), COLUMNS[8 + k]) == ToRow(b).Cells()[8 + k]
  {
    ToMappingListLookups(b);
    assert COLUMNS[8 + k] == LIST_KEYS[k];
  }

  /**
   * For well-typed issues the loader never fails, and the row it builds is the
   * typed row: copied scalars, flattened lists, in column order.
   */
  lemma TypedRowAgrees(b: Bug)
    ensures ListsValid(ToMapping(b))
    ensures ExpectedRow(ToMapping(b)) == ToRow(b).Cells()
  {
    forall j | 0 <= j < |COLUMNS|
      ensures ExpectedRow(ToMapping(b))[j] == ToRow(b).Cells()[j]
    {
      if j < 8 {
        TypedScalarCell(b, j);
      } else {
        TypedListCell(b, j - 8);
      }
    }
  }
}
