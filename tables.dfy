/**
 * Records and tables: the JSON objects a source produces, the pandas
 * DataFrame built from them, its `to_dict(orient='records')` view and the
 * two column-removal policies of `DataFrame.drop`.
 */
module Tables {
  import opened Common

  /** A dynamically typed cell or JSON value; `Missing` is the NaN pandas puts in an absent cell. */
  datatype Value =
    | Str(s: string)
    | Int(i: int)
    | Bool(b: bool)
    | Null
    | List(items: seq<Value>)
    | Nested(fields: seq<Field>)
    | Missing

  datatype Field = Field(name: string, value: Value)

  /**
   * A JSON object as a Python dict: its fields in key order. A dict holds
   * each key once (see `UniqueKeys`); the sequence type itself does not
   * forbid a repeat.
   */
  type Record = seq<Field>

  /** A DataFrame: ordered column labels and one cell map per row. */
  datatype Table = Table(columns: seq<string>, rows: seq<map<string, Value>>)

  predicate Distinct(s: seq<string>) {
    forall i, j :: 0 <= i < j < |s| ==> s[i] != s[j]
  }

  function Elems(s: seq<string>): set<string> {
    set c | c in s
  }

  /** The keys of a record, in order. */
  function Names(r: Record): seq<string> {
    seq(|r|, j requires 0 <= j < |r| => r[j].name)
  }

  /** A record that is a real dict: no key appears twice. */
  predicate UniqueKeys(r: Record) {
    Distinct(Names(r))
  }

  /** A well-formed table has unique column labels and a cell for every column in every row. */
  predicate WellFormed(t: Table) {
    && Distinct(t.columns)
    && forall i :: 0 <= i < |t.rows| ==> t.rows[i].Keys == Elems(t.columns)
  }

  /**
   * `record.get(k)`, with NaN for an absent key. On a record with a
   * repeated key this takes the first field; on a dict the question does
   * not arise.
   */
  function Get(r: Record, k: string): (v: Value)
    ensures k !in Names(r) ==> v == Missing
  {
    if r == [] then Missing
    else
      assert Names(r) == [r[0].name] + Names(r[1..]);
      if r[0].name == k then r[0].value else Get(r[1..], k)
  }

  lemma {:induction false} GetAt(r: Record, j: nat)
    requires j < |r| && UniqueKeys(r)
    ensures Get(r, r[j].name) == r[j].value
  {
    if j > 0 {
      assert Names(r)[0] != Names(r)[j];
      assert Distinct(Names(r[1..])) by {
        forall a, b | 0 <= a < b < |r| - 1 ensures Names(r[1..])[a] != Names(r[1..])[b] {
          assert Names(r)[a + 1] != Names(r)[b + 1];
        }
      }
      GetAt(r[1..], j - 1);
    }
  }

  /** `acc` followed by the labels of `ks` that are new, each once, in first-seen order. */
  function AddNew(acc: seq<string>, ks: seq<string>): (r: seq<string>)
    ensures forall c :: c in r <==> c in acc || c in ks
    ensures Distinct(acc) ==> Distinct(r)
    decreases |ks|
  {
    if ks == [] then acc
    else AddNew(if ks[0] in acc then acc else acc + [ks[0]], ks[1..])
  }

  /**
   * The column labels pandas derives from a list of dicts: every key of
   * every record, each once, in the order it is first seen.
   */
  function Columns(rs: seq<Record>): (cols: seq<string>)
    ensures Distinct(cols)
  {
    if rs == [] then [] else AddNew(Columns(rs[..|rs| - 1]), Names(rs[|rs| - 1]))
  }

  lemma {:induction false} ColumnsCover(rs: seq<Record>, c: string)
    ensures c in Columns(rs) <==> exists i :: 0 <= i < |rs| && c in Names(rs[i])
  {
    if rs != [] {
      var init := rs[..|rs| - 1];
      ColumnsCover(init, c);
      if c in Columns(rs) && c !in Names(rs[|rs| - 1]) {
        var i :| 0 <= i < |init| && c in Names(init[i]);
        assert rs[i] == init[i];
      }
      if exists i :: 0 <= i < |rs| && c in Names(rs[i]) {
        var i :| 0 <= i < |rs| && c in Names(rs[i]);
        if i < |rs| - 1 {
          assert init[i] == rs[i];
        }
      }
    }
  }

  /** One DataFrame row built from a record over the given columns. */
  function Row(cols: seq<string>, r: Record): map<string, Value> {
    map c | c in cols :: Get(r, c)
  }

  /** `pd.DataFrame(records)`. */
  function ToTable(rs: seq<Record>): (t: Table)
    ensures WellFormed(t) && |t.rows| == |rs|
  {
    var cols := Columns(rs);
    Table(cols, seq(|rs|, i requires 0 <= i < |rs| => Row(cols, rs[i])))
  }

  /**
   * Every record becomes the row at its own position; a row holds the
   * record's own value under each of the record's keys and NaN under the
   * columns the record lacks.
   */
  lemma ToTableCells(rs: seq<Record>, i: nat, c: string)
    requires i < |rs| && UniqueKeys(rs[i])
    ensures c in ToTable(rs).rows[i] <==> exists k :: 0 <= k < |rs| && c in Names(rs[k])
    ensures forall j :: 0 <= j < |rs[i]| && rs[i][j].name == c ==>
              c in ToTable(rs).rows[i] && ToTable(rs).rows[i][c] == rs[i][j].value
    ensures c in ToTable(rs).rows[i] && c !in Names(rs[i]) ==> ToTable(rs).rows[i][c] == Missing
  {
    ColumnsCover(rs, c);
    forall j | 0 <= j < |rs[i]| && rs[i][j].name == c
      ensures c in ToTable(rs).rows[i] && ToTable(rs).rows[i][c] == rs[i][j].value
    {
      assert Names(rs[i])[j] == c;
      GetAt(rs[i], j);
    }
  }

  /** A NaN-filled lookup of one cell. */
  function Cell(row: map<string, Value>, c: string): Value {
    if c in row then row[c] else Missing
  }

  /** One row as a dict in column order. */
  function RowRecord(cols: seq<string>, row: map<string, Value>): Record {
    seq(|cols|, j requires 0 <= j < |cols| => Field(cols[j], Cell(row, cols[j])))
  }

  /** `DataFrame.to_dict(orient='records')`. */
  function ToRecords(t: Table): (rs: seq<Record>)
    ensures |rs| == |t.rows|
    ensures forall i :: 0 <= i < |rs| ==> |rs[i]| == |t.columns| && Names(rs[i]) == t.columns
    ensures forall i, j :: 0 <= i < |rs| && 0 <= j < |t.columns| ==> rs[i][j].value == Cell(t.rows[i], t.columns[j])
  {
    seq(|t.rows|, i requires 0 <= i < |t.rows| => RowRecord(t.columns, t.rows[i]))
  }

  lemma {:induction false} AddNewKnown(acc: seq<string>, ks: seq<string>)
    requires forall c :: c in ks ==> c in acc
    ensures AddNew(acc, ks) == acc
    decreases |ks|
  {
    if ks != [] {
      AddNewKnown(acc, ks[1..]);
    }
  }

  lemma {:induction false} AddNewFresh(acc: seq<string>, ks: seq<string>)
    requires Distinct(ks)
    requires forall c :: c in ks ==> c !in acc
    ensures AddNew(acc, ks) == acc + ks
    decreases |ks|
  {
    if ks != [] {
      FreshTail(acc, ks);
      AddNewFresh(acc + [ks[0]], ks[1..]);
      ShiftHead(acc, ks);
    }
  }

  /** Moving the first key of `ks` onto the end of `acc` keeps the concatenation. */
  lemma ShiftHead(acc: seq<string>, ks: seq<string>)
    requires ks != []
    ensures (acc + [ks[0]]) + ks[1..] == acc + ks
  {
    assert ks == [ks[0]] + ks[1..];
  }

  /** The step of `AddNewFresh`: the first key is new, and the rest stay distinct and new. */
  lemma FreshTail(acc: seq<string>, ks: seq<string>)
    requires ks != [] && Distinct(ks)
    requires forall c :: c in ks ==> c !in acc
    ensures AddNew(acc, ks) == AddNew(acc + [ks[0]], ks[1..])
    ensures Distinct(ks[1..])
    ensures forall c :: c in ks[1..] ==> c !in acc + [ks[0]]
  {
    assert ks[0] in ks;
    DistinctTail(ks);
    forall c | c in ks[1..] ensures c !in acc + [ks[0]] {
      assert c in ks;
    }
  }

  lemma DistinctTail(s: seq<string>)
    requires |s| > 0 && Distinct(s)
    ensures Distinct(s[1..]) && s[0] !in s[1..]
  {
    forall a, b | 0 <= a < b < |s| - 1 ensures s[1..][a] != s[1..][b] {
      assert s[a + 1] != s[b + 1];
    }
  }

  /** Records that all carry the same key sequence produce exactly those columns. */
  lemma {:induction false} ColumnsOfUniform(rs: seq<Record>, cols: seq<string>)
    requires |rs| > 0 && Distinct(cols)
    requires forall i :: 0 <= i < |rs| ==> Names(rs[i]) == cols
    ensures Columns(rs) == cols
  {
    var init := rs[..|rs| - 1];
    if |init| == 0 {
      AddNewFresh([], cols);
    } else {
      ColumnsOfUniform(init, cols);
      AddNewKnown(cols, Names(rs[|rs| - 1]));
    }
  }

  /**
   * Writing a table out as records and reading the records back gives the
   * same table, provided it has a row to carry the column labels.
   */
  lemma RecordsRoundTrip(t: Table)
    requires WellFormed(t) && |t.rows| > 0
    ensures ToTable(ToRecords(t)) == t
  {
    var rs := ToRecords(t);
    ColumnsOfUniform(rs, t.columns);
    var u := ToTable(rs);
    forall i | 0 <= i < |t.rows| ensures u.rows[i] == t.rows[i] {
      RecordsRoundTripRow(t, i);
    }
  }

  /** One row of the round trip: the record of row `i` rebuilds row `i` under the table's columns. */
  lemma RecordsRoundTripRow(t: Table, i: nat)
    requires WellFormed(t) && i < |t.rows|
    ensures Row(t.columns, RowRecord(t.columns, t.rows[i])) == t.rows[i]
  {
    var r := RowRecord(t.columns, t.rows[i]);
    assert Names(r) == t.columns;
    forall c | c in t.columns ensures Row(t.columns, r)[c] == t.rows[i][c] {
      var j :| 0 <= j < |t.columns| && t.columns[j] == c;
      GetAt(r, j);
    }
  }

  /** The labels of `cols` that are not in `drop`, in their original order. */
  function Without(cols: seq<string>, drop: seq<string>): (r: seq<string>)
    ensures forall c :: c in r <==> c in cols && c !in drop
    ensures Distinct(cols) ==> Distinct(r)
    ensures |r| <= |cols|
  {
    if cols == [] then []
    else (if cols[0] in drop then [] else [cols[0]]) + Without(cols[1..], drop)
  }

  /** Filtering distributes over concatenation: the retained labels keep their relative order. */
  lemma {:induction false} WithoutAppend(a: seq<string>, b: seq<string>, drop: seq<string>)
    ensures Without(a + b, drop) == Without(a, drop) + Without(b, drop)
  {
    if a != [] {
      assert (a + b)[0] == a[0];
      assert (a + b)[1..] == a[1..] + b;
      WithoutAppend(a[1..], b, drop);
      var head := if a[0] in drop then [] else [a[0]];
      assert Without(a + b, drop) == head + Without(a[1..] + b, drop);
      assert Without(a, drop) == head + Without(a[1..], drop);
    } else {
      assert a + b == b;
    }
  }

  lemma {:induction false} WithoutTwice(cols: seq<string>, drop: seq<string>)
    ensures Without(Without(cols, drop), drop) == Without(cols, drop)
  {
    if cols != [] {
      var head := if cols[0] in drop then [] else [cols[0]];
      WithoutAppend(head, Without(cols[1..], drop), drop);
      WithoutTwice(cols[1..], drop);
      assert Without(head, drop) == head by {
        if head != [] {
          assert head[1..] == [];
        }
      }
    }
  }

  /** `df.drop(columns=drop, errors='ignore')`: every listed label that is a column goes; the rest stay. */
  function DropIgnore(t: Table, drop: seq<string>): (r: Table)
    ensures r.columns == Without(t.columns, drop)
    ensures forall c :: c in r.columns <==> c in t.columns && c !in drop
    ensures |r.rows| == |t.rows|
    ensures forall i :: 0 <= i < |t.rows| ==>
              && r.rows[i].Keys == t.rows[i].Keys - Elems(drop)
              && forall c :: c in r.rows[i] ==> r.rows[i][c] == t.rows[i][c]
    ensures WellFormed(t) ==> WellFormed(r)
  {
    Table(Without(t.columns, drop), seq(|t.rows|, i requires 0 <= i < |t.rows| => t.rows[i] - Elems(drop)))
  }

  /** Dropping the same labels a second time changes nothing. */
  lemma DropIgnoreIdempotent(t: Table, drop: seq<string>)
    ensures DropIgnore(DropIgnore(t, drop), drop) == DropIgnore(t, drop)
  {
    WithoutTwice(t.columns, drop);
    var once := DropIgnore(t, drop);
    var twice := DropIgnore(once, drop);
    forall i | 0 <= i < |t.rows| ensures twice.rows[i] == once.rows[i] {
    }
  }

  /**
   * `df.drop(columns=drop)` with pandas' default `errors='raise'`: if some
   * listed label is not a column, a KeyError naming those labels and no
   * change; otherwise the same as the ignoring policy.
   */
  function DropStrict(t: Table, drop: seq<string>): (r: Result<Table, Error>)
    ensures r.Success? <==> forall c :: c in drop ==> c in t.columns
    ensures r.Success? ==> r.value == DropIgnore(t, drop)
    ensures r.Failure? ==> r.error.ColumnsNotFound? && r.error.labels != []
    ensures r.Failure? ==> forall c :: c in r.error.labels <==> c in drop && c !in t.columns
  {
    var missing := Without(drop, t.columns);
    if missing == [] then Success(DropIgnore(t, drop))
    else
      assert missing[0] in missing;
      Failure(ColumnsNotFound(missing))
  }
}
