/** The ClickHouse exporter's columnar blocks: typed columns that are filled row
    by row, cleared at the start of a batch and handed to the server together. */
module ClickHouseColumns {
  import Events

  datatype Value = Num(v: int) | Txt(s: string)

  /** The C++ type behind a column; what a request for it must agree with. */
  datatype Kind = Fixed(element: string) | Owned | Viewed

  /** FixedCol and StringCol. Strings lie end to end in `bytes`; `offsets` holds
      where each one ends. */
  datatype Column =
    | FixedCol(element: string, typeName: string, data: seq<int>)
    | StringCol(viewed: bool, bytes: string, offsets: seq<nat>)

  function KindOf(c: Column): Kind
  {
    match c
    case FixedCol(element, _, _) => Fixed(element)
    case StringCol(viewed, _, _) => if viewed then Viewed else Owned
  }

  function EmptyCol(kind: Kind, typeName: string): Column
  {
    match kind
    case Fixed(element) => FixedCol(element, typeName, [])
    case Owned => StringCol(false, "", [])
    case Viewed => StringCol(true, "", [])
  }

  function Clear(c: Column): Column
  {
    match c
    case FixedCol(_, _, _) => c.(data := [])
    case StringCol(_, _, _) => c.(bytes := "", offsets := [])
  }

  predicate Holds(kind: Kind, v: Value)
  {
    kind.Fixed? <==> v.Num?
  }

  function Append(c: Column, v: Value): Column
    requires Holds(KindOf(c), v)
  {
    match c
    case FixedCol(_, _, data) => c.(data := data + [v.v])
    case StringCol(_, bytes, offsets) => c.(bytes := bytes + v.s, offsets := offsets + [|bytes + v.s|])
  }

  /** An append that an exception cuts short: a string's bytes may be in place
      without their offset; a fixed value is in place or not. */
  function PartAppend(c: Column, v: Value, afterBytes: bool): Column
    requires Holds(KindOf(c), v)
  {
    if c.StringCol? && afterBytes then c.(bytes := c.bytes + v.s) else c
  }

  // ------------------------------------------------------------------
  // Decoding a column, as the server does
  // ------------------------------------------------------------------

  /** The offsets are ends of consecutive strings that make up the bytes. */
  predicate WellFormed(c: Column)
  {
    c.StringCol? ==>
      && (forall i, j | 0 <= i < j < |c.offsets| :: c.offsets[i] <= c.offsets[j])
      && (forall i | 0 <= i < |c.offsets| :: c.offsets[i] <= |c.bytes|)
      && (if c.offsets == [] then c.bytes == "" else c.offsets[|c.offsets| - 1] == |c.bytes|)
  }

  function Start(offsets: seq<nat>, k: nat): nat
    requires k < |offsets|
  {
    if k == 0 then 0 else offsets[k - 1]
  }

  function NumRows(c: Column): nat
  {
    if c.FixedCol? then |c.data| else |c.offsets|
  }

  /** Row k of a column: the string between two offsets. */
  function At(c: Column, k: nat): Value
    requires WellFormed(c) && k < NumRows(c)
  {
    match c
    case FixedCol(_, _, data) => Num(data[k])
    case StringCol(_, bytes, offsets) => Txt(bytes[Start(offsets, k)..offsets[k]])
  }

  function Decode(c: Column): (r: seq<Value>)
    requires WellFormed(c)
    ensures |r| == NumRows(c) && forall k | 0 <= k < NumRows(c) :: r[k] == At(c, k)
  {
    seq(NumRows(c), k requires 0 <= k < NumRows(c) => At(c, k))
  }

  /** Appending a value appends it to what is decoded. */
  lemma AppendDecodes(c: Column, v: Value)
    requires WellFormed(c) && Holds(KindOf(c), v)
    ensures WellFormed(Append(c, v)) && KindOf(Append(c, v)) == KindOf(c)
    ensures c.FixedCol? ==> Append(c, v).typeName == c.typeName
    ensures Decode(Append(c, v)) == Decode(c) + [v]
  {
    var c' := Append(c, v);
    if c.StringCol? { AppendString(c, v.s); }
    assert |Decode(c')| == |Decode(c) + [v]|;
    forall k | 0 <= k < NumRows(c') ensures Decode(c')[k] == (Decode(c) + [v])[k] {
      if k < NumRows(c) && c.StringCol? { StringKept(c, v.s, k); }
    }
  }

  /** A string cut short between its bytes and its offset breaks the column, and
      clearing the column mends it. */
  lemma CutMends(c: Column, s: string)
    requires c.StringCol? && WellFormed(c) && s != ""
    ensures !WellFormed(PartAppend(c, Txt(s), true))
    ensures WellFormed(Clear(PartAppend(c, Txt(s), true))) && NumRows(Clear(PartAppend(c, Txt(s), true))) == 0
  {
    assert |PartAppend(c, Txt(s), true).bytes| == |c.bytes| + |s|;
  }

  lemma AppendString(c: Column, s: string)
    requires c.StringCol? && WellFormed(c)
    ensures WellFormed(Append(c, Txt(s)))
    ensures At(Append(c, Txt(s)), |c.offsets|) == Txt(s)
  {
    var c' := Append(c, Txt(s));
    assert Start(c'.offsets, |c.offsets|) == |c.bytes|;
    assert c'.bytes[|c.bytes|..] == s;
  }

  lemma StringKept(c: Column, s: string, k: nat)
    requires c.StringCol? && WellFormed(c) && k < |c.offsets| && WellFormed(Append(c, Txt(s)))
    ensures At(Append(c, Txt(s)), k) == At(c, k)
  {
    var a, b := Start(c.offsets, k), c.offsets[k];
    assert (c.bytes + s)[a..b] == c.bytes[a..b];
  }

  // ------------------------------------------------------------------
  // The exporter
  // ------------------------------------------------------------------

  /** A column as ExportEventStatsInternal asks for it. */
  datatype Request = Request(name: string, kind: Kind, typeName: string)

  type Row = seq<Value>

  predicate DistinctNames(schema: seq<Request>)
  {
    forall i, j | 0 <= i < j < |schema| :: schema[i].name != schema[j].name
  }

  predicate RowFits(schema: seq<Request>, row: Row)
  {
    |row| == |schema| && forall i | 0 <= i < |row| :: Holds(schema[i].kind, row[i])
  }

  predicate AllFit(schema: seq<Request>, rows: seq<Row>)
  {
    forall k | 0 <= k < |rows| :: RowFits(schema, rows[k])
  }

  /** The i-th values of the rows. */
  function ColumnOf(rows: seq<Row>, i: nat): (r: seq<Value>)
    ensures |r| == |rows| && forall k | 0 <= k < |rows| && i < |rows[k]| :: r[k] == rows[k][i]
  {
    seq(|rows|, k requires 0 <= k < |rows| => if i < |rows[k]| then rows[k][i] else Num(0))
  }

  lemma ColumnOfAppend(rows: seq<Row>, row: Row, i: nat)
    requires i < |row|
    ensures ColumnOf(rows + [row], i) == ColumnOf(rows, i) + [row[i]]
  {
  }

  /** The column is of the kind and, if of fixed width, of the type asked for. */
  predicate Declared(c: Column, req: Request)
  {
    KindOf(c) == req.kind && (c.FixedCol? ==> c.typeName == req.typeName)
  }

  /** The column is as declared and decodes to the given values. */
  ghost predicate Carries(c: Column, req: Request, values: seq<Value>)
  {
    WellFormed(c) && Declared(c, req) && Decode(c) == values
  }

  /** Every column holds its values of the rows, the first n also that of the
      row being filled. */
  ghost predicate Table(columns: seq<Column>, schema: seq<Request>, rows: seq<Row>, row: Row, n: nat)
  {
    && |columns| == |schema| && RowFits(schema, row)
    && forall i | 0 <= i < |columns| ::
         Carries(columns[i], schema[i], ColumnOf(rows, i) + if i < n then [row[i]] else [])
  }

  lemma TableCell(columns: seq<Column>, schema: seq<Request>, rows: seq<Row>, row: Row, n: nat)
    requires Table(columns, schema, rows, row, n) && n < |columns|
    ensures Holds(KindOf(columns[n]), row[n])
    ensures Table(columns[n := Append(columns[n], row[n])], schema, rows, row, n + 1)
  {
    assert Carries(columns[n], schema[n], ColumnOf(rows, n) + []);
    AppendDecodes(columns[n], row[n]);
  }

  /** A column as it is handed to the block builder: a name and the raw data. */
  datatype BlockColumn = BlockColumn(name: string, column: Column)

  predicate Indexed(names: seq<string>, index: map<string, nat>)
  {
    && (forall i | 0 <= i < |names| :: names[i] in index && index[names[i]] == i)
    && (forall n | n in index :: index[n] < |names| && names[index[n]] == n)
  }

  predicate NamedBy(names: seq<string>, schema: seq<Request>)
  {
    |names| <= |schema| && DistinctNames(schema) && forall i | 0 <= i < |names| :: names[i] == schema[i].name
  }

  predicate TypedBy(columns: seq<Column>, schema: seq<Request>)
  {
    |columns| <= |schema| && forall i | 0 <= i < |columns| :: Declared(columns[i], schema[i])
  }

  predicate AllEmpty(columns: seq<Column>)
  {
    forall i | 0 <= i < |columns| :: NumRows(columns[i]) == 0 && WellFormed(columns[i])
  }

  lemma NewName(names: seq<string>, schema: seq<Request>, i: nat)
    requires NamedBy(names, schema) && |names| <= i < |schema|
    ensures schema[i].name !in names
  {
  }

  /** Where an exception cuts a row short: at column c, before or after the bytes
      of a string. */
  datatype Cut = Cut(c: nat, afterBytes: bool)

  /** What becomes of a commit: no block is sent, with the connection closed or not,
      the insert fails, which closes it, or it works. */
  datatype CommitLuck = Unbuilt(closes: bool) | Rejects | Inserts

  /** One insert: the block handed to the server, and whether it was taken. */
  datatype Insert = Insert(block: seq<BlockColumn>, ok: bool)

  class Exporter {
    var columns: seq<Column>
    var names: seq<string>
    var index: map<string, nat>
    var exported: nat
    /** All that was ever handed to the server. */
    ghost var wire: seq<Insert>

    /** Names, index and columns belong together. Nothing is said of what the
        columns hold: a batch may have been abandoned anywhere. */
    ghost predicate Valid()
      reads this
    {
      Indexed(names, index) && |names| == |columns|
    }

    /** The columns so far are the first ones of the schema, however filled. */
    ghost predicate Conforms(schema: seq<Request>)
      reads this
    {
      Valid() && NamedBy(names, schema) && TypedBy(columns, schema)
    }

    constructor ()
      ensures Valid() && columns == [] && names == [] && exported == 0 && wire == []
    {
      wire := [];
      columns, names, index, exported := [], [], map[], 0;
    }

    /** Every column is emptied, whatever a previous batch left in it. */
    method BeginBatch()
      requires Valid()
      modifies this`columns, this`exported
      ensures Valid() && exported == 0 && AllEmpty(columns) && |columns| == |old(columns)|
      ensures forall i | 0 <= i < |columns| :: columns[i] == Clear(old(columns)[i])
    {
      ghost var was := columns;
      var i := 0;
      while i < |columns|
        invariant 0 <= i <= |columns| == |was|
        invariant forall k | 0 <= k < |was| :: columns[k] == if k < i then Clear(was[k]) else was[k]
      {
        columns := columns[i := Clear(columns[i])];
        i := i + 1;
      }
      exported := 0;
    }

    /** MakeCol: a name asked for before gives the same column, unless the type
        differs; a new name gives a new, empty column. */
    method MakeCol(req: Request) returns (r: int)
      requires Valid()
      modifies this`columns, this`names, this`index
      ensures Valid()
      ensures req.name in old(names) && KindOf(old(columns)[old(index)[req.name]]) == req.kind ==>
                r == old(index)[req.name] && columns == old(columns) && names == old(names)
      ensures req.name in old(names) && KindOf(old(columns)[old(index)[req.name]]) != req.kind ==>
                r == -1 && columns == old(columns) && names == old(names)
      ensures req.name !in old(names) ==>
                r == |old(columns)| && names == old(names) + [req.name] &&
                columns == old(columns) + [EmptyCol(req.kind, req.typeName)]
    {
      if req.name in index {
        var at := index[req.name];
        r := if KindOf(columns[at]) == req.kind then at else -1;
      } else {
        r := |columns|;
        columns := columns + [EmptyCol(req.kind, req.typeName)];
        names := names + [req.name];
        index := index[req.name := r];
      }
    }

    /** One column of the schema. */
    method MakeNext(schema: seq<Request>, i: nat)
      requires Conforms(schema) && AllEmpty(columns) && i < |schema| && i <= |columns|
      modifies this`columns, this`names, this`index
      ensures Conforms(schema) && AllEmpty(columns) && i < |columns|
    {
      if |columns| <= i { NewName(names, schema, i); }
      var r := MakeCol(schema[i]);
      assert r == i;
    }

    /** The columns of the schema, in order; `stop` says at which one an
        exception ends the batch, if before the last. */
    method MakeColumns(schema: seq<Request>, stop: nat) returns (thrown: bool)
      requires Conforms(schema) && AllEmpty(columns)
      modifies this`columns, this`names, this`index
      ensures Conforms(schema) && AllEmpty(columns) && (thrown <==> stop < |schema|)
      ensures !thrown ==> |columns| == |schema|
    {
      for i := 0 to |schema|
        invariant i <= stop && i <= |columns| && Conforms(schema) && AllEmpty(columns)
      {
        if i == stop { return true; }
        MakeNext(schema, i);
      }
      return false;
    }

    /** One row: counted first, then appended column by column, unless an
        exception cuts the row short. */
    method AppendRow(schema: seq<Request>, ghost rows: seq<Row>, row: Row, cut: Events.Option<Cut>) returns (thrown: bool)
      requires Conforms(schema) && Table(columns, schema, rows, row, 0)
      modifies this`columns, this`exported
      ensures Conforms(schema) && exported == old(exported) + 1 && (thrown <==> cut.Some? && cut.value.c < |row|)
      ensures !thrown ==> Table(columns, schema, rows, row, |schema|)
    {
      exported := exported + 1;
      for i := 0 to |row|
        modifies this`columns
        invariant cut.Some? ==> i <= cut.value.c || |row| <= cut.value.c
        invariant Table(columns, schema, rows, row, i)
      {
        TableCell(columns, schema, rows, row, i);
        if cut.Some? && i == cut.value.c {
          CutTyped(columns, schema, rows, row, i, cut.value.afterBytes);
          columns := columns[i := PartAppend(columns[i], row[i], cut.value.afterBytes)];
          return true;
        }
        columns := columns[i := Append(columns[i], row[i])];
      }
      TableConforms(columns, schema, rows, row, |row|);
      return false;
    }

    /** CommitBatch: the block is built and handed to the server, or not. The row
        count stands either way. */
    method CommitBatch(luck: CommitLuck) returns (ok: bool, block: Events.Option<seq<BlockColumn>>)
      requires Valid()
      modifies this`wire
      ensures (ok <==> luck == Inserts) && (block.None? <==> luck.Unbuilt?)
      ensures wire == old(wire) + if block.Some? then [Insert(block.value, ok)] else []
      ensures block.Some? ==> |block.value| == |columns|
      ensures block.Some? ==> forall i | 0 <= i < |columns| :: block.value[i] == BlockColumn(names[i], columns[i])
    {
      if luck.Unbuilt? { return false, Events.None; }
      var parts := [];
      for i := 0 to |columns|
        invariant |parts| == i
        invariant forall k | 0 <= k < i :: parts[k] == BlockColumn(names[k], columns[k])
      {
        parts := parts + [BlockColumn(names[i], columns[i])];
      }
      wire := wire + [Insert(parts, luck == Inserts)];
      return luck == Inserts, Events.Some(parts);
    }
  }

  /** A row cut short leaves the columns typed, if not well formed. */
  lemma CutTyped(columns: seq<Column>, schema: seq<Request>, rows: seq<Row>, row: Row, n: nat, afterBytes: bool)
    requires Table(columns, schema, rows, row, n) && n < |columns| && Holds(KindOf(columns[n]), row[n])
    ensures TypedBy(columns[n := PartAppend(columns[n], row[n], afterBytes)], schema)
  {
    TableConforms(columns, schema, rows, row, n);
  }

  lemma TableConforms(columns: seq<Column>, schema: seq<Request>, rows: seq<Row>, row: Row, n: nat)
    requires Table(columns, schema, rows, row, n)
    ensures forall i | 0 <= i < |columns| :: WellFormed(columns[i]) && Declared(columns[i], schema[i])
  {
    forall i | 0 <= i < |columns| ensures WellFormed(columns[i]) && Declared(columns[i], schema[i]) {
      assert Carries(columns[i], schema[i], ColumnOf(rows, i) + if i < n then [row[i]] else []);
    }
  }

  /** Where an exception ends a batch, if it does: when a column is made, or in a row. */
  datatype Stop = Never | AtColumn(c: nat) | InRow(r: nat, cut: Cut)

  /** The exception falls inside the batch. */
  predicate Stops(stop: Stop, schema: seq<Request>, rows: seq<Row>)
  {
    match stop
    case Never => false
    case AtColumn(c) => c < |schema|
    case InRow(r, cut) => r < |rows| && cut.c < |schema|
  }

  /** ExportEventStats: any batch that runs to its end fills every column with
      its values of every row, whatever state earlier batches left behind. */
  method FillBatch(exp: Exporter, schema: seq<Request>, rows: seq<Row>, stop: Stop) returns (thrown: bool)
    requires exp.Conforms(schema) && AllFit(schema, rows)
    modifies exp
    ensures exp.Conforms(schema) && exp.wire == old(exp.wire)
    ensures thrown <==> Stops(stop, schema, rows)
    ensures !thrown ==> |exp.columns| == |schema| && exp.exported == |rows|
    ensures !thrown ==> forall i | 0 <= i < |schema| :: Carries(exp.columns[i], schema[i], ColumnOf(rows, i))
  {
    exp.BeginBatch();
    thrown := exp.MakeColumns(schema, if stop.AtColumn? then stop.c else |schema|);
    if thrown { return; }
    EmptyTable(exp.columns, schema);
    for k := 0 to |rows|
      invariant exp.Conforms(schema) && exp.exported == k && exp.wire == old(exp.wire)
      invariant stop.InRow? && stop.cut.c < |schema| ==> k <= stop.r || |rows| <= stop.r
      invariant Holding(exp.columns, schema, rows[..k])
    {
      HoldingRow(exp.columns, schema, rows[..k], rows[k]);
      thrown := exp.AppendRow(schema, rows[..k], rows[k], if stop.InRow? && stop.r == k then Events.Some(stop.cut) else Events.None);
      if thrown { return; }
      assert rows[..k] + [rows[k]] == rows[..k + 1];
      RowHeld(exp.columns, schema, rows[..k], rows[k]);
    }
    assert rows[..|rows|] == rows;
  }

  /** Between rows: every column holds its values of the rows. */
  ghost predicate Holding(columns: seq<Column>, schema: seq<Request>, rows: seq<Row>)
  {
    && |columns| == |schema|
    && forall i | 0 <= i < |columns| :: Carries(columns[i], schema[i], ColumnOf(rows, i))
  }

  lemma EmptyTable(columns: seq<Column>, schema: seq<Request>)
    requires |columns| == |schema|
    requires forall i | 0 <= i < |columns| ::
               NumRows(columns[i]) == 0 && WellFormed(columns[i]) && Declared(columns[i], schema[i])
    ensures Holding(columns, schema, [])
  {
  }

  lemma HoldingRow(columns: seq<Column>, schema: seq<Request>, rows: seq<Row>, row: Row)
    requires Holding(columns, schema, rows) && RowFits(schema, row)
    ensures Table(columns, schema, rows, row, 0)
  {
    forall i | 0 <= i < |columns| ensures Carries(columns[i], schema[i], ColumnOf(rows, i) + []) {
      assert Carries(columns[i], schema[i], ColumnOf(rows, i));
    }
  }

  lemma RowHeld(columns: seq<Column>, schema: seq<Request>, rows: seq<Row>, row: Row)
    requires Table(columns, schema, rows, row, |schema|)
    ensures Holding(columns, schema, rows + [row])
  {
    forall i | 0 <= i < |columns| ensures Carries(columns[i], schema[i], ColumnOf(rows + [row], i)) {
      assert Carries(columns[i], schema[i], ColumnOf(rows, i) + [row[i]]);
      ColumnOfAppend(rows, row, i);
    }
  }

  /** How a batch handed to the exporter ends. */
  datatype Outcome = Committed | Failed | Aborted

  /** The block is rectangular and decodes to the rows. */
  ghost predicate BlockOf(block: seq<BlockColumn>, schema: seq<Request>, rows: seq<Row>)
  {
    |block| == |schema| &&
    forall i | 0 <= i < |schema| ::
      && block[i].name == schema[i].name && NumRows(block[i].column) == |rows|
      && Carries(block[i].column, schema[i], ColumnOf(rows, i))
  }

  /** A whole batch: a block handed to the server is rectangular and decodes to
      the rows, whatever earlier batches left behind; an abandoned batch hands
      over none. */
  method ExportBatch(exp: Exporter, schema: seq<Request>, rows: seq<Row>, stop: Stop, luck: CommitLuck)
    returns (outcome: Outcome, block: Events.Option<seq<BlockColumn>>)
    requires exp.Conforms(schema) && AllFit(schema, rows)
    modifies exp
    ensures exp.Conforms(schema)
    ensures block.Some? ==> BlockOf(block.value, schema, rows)
    ensures exp.wire == old(exp.wire) + if block.Some? then [Insert(block.value, outcome.Committed?)] else []
    ensures (outcome.Aborted? <==> Stops(stop, schema, rows)) && (outcome.Aborted? ==> block.None?)
    ensures !outcome.Aborted? ==>
              exp.exported == |rows| && (block.None? <==> luck.Unbuilt?) && (outcome.Committed? <==> luck == Inserts)
  {
    var thrown := FillBatch(exp, schema, rows, stop);
    if thrown { return Aborted, Events.None; }
    var ok;
    ok, block := exp.CommitBatch(luck);
    outcome := if ok then Committed else Failed;
    if block.Some? {
      forall i | 0 <= i < |schema|
        ensures block.value[i].name == schema[i].name && NumRows(block.value[i].column) == |rows|
        ensures Carries(block.value[i].column, schema[i], ColumnOf(rows, i))
      {
        assert Carries(exp.columns[i], schema[i], ColumnOf(rows, i));
      }
    }
  }
}
