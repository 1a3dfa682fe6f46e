/** The graph definitions of lib/focuslight/graph.rb: the shared base fields,
    the single-series SimpleGraph, the composite ComplexGraph with its data rows
    and colon-joined descriptor, their update methods, and Graph.concrete. */
module Graphs {
  import opened Text
  import opened Values
  import opened Metadata

  /** A database row: its columns, and its 'meta' column already decoded from
      JSON (None when the column is NULL or absent). */
  datatype Row = Row(columns: Hash, meta: Option<Hash>)

  /** The shape test of Graph.concrete. */
  predicate IsSimpleRow(row: Row)
  {
    "mode" in row.columns && "type" in row.columns
  }

  // ---------------------------------------------------------------------
  // Graph#initialize
  // ---------------------------------------------------------------------

  /** The fields every graph reads from its row, with the decoded metadata and
      the two timestamps as the integer seconds handed to Time.at. */
  datatype Base = Base(id: Value, service: Value, section: Value, graph: Value,
                       number: Value, description: Value, sort: Value, meta: Hash,
                       createdAt: int, updatedAt: int)

  /** Graph#initialize: number, sort and the two timestamps through to_i (0 when
      missing or nil), description defaulting to '', and a missing metadata blob
      read as '{}'. Fails when any of the four is a value without to_i (true,
      false, an Array). */
  function InitBase(row: Row): (r: Result<Base>)
    ensures r.Ok? <==> && ToI(Get(row.columns, "number")).Ok? && ToI(Get(row.columns, "sort")).Ok?
                       && ToI(Get(row.columns, "created_at")).Ok? && ToI(Get(row.columns, "updated_at")).Ok?
    ensures r.Ok? ==> (&& r.value.id == Get(row.columns, "id") && r.value.service == Get(row.columns, "service_name")
                       && r.value.section == Get(row.columns, "section_name") && r.value.graph == Get(row.columns, "graph_name"))
    ensures r.Ok? ==> r.value.number.Int? && r.value.sort.Int?
    ensures r.Ok? && "number" !in row.columns ==> r.value.number == Int(0)
    ensures r.Ok? && "sort" !in row.columns ==> r.value.sort == Int(0)
    ensures r.Ok? && "number" in row.columns && row.columns["number"].Int? ==> r.value.number == row.columns["number"]
    ensures r.Ok? && "sort" in row.columns && row.columns["sort"].Int? ==> r.value.sort == row.columns["sort"]
    ensures r.Ok? && !Truthy(Get(row.columns, "description")) ==> r.value.description == Str("")
    ensures r.Ok? && Truthy(Get(row.columns, "description")) ==> r.value.description == row.columns["description"]
    ensures r.Ok? ==> r.value.meta == (if row.meta.Some? then row.meta.value else map[])
    ensures r.Ok? && "created_at" !in row.columns ==> r.value.createdAt == 0
    ensures r.Ok? && "created_at" in row.columns && row.columns["created_at"].Int? ==>
              r.value.createdAt == row.columns["created_at"].num
    ensures r.Ok? && "updated_at" !in row.columns ==> r.value.updatedAt == 0
    ensures r.Ok? && "updated_at" in row.columns && row.columns["updated_at"].Int? ==>
              r.value.updatedAt == row.columns["updated_at"].num
  {
    var c := row.columns;
    match ToI(Get(c, "number"))
    case Err(e) => Err(e)
    case Ok(number) =>
      match ToI(Get(c, "sort"))
      case Err(e) => Err(e)
      case Ok(sort) =>
        match ToI(Get(c, "created_at"))
        case Err(e) => Err(e)
        case Ok(created) =>
          match ToI(Get(c, "updated_at"))
          case Err(e) => Err(e)
          case Ok(updated) =>
            Ok(Base(Get(c, "id"), Get(c, "service_name"), Get(c, "section_name"), Get(c, "graph_name"),
                    Int(number), Or(c, "description", Str("")), Int(sort),
                    match row.meta case Some(m) => m case None => map[], created, updated))
  }

  // ---------------------------------------------------------------------
  // SimpleGraph
  // ---------------------------------------------------------------------

  const DefaultMode: Value := Str("gauge")
  const DefaultColor: Value := Str("#00CC00")
  const DefaultULimit: Value := Int(1000000000000000)
  const DefaultLLimit: Value := Int(0)
  const DefaultSULimit: Value := Int(100000)
  const DefaultSLLimit: Value := Int(0)
  const DefaultType: Value := Str("AREA")
  const DefaultAdjust: Value := Str("*")
  const DefaultAdjustVal: Value := Str("1")
  const DefaultUnit: Value := Str("")

  /** The drawing settings of a single-series graph, which SimpleGraph keeps in
      instance variables of their own. */
  datatype Series = Series(mode: Value, gmode: Value, color: Value, ulimit: Value, llimit: Value,
                           sulimit: Value, sllimit: Value, graphType: Value, stype: Value)

  /** The settings SimpleGraph#initialize reads: each column unless it is
      missing, nil or false, else its default. */
  function SeriesOf(columns: Hash): (s: Series)
    ensures s.mode == (if Truthy(Get(columns, "mode")) then columns["mode"] else DefaultMode)
    ensures s.gmode == (if Truthy(Get(columns, "gmode")) then columns["gmode"] else DefaultMode)
    ensures s.color == (if Truthy(Get(columns, "color")) then columns["color"] else DefaultColor)
    ensures s.ulimit == (if Truthy(Get(columns, "ulimit")) then columns["ulimit"] else DefaultULimit)
    ensures s.llimit == (if Truthy(Get(columns, "llimit")) then columns["llimit"] else DefaultLLimit)
    ensures s.sulimit == (if Truthy(Get(columns, "sulimit")) then columns["sulimit"] else DefaultSULimit)
    ensures s.sllimit == (if Truthy(Get(columns, "sllimit")) then columns["sllimit"] else DefaultSLLimit)
    ensures s.graphType == (if Truthy(Get(columns, "type")) then columns["type"] else DefaultType)
    ensures s.stype == (if Truthy(Get(columns, "stype")) then columns["stype"] else DefaultType)
  {
    Series(Or(columns, "mode", DefaultMode), Or(columns, "gmode", DefaultMode), Or(columns, "color", DefaultColor),
           Or(columns, "ulimit", DefaultULimit), Or(columns, "llimit", DefaultLLimit),
           Or(columns, "sulimit", DefaultSULimit), Or(columns, "sllimit", DefaultSLLimit),
           Or(columns, "type", DefaultType), Or(columns, "stype", DefaultType))
  }

  /** A row with none of the nine setting columns gets every default of the schema. */
  lemma SeriesDefaults(columns: Hash)
    requires "mode" !in columns && "gmode" !in columns && "color" !in columns
    requires "ulimit" !in columns && "llimit" !in columns && "sulimit" !in columns && "sllimit" !in columns
    requires "type" !in columns && "stype" !in columns
    ensures SeriesOf(columns) == Series(Str("gauge"), Str("gauge"), Str("#00CC00"), Int(1000000000000000), Int(0),
                                        Int(100000), Int(0), Str("AREA"), Str("AREA"))
  {
  }

  /** A single-series graph: the base fields, the series settings, and adjust,
      adjustval and unit read from the metadata. */
  class SimpleGraph {
    var base: Base
    var series: Series
    var adjust: Value
    var adjustval: Value
    var unit: Value

    /** The state SimpleGraph#initialize leaves: each column or its default, and
        the three metadata attributes or theirs. */
    ghost predicate InitializedFrom(b: Base, columns: Hash)
      reads this
    {
      && base == b
      && series == SeriesOf(columns)
      && adjust == Fetch(b.meta, "adjust", DefaultAdjust)
      && adjustval == Fetch(b.meta, "adjustval", DefaultAdjustVal)
      && unit == Fetch(b.meta, "unit", DefaultUnit)
    }

    constructor (b: Base, columns: Hash)
      ensures InitializedFrom(b, columns)
    {
      base := b;
      series := SeriesOf(columns);
      adjust := Fetch(b.meta, "adjust", DefaultAdjust);
      adjustval := Fetch(b.meta, "adjustval", DefaultAdjustVal);
      unit := Fetch(b.meta, "unit", DefaultUnit);
    }

    /** SimpleGraph.new(row): the base fields, then the single-series fields. */
    static method New(row: Row) returns (r: Result<SimpleGraph>)
      ensures r.Ok? <==> InitBase(row).Ok?
      ensures r.Ok? ==> fresh(r.value) && r.value.InitializedFrom(InitBase(row).value, row.columns)
      ensures r.Ok? <==> SuperInit(SimpleGraphSuper, [row]).Ok?
    {
      match InitBase(row)
      case Err(e) => r := Err(e);
      case Ok(b) =>
        var g := new SimpleGraph(b, row.columns);
        r := Ok(g);
    }

    /** SimpleGraph#update: each change to a field name is assigned to that
        field, every other change is written into a copy of the metadata, and the
        merged metadata is cleaned of the reserved names. adjust, adjustval and
        unit keep the values read at construction. */
    method Update(args: Hash)
      modifies this
      ensures base == old(base).(number := Fetch(args, "number", old(base.number)),
                                 description := Fetch(args, "description", old(base.description)),
                                 sort := Fetch(args, "sort", old(base.sort)),
                                 meta := MergeChanges(old(base.meta), args, SimpleFields, SimpleReserved))
      ensures series == old(series).(mode := Fetch(args, "mode", old(series.mode)),
                                     gmode := Fetch(args, "gmode", old(series.gmode)),
                                     color := Fetch(args, "color", old(series.color)),
                                     ulimit := Fetch(args, "ulimit", old(series.ulimit)),
                                     llimit := Fetch(args, "llimit", old(series.llimit)),
                                     sulimit := Fetch(args, "sulimit", old(series.sulimit)),
                                     sllimit := Fetch(args, "sllimit", old(series.sllimit)),
                                     graphType := Fetch(args, "type", old(series.graphType)),
                                     stype := Fetch(args, "stype", old(series.stype)))
      ensures adjust == old(adjust) && adjustval == old(adjustval) && unit == old(unit)
    {
      var meta := CollectMeta(base.meta, args, SimpleFields);
      var cleaned := MetaClean(meta);
      base := base.(number := Fetch(args, "number", base.number),
                    description := Fetch(args, "description", base.description),
                    sort := Fetch(args, "sort", base.sort), meta := cleaned);
      var s := series;
      series := Series(Fetch(args, "mode", s.mode), Fetch(args, "gmode", s.gmode), Fetch(args, "color", s.color),
                       Fetch(args, "ulimit", s.ulimit), Fetch(args, "llimit", s.llimit),
                       Fetch(args, "sulimit", s.sulimit), Fetch(args, "sllimit", s.sllimit),
                       Fetch(args, "type", s.graphType), Fetch(args, "stype", s.stype));
    }

    /** SimpleGraph.meta_clean: drops the base keys and the single-series field names. */
    static method MetaClean(args: Hash) returns (r: Hash)
      ensures r == Cleaned(args, SimpleReserved)
    {
      r := DeleteReserved(args, SimpleReserved);
    }
  }

  /** After SimpleGraph#update's merge: every non-reserved change is in the
      metadata with its new value, no reserved name is left, and nothing else was added. */
  lemma SimpleUpdateMeta(meta: Hash, args: Hash)
    ensures var m := MergeChanges(meta, args, SimpleFields, SimpleReserved);
            && (forall k :: k in args && k !in SimpleReserved ==> k in m && m[k] == args[k])
            && (forall k :: k in SimpleReserved ==> k !in m)
            && (forall k :: k in m ==> k in meta || k in args)
  {
    FieldsAreReserved();
  }

  // ---------------------------------------------------------------------
  // ComplexGraph: data rows and descriptor
  // ---------------------------------------------------------------------

  /** One entry of data_rows: a component series and how to draw it. */
  datatype DataRow = DataRow(rowType: Value, path: Value, gmode: Value, stack: Value, graphid: Value)

  /** What ComplexGraph#initialize derives from the metadata: the normalised
      metadata, data_rows, the descriptor (complex_graph) and sumup. */
  datatype Parts = Parts(meta: Hash, dataRows: seq<DataRow>, descriptor: string, sumup: Value)

  /** The four parallel keys of the secondary components. */
  const SecondaryKeys: seq<string> := ["type-2", "path-2", "gmode-2", "stack-2"]

  /** meta[key] = [meta[key]].flatten: an Array is flattened, anything else
      (nil for a missing key) is wrapped in a one-element Array. */
  function FlattenKey(meta: Hash, key: string): (r: Hash)
    ensures key in r && r[key].List?
    ensures !Get(meta, key).List? ==> r[key] == List([Get(meta, key)])
  {
    meta[key := List(Flatten(Get(meta, key)))]
  }

  /** FlattenKey applied to each of keys, one after the other. */
  function FlattenKeys(meta: Hash, keys: seq<string>): Hash
    decreases |keys|
  {
    if keys == [] then meta else FlattenKeys(FlattenKey(meta, keys[0]), keys[1..])
  }

  /** After FlattenKeys every listed key holds an Array, every other key keeps
      its value, and no key is added besides the listed ones. */
  lemma {:induction false} FlattenKeysEffect(meta: Hash, keys: seq<string>)
    ensures var r := FlattenKeys(meta, keys);
            && (forall k :: k in keys ==> k in r && r[k].List?)
            && (forall k :: k in meta && k !in keys ==> k in r && r[k] == meta[k])
            && (forall k :: k in r ==> k in meta || k in keys)
    decreases |keys|
  {
    if keys != [] {
      FlattenKeysEffect(FlattenKey(meta, keys[0]), keys[1..]);
    }
  }

  /** The secondary normalisation: when type-2 is not an Array, each of the four
      secondary keys becomes the Array [meta[k]].flatten (a missing key becomes [nil]). */
  function Normalize(meta: Hash): (r: Hash)
    ensures Get(r, "type-2").List?
    ensures Get(meta, "type-2").List? ==> r == meta
  {
    if Get(meta, "type-2").List? then meta else FlattenKeys(meta, SecondaryKeys)
  }

  /** Each secondary key is rewritten from its own original value, and every other entry is kept. */
  lemma NormalizeRewrites(meta: Hash)
    requires !Get(meta, "type-2").List?
    ensures Normalize(meta) ==
              meta["type-2" := List(Flatten(Get(meta, "type-2")))]["path-2" := List(Flatten(Get(meta, "path-2")))]
                  ["gmode-2" := List(Flatten(Get(meta, "gmode-2")))]["stack-2" := List(Flatten(Get(meta, "stack-2")))]
  {
    assert SecondaryKeys[1..] == ["path-2", "gmode-2", "stack-2"];
    assert SecondaryKeys[1..][1..] == ["gmode-2", "stack-2"];
    assert SecondaryKeys[1..][1..][1..] == ["stack-2"];
  }

  /** The normalisation leaves sump as it was. */
  lemma NormalizeKeepsSump(meta: Hash)
    ensures ("sump" in Normalize(meta)) == ("sump" in meta)
    ensures "sump" in meta ==> Normalize(meta)["sump"] == meta["sump"]
  {
    if !Get(meta, "type-2").List? {
      NormalizeRewrites(meta);
      assert "sump" != "type-2" && "sump" != "path-2" && "sump" != "gmode-2" && "sump" != "stack-2";
    }
  }

  /** The first data row: component 1 of the metadata, never stacked. */
  function PrimaryRow(meta: Hash): (r: DataRow)
    ensures r.graphid == r.path == Get(meta, "path-1")
    ensures r.stack == Bool(false)
  {
    DataRow(Get(meta, "type-1"), Get(meta, "path-1"), Get(meta, "gmode-1"), Bool(false), Get(meta, "path-1"))
  }

  /** Secondary row i: types[i] with entry i of path-2, gmode-2 and stack-2, read
      with Ruby's [] (an error when one of them is nil, true or false). */
  function SecondaryRow(types: seq<Value>, meta: Hash, i: nat): (r: Result<DataRow>)
    requires i < |types|
    ensures r.Ok? <==> At(Get(meta, "path-2"), i).Ok? && At(Get(meta, "gmode-2"), i).Ok? && At(Get(meta, "stack-2"), i).Ok?
    ensures r.Ok? ==> r.value == DataRow(types[i], At(Get(meta, "path-2"), i).value, At(Get(meta, "gmode-2"), i).value,
                                         At(Get(meta, "stack-2"), i).value, At(Get(meta, "path-2"), i).value)
  {
    match At(Get(meta, "path-2"), i)
    case Err(e) => Err(e)
    case Ok(p) =>
      match At(Get(meta, "gmode-2"), i)
      case Err(e) => Err(e)
      case Ok(g) =>
        match At(Get(meta, "stack-2"), i)
        case Err(e) => Err(e)
        case Ok(s) => Ok(DataRow(types[i], p, g, s, p))
  }

  /** The first n secondary rows, or the error of the first one that cannot be read. */
  function SecondaryRows(types: seq<Value>, meta: Hash, n: nat): (r: Result<seq<DataRow>>)
    requires n <= |types|
    ensures r.Ok? <==> forall i :: 0 <= i < n ==> SecondaryRow(types, meta, i).Ok?
    ensures r.Ok? ==> |r.value| == n && forall i :: 0 <= i < n ==> r.value[i] == SecondaryRow(types, meta, i).value
  {
    if n == 0 then Ok([])
    else
      match SecondaryRows(types, meta, n - 1)
      case Err(e) => Err(e)
      case Ok(prev) =>
        match SecondaryRow(types, meta, n - 1)
        case Err(e) => Err(e)
        case Ok(row) => Ok(prev + [row])
  }

  /** Once reading the secondary rows has failed, reading more fails the same way. */
  lemma {:induction false} SecondaryRowsErrSticks(types: seq<Value>, meta: Hash, i: nat, n: nat)
    requires i <= n <= |types|
    requires SecondaryRows(types, meta, i).Err?
    ensures SecondaryRows(types, meta, n) == SecondaryRows(types, meta, i)
    decreases n
  {
    if n > i {
      SecondaryRowsErrSticks(types, meta, i, n - 1);
    }
  }

  /** A row that cannot be read makes reading all the secondary rows fail with its error. */
  lemma SecondaryRowFails(types: seq<Value>, meta: Hash, i: nat, e: Error)
    requires i < |types| && SecondaryRows(types, meta, i).Ok?
    requires SecondaryRow(types, meta, i) == Err(e)
    ensures SecondaryRows(types, meta, |types|) == Err(e)
  {
    assert SecondaryRows(types, meta, i + 1) == Err(e);
    SecondaryRowsErrSticks(types, meta, i + 1, |types|);
  }

  /** A row that is read extends the rows read so far. */
  lemma SecondaryRowsStep(types: seq<Value>, meta: Hash, i: nat, prev: seq<DataRow>, row: DataRow)
    requires i < |types| && SecondaryRows(types, meta, i) == Ok(prev)
    requires SecondaryRow(types, meta, i) == Ok(row)
    ensures SecondaryRows(types, meta, i + 1) == Ok(prev + [row])
  {
  }

  /** The descriptor fields of the primary row: its stack is written as literal 0. */
  function PrimaryFields(r: DataRow): seq<string>
  {
    [JoinStr(r.rowType), JoinStr(r.path), JoinStr(r.gmode), "0"]
  }

  function SecondaryFields(r: DataRow): seq<string>
  {
    [JoinStr(r.rowType), JoinStr(r.path), JoinStr(r.gmode), JoinStr(r.stack)]
  }

  /** The descriptor's fields: the primary row's type, path, gmode and literal
      0, then type, path, gmode and stack of each secondary row in order. */
  function Fields(rows: seq<DataRow>): (fs: seq<string>)
    requires |rows| >= 1
    ensures |fs| == 4 * |rows|
  {
    if |rows| == 1 then PrimaryFields(rows[0])
    else Fields(rows[..|rows| - 1]) + SecondaryFields(rows[|rows| - 1])
  }

  /** Fields 4i to 4i+3 of the descriptor describe row i. */
  lemma {:induction false} FieldsAt(rows: seq<DataRow>, i: nat)
    requires i < |rows|
    ensures var fs := Fields(rows);
            && fs[4 * i] == JoinStr(rows[i].rowType) && fs[4 * i + 1] == JoinStr(rows[i].path)
            && fs[4 * i + 2] == JoinStr(rows[i].gmode)
            && fs[4 * i + 3] == (if i == 0 then "0" else JoinStr(rows[i].stack))
    decreases |rows|
  {
    var n := |rows|;
    if i < n - 1 {
      FieldsAt(rows[..n - 1], i);
      assert rows[..n - 1][i] == rows[i];
    }
  }

  lemma FieldsAppend(rows: seq<DataRow>, row: DataRow)
    requires |rows| >= 1
    ensures Fields(rows + [row]) == Fields(rows) + SecondaryFields(row)
  {
    assert (rows + [row])[..|rows|] == rows;
  }

  /** Extending a descriptor by ':' and the joined fields of one more row gives the descriptor of the longer row list. */
  lemma DescriptorAppend(rows: seq<DataRow>, row: DataRow)
    requires |rows| >= 1
    ensures Join(Fields(rows), ':') + ":" + JoinValues([row.rowType, row.path, row.gmode, row.stack])
            == Join(Fields(rows + [row]), ':')
  {
    var vs := [row.rowType, row.path, row.gmode, row.stack];
    WrittenFour(row);
    assert JoinValues(vs) == Join(SecondaryFields(row), ':');
    JoinAppend(Fields(rows), SecondaryFields(row), ':');
    FieldsAppend(rows, row);
  }

  /** DescriptorAppend with the rows split into the primary row and the secondaries read so far. */
  lemma DescriptorExtend(first: DataRow, secondaries: seq<DataRow>, row: DataRow)
    ensures Join(Fields([first] + secondaries), ':') + ":" + JoinValues([row.rowType, row.path, row.gmode, row.stack])
            == Join(Fields([first] + (secondaries + [row])), ':')
  {
    DescriptorAppend([first] + secondaries, row);
    assert [first] + secondaries + [row] == [first] + (secondaries + [row]);
  }

  lemma WrittenFour(row: DataRow)
    ensures Written([row.rowType, row.path, row.gmode, row.stack]) == SecondaryFields(row)
  {
    var vs := [row.rowType, row.path, row.gmode, row.stack];
    assert Written(vs[3..]) == [JoinStr(row.stack)];
    assert Written(vs[2..]) == [JoinStr(row.gmode)] + Written(vs[3..]);
    assert Written(vs[1..]) == [JoinStr(row.path)] + Written(vs[2..]);
  }

  /** The canonical descriptor (complex_graph): the fields of all rows joined with ':'. */
  function Descriptor(rows: seq<DataRow>): (d: string)
    requires |rows| >= 1
    ensures (forall i :: 0 <= i < |Fields(rows)| ==> ':' !in Fields(rows)[i]) ==> Split(d, ':') == Fields(rows)
  {
    FieldsSplitBack(Fields(rows));
    Join(Fields(rows), ':')
  }

  /** SplitJoin, for the case where its precondition holds. */
  lemma FieldsSplitBack(fs: seq<string>)
    requires |fs| >= 1
    ensures (forall i :: 0 <= i < |fs| ==> ':' !in fs[i]) ==> Split(Join(fs, ':'), ':') == fs
  {
    if forall i :: 0 <= i < |fs| ==> ':' !in fs[i] {
      SplitJoin(fs, ':');
    }
  }

  /** ComplexGraph#initialize on decoded metadata: the primary row, the
      normalised secondaries, the descriptor and sumup (meta['sump'], default 0). */
  function ComplexParts(meta: Hash): (r: Result<Parts>)
    ensures r.Ok? ==> r.value.meta == Normalize(meta)
    ensures r.Ok? ==> |r.value.dataRows| == 1 + |Get(Normalize(meta), "type-2").items|
    ensures r.Ok? ==> r.value.dataRows[0] == DataRow(Get(meta, "type-1"), Get(meta, "path-1"), Get(meta, "gmode-1"),
                                                     Bool(false), Get(meta, "path-1"))
    ensures r.Ok? ==> forall i :: 0 <= i < |r.value.dataRows| ==> r.value.dataRows[i].graphid == r.value.dataRows[i].path
    ensures r.Ok? ==> r.value.descriptor == Join(Fields(r.value.dataRows), ':')
    ensures r.Ok? && "sump" in meta ==> r.value.sumup == meta["sump"]
    ensures r.Ok? && "sump" !in meta ==> r.value.sumup == Int(0)
  {
    var m := Normalize(meta);
    var types := Get(m, "type-2").items;
    NormalizeKeepsSump(meta);
    match SecondaryRows(types, m, |types|)
    case Err(e) => Err(e)
    case Ok(secondaries) =>
      var rows := [PrimaryRow(meta)] + secondaries;
      GraphidsArePaths(PrimaryRow(meta), secondaries);
      Ok(Parts(m, rows, Descriptor(rows), Fetch(m, "sump", Int(0))))
  }

  /** Prepending a row whose graphid is its path keeps every graphid equal to its path. */
  lemma GraphidsArePaths(first: DataRow, rest: seq<DataRow>)
    requires first.graphid == first.path
    requires forall i :: 0 <= i < |rest| ==> rest[i].graphid == rest[i].path
    ensures var rows := [first] + rest; forall i :: 0 <= i < |rows| ==> rows[i].graphid == rows[i].path
  {
    var rows := [first] + rest;
    assert forall i :: 1 <= i < |rows| ==> rows[i] == rest[i - 1];
  }

  /** The descriptor prefix written for the primary row is the descriptor of that row alone. */
  lemma PrimaryDescriptor(first: DataRow)
    ensures JoinValues([first.rowType, first.path, first.gmode]) + ":0" == Join(Fields([first]), ':')
  {
    var head := [JoinStr(first.rowType), JoinStr(first.path), JoinStr(first.gmode)];
    var vs := [first.rowType, first.path, first.gmode];
    assert Written(vs[2..]) == [JoinStr(first.gmode)];
    assert Written(vs[1..]) == [JoinStr(first.path)] + Written(vs[2..]);
    assert Written(vs) == head;
    JoinAppend(head, ["0"], ':');
    assert head + ["0"] == PrimaryFields(first);
  }

  /** A secondary row that cannot be read makes the construction fail with its error. */
  lemma PartsFail(meta: Hash, e: Error)
    requires var types := Get(Normalize(meta), "type-2").items;
             SecondaryRows(types, Normalize(meta), |types|) == Err(e)
    ensures ComplexParts(meta) == Err(e)
  {
  }

  /** The primary row followed by every secondary row gives the composite parts. */
  lemma PartsBuilt(meta: Hash, secondaries: seq<DataRow>)
    requires var types := Get(Normalize(meta), "type-2").items;
             SecondaryRows(types, Normalize(meta), |types|) == Ok(secondaries)
    ensures var rows := [PrimaryRow(meta)] + secondaries;
            ComplexParts(meta) == Ok(Parts(Normalize(meta), rows, Descriptor(rows), Fetch(Normalize(meta), "sump", Int(0))))
  {
  }

  /** The `unless ... is_a?(Array)` step of ComplexGraph#initialize: rewrites
      the four secondary keys in place, one after the other. */
  method NormalizeSecondaries(meta0: Hash) returns (meta: Hash)
    ensures meta == Normalize(meta0)
  {
    meta := meta0;
    if !Get(meta, "type-2").List? {
      for j := 0 to |SecondaryKeys|
        invariant FlattenKeys(meta, SecondaryKeys[j..]) == FlattenKeys(meta0, SecondaryKeys)
      {
        var key := SecondaryKeys[j];
        assert SecondaryKeys[j..][1..] == SecondaryKeys[j + 1..];
        meta := meta[key := List(Flatten(Get(meta, key)))];
      }
    }
  }

  /** One pass of the each_with_index loop: t, p, g and s read from the
      normalised metadata with Ruby's [], failing at the first receiver without []. */
  method ReadSecondary(types: seq<Value>, meta: Hash, i: nat) returns (r: Result<DataRow>)
    requires i < |types|
    ensures r == SecondaryRow(types, meta, i)
  {
    var t := types[i];
    var p := At(Get(meta, "path-2"), i);
    if p.Err? { return Err(p.error); }
    var g := At(Get(meta, "gmode-2"), i);
    if g.Err? { return Err(g.error); }
    var s := At(Get(meta, "stack-2"), i);
    if s.Err? { return Err(s.error); }
    r := Ok(DataRow(t, p.value, g.value, s.value, p.value));
  }

  /** ComplexGraph#initialize: the primary row and descriptor prefix, the
      normalisation, the row loop, then sumup. */
  method BuildParts(meta0: Hash) returns (r: Result<Parts>)
    ensures r == ComplexParts(meta0)
  {
    var first := PrimaryRow(meta0);
    var uri := JoinValues([first.rowType, first.path, first.gmode]) + ":0";
    PrimaryDescriptor(first);
    var meta := NormalizeSecondaries(meta0);
    var types := Get(meta, "type-2").items;
    var rows;
    rows, uri := AppendSecondaries(types, meta, first, uri);
    if rows.Err? {
      PartsFail(meta0, rows.error);
      return Err(rows.error);
    }
    PartsBuilt(meta0, SecondaryRows(types, meta, |types|).value);
    r := Ok(Parts(meta, rows.value, uri, Fetch(meta, "sump", Int(0))));
  }

  /** The loop of ComplexGraph#initialize that appends one row per entry of
      type-2 and extends the descriptor by ':t:p:g:s' for each; it stops at the
      first entry that cannot be read. */
  method AppendSecondaries(types: seq<Value>, meta: Hash, first: DataRow, uri0: string)
    returns (r: Result<seq<DataRow>>, uri: string)
    requires uri0 == Join(Fields([first]), ':')
    ensures r.Err? ==> SecondaryRows(types, meta, |types|) == Err(r.error)
    ensures r.Ok? ==> && SecondaryRows(types, meta, |types|).Ok?
                      && r.value == [first] + SecondaryRows(types, meta, |types|).value
                      && uri == Join(Fields(r.value), ':')
  {
    var secondaries := [];
    uri := uri0;
    var i := 0;
    while i < |types|
      invariant 0 <= i <= |types|
      invariant SecondaryRows(types, meta, i) == Ok(secondaries)
      invariant uri == Join(Fields([first] + secondaries), ':')
    {
      var next;
      next, uri := AppendRow(types, meta, i, first, secondaries, uri);
      if next.Err? {
        return Err(next.error), uri;
      }
      secondaries := next.value;
      i := i + 1;
    }
    r := Ok([first] + secondaries);
  }

  /** One pass of the each_with_index loop: read row i, append it, and extend
      the descriptor by its four fields. */
  method AppendRow(types: seq<Value>, meta: Hash, i: nat, first: DataRow, secondaries: seq<DataRow>, uri0: string)
    returns (r: Result<seq<DataRow>>, uri: string)
    requires i < |types| && SecondaryRows(types, meta, i) == Ok(secondaries)
    requires uri0 == Join(Fields([first] + secondaries), ':')
    ensures r.Err? ==> SecondaryRows(types, meta, |types|) == Err(r.error)
    ensures r.Ok? ==> SecondaryRows(types, meta, i + 1) == r && uri == Join(Fields([first] + r.value), ':')
  {
    var next := ReadSecondary(types, meta, i);
    if next.Err? {
      SecondaryRowFails(types, meta, i, next.error);
      return Err(next.error), uri0;
    }
    var row := next.value;
    SecondaryRowsStep(types, meta, i, secondaries, row);
    DescriptorExtend(first, secondaries, row);
    uri := uri0 + ":" + JoinValues([row.rowType, row.path, row.gmode, row.stack]);
    r := Ok(secondaries + [row]);
  }

  /** A composite graph. Its data rows and descriptor are derived once, at
      construction; update changes only the base fields and the metadata. */
  class ComplexGraph {
    var base: Base
    var sumup: Value
    var dataRows: seq<DataRow>
    var complexGraph: string

    /** The rows and the descriptor agree: at least the primary row, which is
        never stacked, and the descriptor is their fields joined by ':'. */
    ghost predicate Valid()
      reads this
    {
      && |dataRows| >= 1
      && dataRows[0].stack == Bool(false)
      && complexGraph == Join(Fields(dataRows), ':')
      && (forall i :: 0 <= i < |dataRows| ==> dataRows[i].graphid == dataRows[i].path)
    }

    constructor (b: Base, parts: Parts)
      requires |parts.dataRows| >= 1 && parts.dataRows[0].stack == Bool(false)
      requires parts.descriptor == Join(Fields(parts.dataRows), ':')
      requires forall i :: 0 <= i < |parts.dataRows| ==> parts.dataRows[i].graphid == parts.dataRows[i].path
      ensures Valid()
      ensures base == b.(meta := parts.meta) && sumup == parts.sumup
      ensures dataRows == parts.dataRows && complexGraph == parts.descriptor
    {
      base := b.(meta := parts.meta);
      sumup := parts.sumup;
      dataRows := parts.dataRows;
      complexGraph := parts.descriptor;
    }

    /** ComplexGraph.new(row), with the base fields of Graph#initialize. */
    static method New(row: Row) returns (r: Result<ComplexGraph>)
      ensures r.Ok? <==> InitBase(row).Ok? && ComplexParts(InitBase(row).value.meta).Ok?
      ensures r.Ok? ==> fresh(r.value) && r.value.Valid()
      ensures r.Ok? ==> var p := ComplexParts(InitBase(row).value.meta).value;
                        && r.value.base == InitBase(row).value.(meta := p.meta)
                        && r.value.dataRows == p.dataRows && r.value.complexGraph == p.descriptor
                        && r.value.sumup == p.sumup
      ensures r.Ok? <==> ComplexInit(GraphClass, row).Ok?
      ensures r.Ok? ==> var b := ComplexInit(GraphClass, row).value;
                        && r.value.base == b.base.(meta := b.parts.meta) && r.value.dataRows == b.parts.dataRows
                        && r.value.complexGraph == b.parts.descriptor && r.value.sumup == b.parts.sumup
    {
      match InitBase(row)
      case Err(e) => r := Err(e);
      case Ok(b) =>
        var parts := BuildParts(b.meta);
        match parts
        case Err(e) => r := Err(e);
        case Ok(p) =>
          var g := new ComplexGraph(b, p);
          r := Ok(g);
    }

    /** ComplexGraph#update: number, description and sort are fields, every other
        change goes into the metadata, which is then cleaned of the base keys.
        The data rows and the descriptor are not re-derived. */
    method Update(args: Hash)
      modifies this
      ensures base == old(base).(number := Fetch(args, "number", old(base.number)),
                                 description := Fetch(args, "description", old(base.description)),
                                 sort := Fetch(args, "sort", old(base.sort)),
                                 meta := MergeChanges(old(base.meta), args, ComplexFields, ComplexReserved))
      ensures dataRows == old(dataRows) && complexGraph == old(complexGraph) && sumup == old(sumup)
      ensures old(Valid()) ==> Valid()
    {
      var meta := CollectMeta(base.meta, args, ComplexFields);
      var cleaned := MetaClean(meta);
      base := base.(number := Fetch(args, "number", base.number),
                    description := Fetch(args, "description", base.description),
                    sort := Fetch(args, "sort", base.sort), meta := cleaned);
    }

    /** ComplexGraph.meta_clean: drops only the base keys. */
    static method MetaClean(args: Hash) returns (r: Hash)
      ensures r == Cleaned(args, ComplexReserved)
    {
      r := DeleteReserved(args, ComplexReserved);
    }
  }

  /** After ComplexGraph#update's merge every change except to a base key is in
      the metadata, composite keys such as type-2 included. */
  lemma ComplexUpdateMeta(meta: Hash, args: Hash)
    ensures var m := MergeChanges(meta, args, ComplexFields, ComplexReserved);
            && (forall k :: k in args && k !in BaseKeys ==> k in m && m[k] == args[k])
            && (forall k :: k in BaseKeys ==> k !in m)
  {
    FieldsAreReserved();
  }

  // ---------------------------------------------------------------------
  // Properties of the composite construction
  // ---------------------------------------------------------------------

  /** type-2 = [] gives only the primary row, and the descriptor 'type-1:path-1:gmode-1:0'. */
  lemma NoSecondaries(meta: Hash)
    requires Get(meta, "type-2") == List([])
    ensures ComplexParts(meta).Ok?
    ensures ComplexParts(meta).value.dataRows == [PrimaryRow(meta)]
    ensures ComplexParts(meta).value.descriptor ==
              JoinStr(Get(meta, "type-1")) + ":" + JoinStr(Get(meta, "path-1")) + ":" + JoinStr(Get(meta, "gmode-1")) + ":0"
  {
    var first := PrimaryRow(meta);
    assert Normalize(meta) == meta;
    PartsBuilt(meta, []);
    assert [first] + [] == [first];
    assert Fields([first]) == PrimaryFields(first);
    JoinFour(JoinStr(first.rowType), JoinStr(first.path), JoinStr(first.gmode), "0");
  }

  /** Four fields joined by ':'. */
  lemma JoinFour(a: string, b: string, c: string, d: string)
    ensures Join([a, b, c, d], ':') == a + ":" + b + ":" + c + ":" + d
  {
    assert [a, b, c, d][1..] == [b, c, d];
    assert [b, c, d][1..] == [c, d];
    assert [c, d][1..] == [d];
    assert Join([c, d], ':') == c + [':'] + d;
    assert Join([b, c, d], ':') == b + [':'] + (c + [':'] + d);
    assert Join([a, b, c, d], ':') == a + [':'] + (b + [':'] + (c + [':'] + d));
  }

  /** Missing secondary keys are coerced to [nil], so the graph gets one secondary row of nils. */
  lemma MissingSecondaries(meta: Hash)
    requires "type-2" !in meta && "path-2" !in meta && "gmode-2" !in meta && "stack-2" !in meta
    ensures ComplexParts(meta).Ok?
    ensures ComplexParts(meta).value.dataRows == [PrimaryRow(meta), DataRow(Nil, Nil, Nil, Nil, Nil)]
  {
    var m := Normalize(meta);
    NormalizeRewrites(meta);
    assert Get(m, "type-2").items == [Nil];
    assert SecondaryRow([Nil], m, 0) == Ok(DataRow(Nil, Nil, Nil, Nil, Nil));
  }

  /** A type-2 that is not an Array gives exactly one secondary row, and reading it cannot fail. */
  lemma ScalarSecondaryRows(meta: Hash)
    requires !Get(meta, "type-2").List?
    ensures ComplexParts(meta).Ok? && |ComplexParts(meta).value.dataRows| == 2
  {
    var m := Normalize(meta);
    NormalizeRewrites(meta);
    var t := Get(meta, "type-2");
    assert Flatten(t) == [t];
    assert Get(m, "type-2").items == [t];
    assert SecondaryRow([t], m, 0).Ok?;
    assert SecondaryRows([t], m, 1).Ok?;
  }

  /** A scalar type-2 (one secondary given without Arrays) builds the same graph
      as the same scalars given as one-element Arrays. */
  lemma ScalarSecondaryAsArray(meta: Hash, t: Value, p: Value, g: Value, s: Value)
    requires !t.List? && !p.List? && !g.List? && !s.List?
    ensures var scalars := meta["type-2" := t]["path-2" := p]["gmode-2" := g]["stack-2" := s];
            var arrays := meta["type-2" := List([t])]["path-2" := List([p])]["gmode-2" := List([g])]["stack-2" := List([s])];
            ComplexParts(scalars) == ComplexParts(arrays)
  {
    var scalars := meta["type-2" := t]["path-2" := p]["gmode-2" := g]["stack-2" := s];
    var arrays := meta["type-2" := List([t])]["path-2" := List([p])]["gmode-2" := List([g])]["stack-2" := List([s])];
    NormalizeScalars(meta, t, p, g, s);
    assert Normalize(arrays) == arrays;
    assert PrimaryRow(scalars) == PrimaryRow(arrays);
    SameParts(scalars, arrays);
  }

  lemma NormalizeScalars(meta: Hash, t: Value, p: Value, g: Value, s: Value)
    requires !t.List? && !p.List? && !g.List? && !s.List?
    ensures var scalars := meta["type-2" := t]["path-2" := p]["gmode-2" := g]["stack-2" := s];
            Normalize(scalars) == meta["type-2" := List([t])]["path-2" := List([p])]["gmode-2" := List([g])]["stack-2" := List([s])]
  {
    var scalars := meta["type-2" := t]["path-2" := p]["gmode-2" := g]["stack-2" := s];
    NormalizeRewrites(scalars);
    SecondaryKeysDistinct();
    WrapScalars(meta, "type-2", "path-2", "gmode-2", "stack-2", t, p, g, s);
  }

  lemma SecondaryKeysDistinct()
    ensures "type-2" != "path-2" && "type-2" != "gmode-2" && "type-2" != "stack-2"
    ensures "path-2" != "gmode-2" && "path-2" != "stack-2" && "gmode-2" != "stack-2"
  {
    assert "type-2"[0] != "path-2"[0] && "gmode-2"[0] != "stack-2"[0];
  }

  /** Flattening four distinct keys that hold scalars wraps each scalar in a one-element Array. */
  lemma WrapScalars(meta: Hash, k1: string, k2: string, k3: string, k4: string, t: Value, p: Value, g: Value, s: Value)
    requires k1 != k2 && k1 != k3 && k1 != k4 && k2 != k3 && k2 != k4 && k3 != k4
    requires !t.List? && !p.List? && !g.List? && !s.List?
    ensures var sc := meta[k1 := t][k2 := p][k3 := g][k4 := s];
            sc[k1 := List(Flatten(Get(sc, k1)))][k2 := List(Flatten(Get(sc, k2)))]
              [k3 := List(Flatten(Get(sc, k3)))][k4 := List(Flatten(Get(sc, k4)))]
            == meta[k1 := List([t])][k2 := List([p])][k3 := List([g])][k4 := List([s])]
  {
    var sc := meta[k1 := t][k2 := p][k3 := g][k4 := s];
    assert Get(sc, k1) == t && Get(sc, k2) == p && Get(sc, k3) == g && Get(sc, k4) == s;
    assert Flatten(t) == [t] && Flatten(p) == [p] && Flatten(g) == [g] && Flatten(s) == [s];
  }

  /** The composite parts depend on the metadata only through its normalisation and its primary row. */
  lemma SameParts(a: Hash, b: Hash)
    requires Normalize(a) == Normalize(b) && PrimaryRow(a) == PrimaryRow(b)
    ensures ComplexParts(a) == ComplexParts(b)
  {
  }

  /** When the four secondary keys hold Arrays, construction cannot fail; a
      path-2, gmode-2 or stack-2 shorter than type-2 gives nil entries. */
  lemma ArraySecondaries(meta: Hash)
    requires Get(meta, "type-2").List? && Get(meta, "path-2").List?
    requires Get(meta, "gmode-2").List? && Get(meta, "stack-2").List?
    ensures ComplexParts(meta).Ok?
    ensures var rows := ComplexParts(meta).value.dataRows;
            var types := Get(meta, "type-2").items;
            |rows| == |types| + 1 &&
            forall i :: 0 <= i < |types| ==>
              && rows[i + 1].rowType == types[i]
              && rows[i + 1].path == (if i < |Get(meta, "path-2").items| then Get(meta, "path-2").items[i] else Nil)
              && rows[i + 1].gmode == (if i < |Get(meta, "gmode-2").items| then Get(meta, "gmode-2").items[i] else Nil)
              && rows[i + 1].stack == (if i < |Get(meta, "stack-2").items| then Get(meta, "stack-2").items[i] else Nil)
  {
    var types := Get(meta, "type-2").items;
    var sec := SecondaryRows(types, meta, |types|);
    assert sec.Ok?;
    var rows := ComplexParts(meta).value.dataRows;
    assert rows == [PrimaryRow(meta)] + sec.value;
  }

  /** A non-empty type-2 Array with no path-2 fails: nil has no []. */
  lemma MissingPathFails(meta: Hash)
    requires Get(meta, "type-2").List? && |Get(meta, "type-2").items| > 0
    requires "path-2" !in meta
    ensures ComplexParts(meta) == Err(NoMethodError("[]"))
  {
    var types := Get(meta, "type-2").items;
    assert SecondaryRows(types, meta, 1) == Err(NoMethodError("[]"));
    SecondaryRowsErrSticks(types, meta, 1, |types|);
  }

  // ---------------------------------------------------------------------
  // Graph.concrete
  // ---------------------------------------------------------------------

  datatype Graph = Simple(simple: SimpleGraph) | Complex(complex: ComplexGraph)

  /** Graph.concrete: a SimpleGraph exactly when the row has both a 'mode' and a
      'type' key, otherwise a ComplexGraph. */
  method Concrete(row: Row) returns (r: Result<Graph>)
    ensures r.Ok? ==> (r.value.Simple? <==> IsSimpleRow(row))
    ensures IsSimpleRow(row) ==> (r.Ok? <==> InitBase(row).Ok?)
    ensures !IsSimpleRow(row) ==> (r.Ok? <==> InitBase(row).Ok? && ComplexParts(InitBase(row).value.meta).Ok?)
    ensures !IsSimpleRow(row) ==> (r.Ok? <==> ComplexInit(GraphClass, row).Ok?)
    ensures r.Ok? && r.value.Simple? ==> fresh(r.value.simple) && r.value.simple.InitializedFrom(InitBase(row).value, row.columns)
    ensures r.Ok? && r.value.Complex? ==> fresh(r.value.complex) && r.value.complex.Valid()
    ensures r.Ok? && r.value.Complex? ==>
              var p := ComplexParts(InitBase(row).value.meta).value;
              && r.value.complex.base == InitBase(row).value.(meta := p.meta)
              && r.value.complex.dataRows == p.dataRows && r.value.complex.complexGraph == p.descriptor
              && r.value.complex.sumup == p.sumup
  {
    if IsSimpleRow(row) {
      var g := SimpleGraph.New(row);
      r := match g case Ok(s) => Ok(Simple(s)) case Err(e) => Err(e);
    } else {
      var g := ComplexGraph.New(row);
      r := match g case Ok(c) => Ok(Complex(c)) case Err(e) => Err(e);
    }
  }

  // ---------------------------------------------------------------------
  // The superclass that ComplexGraph#initialize's super reaches
  // ---------------------------------------------------------------------

  /** The classes whose initialize a bare super can reach. */
  datatype Super = ObjectClass | GraphClass

  /** The superclass of SimpleGraph, declared as `SimpleGraph < Graph`. */
  const SimpleGraphSuper: Super := GraphClass

  /** The superclass of ComplexGraph: declared with no `<`, it is Object. */
  const ComplexGraphSuper: Super := ObjectClass

  /** The number of arguments each initialize takes: Object#initialize none,
      Graph#initialize(row) one. */
  function Arity(s: Super): nat
  {
    match s
    case ObjectClass => 0
    case GraphClass => 1
  }

  /** Calling the superclass's initialize with args: a call with the wrong number
      of arguments raises ArgumentError; Object#initialize sets no instance
      variable (None), Graph#initialize sets the base fields. */
  function SuperInit(s: Super, args: seq<Row>): (r: Result<Option<Base>>)
    ensures |args| != Arity(s) ==> r == Err(ArgumentError)
    ensures s == ObjectClass && args == [] ==> r == Ok(None)
    ensures s == GraphClass && |args| == 1 ==>
              (r.Ok? <==> InitBase(args[0]).Ok?) && (r.Ok? ==> r.value == Some(InitBase(args[0]).value))
  {
    if |args| != Arity(s) then Err(ArgumentError)
    else
      match s
      case ObjectClass => Ok(None)
      case GraphClass =>
        match InitBase(args[0])
        case Err(e) => Err(e)
        case Ok(b) => Ok(Some(b))
  }

  /** What ComplexGraph#initialize builds: the base fields and the parts. */
  datatype Built = Built(base: Base, parts: Parts)

  /** ComplexGraph#initialize(row) under superclass s: the bare super forwards
      [row], then the parts are built from the decoded metadata. The Ok(None)
      branch (no base fields set, so `@parsed_meta[k]` is nil[k]) is what
      Object#initialize would leave if it accepted the call; since it takes no
      arguments and super always passes one, that branch is never taken. */
  function ComplexInit(s: Super, row: Row): (r: Result<Built>)
    ensures s == GraphClass ==>
              (r.Ok? <==> InitBase(row).Ok? && ComplexParts(InitBase(row).value.meta).Ok?)
    ensures s == GraphClass && r.Ok? ==>
              r.value == Built(InitBase(row).value, ComplexParts(InitBase(row).value.meta).value)
    ensures s == ObjectClass ==> r == Err(ArgumentError)
  {
    match SuperInit(s, [row])
    case Err(e) => Err(e)
    case Ok(None) => Err(NoMethodError("[]"))
    case Ok(Some(b)) =>
      match ComplexParts(b.meta)
      case Err(e) => Err(e)
      case Ok(p) => Ok(Built(b, p))
  }

  /** As declared, ComplexGraph.new raises ArgumentError for every row. */
  lemma ComplexAsDeclaredRaises(row: Row)
    ensures ComplexInit(ComplexGraphSuper, row) == Err(ArgumentError)
  {
  }

  /** A row with no columns and no metadata: the construction with Graph as
      superclass succeeds (with the phantom nil secondary), the declared one raises. */
  lemma ComplexInheritanceWitness()
    ensures ComplexInit(ComplexGraphSuper, Row(map[], None)) == Err(ArgumentError)
    ensures ComplexInit(GraphClass, Row(map[], None)).Ok?
  {
    MissingSecondaries(map[]);
  }
}
