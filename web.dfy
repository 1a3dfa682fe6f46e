/** The composite-graph logic that the web routes run inline: the count of
    secondary series a submitted form declares, the binder that turns a stored
    composite graph's data rows into the series to draw, and the parser that
    does the same from a descriptor 'type:id:gmode:stack:...' in the URL. The
    graph lookup by id (the data layer's get_by_id) is a parameter. */
module Web {
  import opened Text
  import opened Values
  import opened Graphs

  // ---------------------------------------------------------------------
  // type2s_num
  // ---------------------------------------------------------------------

  /** type2s && (!type2s.empty?) ? type2s.size : 1, on the type-2 request
      parameter: nil and false give 1; a String or an Array gives its size
      unless it is empty; integers and true have no empty?. */
  function Type2sNum(v: Value): (r: Result<nat>)
    ensures r.Ok? <==> !(v.Int? || v == Bool(true))
    ensures r.Ok? ==> r.value >= 1
    ensures v.List? && v.items != [] ==> r == Ok(|v.items|)
    ensures v.Str? && v.text != [] ==> r == Ok(|v.text|)
    ensures !Truthy(v) || v == List([]) || v == Str([]) ==> r == Ok(1)
  {
    if !Truthy(v) then Ok(1)
    else if v.List? then Ok(if v.items == [] then 1 else |v.items|)
    else if v.Str? then Ok(if v.text == [] then 1 else |v.text|)
    else Err(NoMethodError("empty?"))
  }

  /** A single String type-2 is counted by its characters, while the composite
      graph built from it has one secondary series. */
  lemma Type2sNumCountsCharacters(meta: Hash)
    requires Get(meta, "type-2") == Str("AREA")
    ensures Type2sNum(Get(meta, "type-2")) == Ok(4)
    ensures ComplexParts(meta).Ok? && |ComplexParts(meta).value.dataRows| == 2
  {
    ScalarSecondaryRows(meta);
  }

  /** The count of secondary series when a lone scalar type-2 is counted as
      one series, as the construction of the graph treats it. */
  function SecondaryCount(v: Value): (r: Result<nat>)
    ensures r.Ok? <==> !(v.Int? || v == Bool(true))
    ensures r.Ok? ==> r.value >= 1
    ensures v.List? && v.items != [] ==> r == Ok(|v.items|)
    ensures v.Str? ==> r == Ok(1)
    ensures !Truthy(v) || v == List([]) ==> r == Ok(1)
  {
    if !Truthy(v) then Ok(1)
    else if v.List? then Ok(if v.items == [] then 1 else |v.items|)
    else if v.Str? then Ok(1)
    else Err(NoMethodError("empty?"))
  }

  /** For the shapes a form submits (absent, one String, a non-empty Array),
      the count is the number of secondary rows of the graph built from it. */
  lemma SecondaryCountMatchesRows(meta: Hash)
    requires var v := Get(meta, "type-2"); v.Nil? || v.Str? || (v.List? && v.items != [])
    requires ComplexParts(meta).Ok?
    ensures |ComplexParts(meta).value.dataRows| == 1 + SecondaryCount(Get(meta, "type-2")).value
  {
    if !Get(meta, "type-2").List? {
      ScalarSecondaryRows(meta);
    }
  }

  // ---------------------------------------------------------------------
  // Binding looked-up graphs
  // ---------------------------------------------------------------------

  /** A looked-up graph with the three attributes the route assigns to it
      before drawing: c_type, c_gmode and stack. */
  datatype Bound<G> = Bound(graph: G, cType: Value, cGmode: Value, stack: Value)

  /** The data_rows binder, as a specification: every row's graphid is looked
      up and bound with the row's type, gmode and stack; a graphid with no
      graph makes the route fail (nil has no c_type=). */
  function BindRowsSpec<G>(rows: seq<DataRow>, lookup: Value -> Option<G>): (r: Result<seq<Bound<G>>>)
    ensures r.Ok? <==> forall i :: 0 <= i < |rows| ==> lookup(rows[i].graphid).Some?
    ensures r.Err? ==> r == Err(NoMethodError("c_type="))
    ensures r.Ok? ==> |r.value| == |rows|
    ensures r.Ok? ==> forall i :: 0 <= i < |rows| ==>
              r.value[i] == Bound(lookup(rows[i].graphid).value, rows[i].rowType, rows[i].gmode, rows[i].stack)
  {
    if rows == [] then Ok([])
    else
      var last := rows[|rows| - 1];
      match BindRowsSpec(rows[..|rows| - 1], lookup)
      case Err(e) => Err(e)
      case Ok(prev) =>
        match lookup(last.graphid)
        case None => Err(NoMethodError("c_type="))
        case Some(g) => Ok(prev + [Bound(g, last.rowType, last.gmode, last.stack)])
  }

  /** The data_rows loop of the complex graph and xport routes: one entry per
      row, in order, pushed onto data. */
  method BindRows<G>(rows: seq<DataRow>, lookup: Value -> Option<G>) returns (r: Result<seq<Bound<G>>>)
    ensures r == BindRowsSpec(rows, lookup)
  {
    var data: seq<Bound<G>> := [];
    var i := 0;
    while i < |rows|
      invariant 0 <= i <= |rows|
      invariant BindRowsSpec(rows[..i], lookup) == Ok(data)
    {
      var row := rows[i];
      assert rows[..i + 1][..i] == rows[..i];
      var g := lookup(row.graphid);
      if g.None? {
        BindRowsErrSticks(rows, lookup, i + 1);
        return Err(NoMethodError("c_type="));
      }
      data := data + [Bound(g.value, row.rowType, row.gmode, row.stack)];
      i := i + 1;
    }
    assert rows[..|rows|] == rows;
    r := Ok(data);
  }

  /** Once a prefix of the rows fails to bind, every longer prefix fails. */
  lemma {:induction false} BindRowsErrSticks<G>(rows: seq<DataRow>, lookup: Value -> Option<G>, n: nat)
    requires n <= |rows| && BindRowsSpec(rows[..n], lookup).Err?
    ensures BindRowsSpec(rows, lookup).Err?
    decreases |rows| - n
  {
    if n < |rows| {
      assert rows[..n + 1][..n] == rows[..n];
      BindRowsErrSticks(rows, lookup, n + 1);
    } else {
      assert rows[..n] == rows;
    }
  }

  // ---------------------------------------------------------------------
  // Parsing a descriptor
  // ---------------------------------------------------------------------

  /** One slice of each_slice(4): the block's type, id, gmode and stack, each a
      String token or nil past the end of the tokens. */
  datatype Group = Group(rowType: Value, id: Value, gmode: Value, stack: Value)

  function Token(ts: seq<string>, i: nat): Value
  {
    if i < |ts| then Str(ts[i]) else Nil
  }

  /** tokens.each_slice(4), with the block parameters of a short last slice bound to nil. */
  function Slices4(ts: seq<string>): (gs: seq<Group>)
    ensures |gs| == (|ts| + 3) / 4
    decreases |ts|
  {
    if ts == [] then []
    else [Group(Token(ts, 0), Token(ts, 1), Token(ts, 2), Token(ts, 3))]
         + Slices4(ts[if |ts| < 4 then |ts| else 4..])
  }

  /** Slice i holds tokens 4i to 4i+3. */
  lemma {:induction false} Slices4At(ts: seq<string>, i: nat)
    requires i < |Slices4(ts)|
    ensures Slices4(ts)[i] == Group(Token(ts, 4 * i), Token(ts, 4 * i + 1), Token(ts, 4 * i + 2), Token(ts, 4 * i + 3))
    decreases |ts|
  {
    if i > 0 {
      var rest := ts[if |ts| < 4 then |ts| else 4..];
      Slices4At(rest, i - 1);
      var m := 4 * (i - 1);
      assert Token(rest, m) == Token(ts, m + 4) && Token(rest, m + 1) == Token(ts, m + 5);
      assert Token(rest, m + 2) == Token(ts, m + 6) && Token(rest, m + 3) == Token(ts, m + 7);
    }
  }

  /** !!(stack =~ /^(1|true)$/i): a token is a stack flag when one of its lines
      is "1" or "true" in any case; nil is never one. */
  function StackFlag(stack: Value): (r: bool)
    ensures r ==> stack.Str?
    ensures stack.Str? && '\n' !in stack.text ==> (r <==> IsStackWord(stack.text))
  {
    if stack.Str? && '\n' !in stack.text then MatchesStackOneLine(stack.text); MatchesStack(stack.text)
    else stack.Str? && MatchesStack(stack.text)
  }

  /** What one slice contributes: nothing when no graph has its id (next unless
      g), otherwise the graph bound with the slice's type, gmode and stack flag. */
  function BindGroup<G>(group: Group, lookup: Value -> Option<G>): (r: seq<Bound<G>>)
    ensures |r| <= 1
    ensures r == [] <==> lookup(group.id).None?
    ensures r != [] ==> && r[0].graph == lookup(group.id).value && r[0].cType == group.rowType
                        && r[0].cGmode == group.gmode && r[0].stack == Bool(StackFlag(group.stack))
  {
    match lookup(group.id)
    case None => []
    case Some(g) => [Bound(g, group.rowType, group.gmode, Bool(StackFlag(group.stack)))]
  }

  /** The specification of the descriptor loop: the contributions of the slices, in order. */
  function Resolve<G>(groups: seq<Group>, lookup: Value -> Option<G>): (r: seq<Bound<G>>)
    ensures |r| <= |groups|
  {
    if groups == [] then []
    else Resolve(groups[..|groups| - 1], lookup) + BindGroup(groups[|groups| - 1], lookup)
  }

  /** The loop of the /graph/:complex and /xport/:complex routes: the
      descriptor split on ':' and consumed four tokens at a time. */
  method BindDescriptor<G>(complex: string, lookup: Value -> Option<G>) returns (data: seq<Bound<G>>)
    ensures data == Resolve(Slices4(RubySplit(complex, ':')), lookup)
  {
    var groups := Slices4(RubySplit(complex, ':'));
    data := [];
    var i := 0;
    while i < |groups|
      invariant 0 <= i <= |groups|
      invariant data == Resolve(groups[..i], lookup)
    {
      var group := groups[i];
      assert groups[..i + 1][..i] == groups[..i];
      var g := lookup(group.id);
      if g.Some? {
        data := data + [Bound(g.value, group.rowType, group.gmode, Bool(StackFlag(group.stack)))];
      }
      i := i + 1;
    }
    assert groups[..|groups|] == groups;
  }

  /** Skipping is local: the slices of a + b bind to those of a followed by those of b. */
  lemma {:induction false} ResolveAppend<G>(a: seq<Group>, b: seq<Group>, lookup: Value -> Option<G>)
    ensures Resolve(a + b, lookup) == Resolve(a, lookup) + Resolve(b, lookup)
    decreases |b|
  {
    if b == [] {
      assert a + b == a;
    } else {
      var n := |b|;
      assert (a + b)[..|a + b| - 1] == a + b[..n - 1];
      assert (a + b)[|a + b| - 1] == b[n - 1];
      ResolveAppend(a, b[..n - 1], lookup);
    }
  }

  /** When every id is found, each slice gives exactly one entry, in order. */
  lemma {:induction false} ResolveAllFound<G>(groups: seq<Group>, lookup: Value -> Option<G>)
    requires forall i :: 0 <= i < |groups| ==> lookup(groups[i].id).Some?
    ensures |Resolve(groups, lookup)| == |groups|
    ensures forall i :: 0 <= i < |groups| ==>
              Resolve(groups, lookup)[i] ==
                Bound(lookup(groups[i].id).value, groups[i].rowType, groups[i].gmode, Bool(StackFlag(groups[i].stack)))
  {
    if groups != [] {
      var n := |groups|;
      var prefix := groups[..n - 1];
      assert forall i :: 0 <= i < |prefix| ==> prefix[i] == groups[i];
      ResolveAllFound(prefix, lookup);
      var head := Resolve(prefix, lookup);
      var g := groups[n - 1];
      var last := Bound(lookup(g.id).value, g.rowType, g.gmode, Bool(StackFlag(g.stack)));
      assert BindGroup(g, lookup) == [last];
      assert Resolve(groups, lookup) == head + [last];
      forall i | 0 <= i < n
        ensures Resolve(groups, lookup)[i] ==
                  Bound(lookup(groups[i].id).value, groups[i].rowType, groups[i].gmode, Bool(StackFlag(groups[i].stack)))
      {
        if i < n - 1 {
          assert (head + [last])[i] == head[i];
        }
      }
    }
  }

  /** When no id is found the routes draw nothing. */
  lemma {:induction false} ResolveNoneFound<G>(groups: seq<Group>, lookup: Value -> Option<G>)
    requires forall i :: 0 <= i < |groups| ==> lookup(groups[i].id).None?
    ensures Resolve(groups, lookup) == []
  {
    if groups != [] {
      var n := |groups|;
      var prefix := groups[..n - 1];
      assert forall i :: 0 <= i < |prefix| ==> prefix[i] == groups[i];
      ResolveNoneFound(prefix, lookup);
    }
  }

  /** A dangling id between two found ones is dropped and the order of the others kept. */
  lemma DanglingMiddle<G>(a: Group, b: Group, c: Group, lookup: Value -> Option<G>)
    requires lookup(a.id).Some? && lookup(b.id).None? && lookup(c.id).Some?
    ensures Resolve([a, b, c], lookup) == BindGroup(a, lookup) + BindGroup(c, lookup)
    ensures |Resolve([a, b, c], lookup)| == 2
  {
    assert [a][..0] == [];
    assert Resolve([a], lookup) == BindGroup(a, lookup);
    assert [a, b][..1] == [a];
    assert Resolve([a, b], lookup) == BindGroup(a, lookup) + BindGroup(b, lookup);
    assert [a, b, c][..2] == [a, b];
  }

  // ---------------------------------------------------------------------
  // The descriptor of a composite graph read back by the parser
  // ---------------------------------------------------------------------

  /** A token that survives split(':') unchanged: non-empty and colon-free. */
  predicate Plain(s: string)
  {
    s != [] && ':' !in s
  }

  /** Every field that goes into the descriptor is a plain token (the primary's stack is the literal 0). */
  predicate PlainRows(rows: seq<DataRow>)
  {
    forall i :: 0 <= i < |rows| ==>
      && Plain(JoinStr(rows[i].rowType)) && Plain(JoinStr(rows[i].path)) && Plain(JoinStr(rows[i].gmode))
      && (i == 0 || Plain(JoinStr(rows[i].stack)))
  }

  /** Every field of the descriptor of plain rows is a plain token. */
  lemma {:induction false} FieldsPlain(rows: seq<DataRow>)
    requires |rows| >= 1 && PlainRows(rows)
    ensures forall j :: 0 <= j < |Fields(rows)| ==> Plain(Fields(rows)[j])
  {
    assert Plain("0");
    if |rows| > 1 {
      var n := |rows|;
      var prefix := rows[..n - 1];
      assert forall i :: 0 <= i < |prefix| ==> prefix[i] == rows[i];
      FieldsPlain(prefix);
      assert Plain(JoinStr(rows[n - 1].stack));
    }
  }

  /** Splitting the descriptor recovers its fields. */
  lemma SplitDescriptor(rows: seq<DataRow>)
    requires |rows| >= 1 && PlainRows(rows)
    ensures RubySplit(Descriptor(rows), ':') == Fields(rows)
  {
    var fs := Fields(rows);
    FieldsPlain(rows);
    assert Plain(fs[|fs| - 1]);
    RubySplitJoin(fs, ':');
  }

  /** Parsing a composite graph's descriptor gives one slice per data row, in
      data_rows order, holding the written type, path and gmode of that row;
      the primary's stack token is the literal 0. */
  lemma ParseDescriptor(rows: seq<DataRow>)
    requires |rows| >= 1 && PlainRows(rows)
    ensures var gs := Slices4(RubySplit(Descriptor(rows), ':'));
            && |gs| == |rows|
            && (forall i :: 0 <= i < |rows| ==>
                  && gs[i].rowType == Str(JoinStr(rows[i].rowType))
                  && gs[i].id == Str(JoinStr(rows[i].path))
                  && gs[i].gmode == Str(JoinStr(rows[i].gmode))
                  && gs[i].stack == Str(if i == 0 then "0" else JoinStr(rows[i].stack)))
  {
    SplitDescriptor(rows);
    var fs := Fields(rows);
    assert (|fs| + 3) / 4 == |rows|;
    forall i | 0 <= i < |rows|
      ensures var gs := Slices4(fs);
              && gs[i].rowType == Str(JoinStr(rows[i].rowType)) && gs[i].id == Str(JoinStr(rows[i].path))
              && gs[i].gmode == Str(JoinStr(rows[i].gmode))
              && gs[i].stack == Str(if i == 0 then "0" else JoinStr(rows[i].stack))
    {
      Slices4At(fs, i);
      FieldsAt(rows, i);
    }
  }

  /** The primary's stack token "0" is not a stack flag. */
  lemma PrimaryStackIsFalse()
    ensures !StackFlag(Str("0"))
  {
    MatchesStackOneLine("0");
  }

  /** An integer path is written in decimal and String#to_i reads the same id back. */
  lemma IdTokenReadsBack(row: DataRow)
    requires row.path.Int?
    ensures StrToI(JoinStr(row.path)) == row.path.num
  {
    StrToIOfIntToStr(row.path.num);
  }

  /** Drawing a stored composite graph from its descriptor binds the same
      graphs with the same types and gmodes, in the same order, as drawing it
      from its data rows, when the types and gmodes are plain Strings, the
      lookup finds each path through its written form, and the primary is
      unstacked in both. */
  lemma DescriptorMatchesDataRows<G>(rows: seq<DataRow>, lookup: Value -> Option<G>)
    requires |rows| >= 1 && PlainRows(rows)
    requires forall i :: 0 <= i < |rows| ==> rows[i].rowType.Str? && rows[i].gmode.Str?
    requires forall i :: 0 <= i < |rows| ==> rows[i].graphid == rows[i].path
    requires forall i :: 0 <= i < |rows| ==> lookup(Str(JoinStr(rows[i].path))) == lookup(rows[i].path)
    requires rows[0].stack == Bool(false)
    requires BindRowsSpec(rows, lookup).Ok?
    ensures var parsed := Resolve(Slices4(RubySplit(Descriptor(rows), ':')), lookup);
            var bound := BindRowsSpec(rows, lookup).value;
            && |parsed| == |bound|
            && (forall i :: 0 <= i < |rows| ==>
                  parsed[i].graph == bound[i].graph && parsed[i].cType == bound[i].cType
                  && parsed[i].cGmode == bound[i].cGmode)
            && parsed[0].stack == bound[0].stack
  {
    var gs := Slices4(RubySplit(Descriptor(rows), ':'));
    ParseDescriptor(rows);
    assert forall i :: 0 <= i < |gs| ==> gs[i].id == Str(JoinStr(rows[i].path));
    ResolveAllFound(gs, lookup);
    PrimaryStackIsFalse();
  }

  /** A lookup that reads its id through to_i, as a lookup by integer key does. */
  function ById<G>(byId: int -> Option<G>, v: Value): Option<G>
  {
    match ToI(v)
    case Ok(n) => byId(n)
    case Err(_) => None
  }

  /** With integer paths and a lookup through to_i, the descriptor and the data
      rows bind the same graphs: the written id of every path reads back. */
  lemma DescriptorMatchesDataRowsById<G>(rows: seq<DataRow>, byId: int -> Option<G>)
    requires |rows| >= 1 && PlainRows(rows)
    requires forall i :: 0 <= i < |rows| ==> rows[i].rowType.Str? && rows[i].gmode.Str? && rows[i].path.Int?
    requires forall i :: 0 <= i < |rows| ==> rows[i].graphid == rows[i].path
    requires rows[0].stack == Bool(false)
    requires BindRowsSpec(rows, v => ById(byId, v)).Ok?
    ensures var parsed := Resolve(Slices4(RubySplit(Descriptor(rows), ':')), v => ById(byId, v));
            var bound := BindRowsSpec(rows, v => ById(byId, v)).value;
            && |parsed| == |bound|
            && (forall i :: 0 <= i < |rows| ==>
                  parsed[i].graph == bound[i].graph && parsed[i].cType == bound[i].cType
                  && parsed[i].cGmode == bound[i].cGmode)
            && parsed[0].stack == bound[0].stack
  {
    var lookup := v => ById(byId, v);
    forall i | 0 <= i < |rows|
      ensures lookup(Str(JoinStr(rows[i].path))) == lookup(rows[i].path)
    {
      IdTokenReadsBack(rows[i]);
    }
    DescriptorMatchesDataRows(rows, lookup);
  }

  /** The round trip for a stored composite graph: drawing it from its
      complex_graph descriptor binds the same graphs, types and gmodes, in the
      same order, as drawing it from its data_rows, under the same conditions
      on the parts and the lookup. */
  lemma StoredDescriptorMatchesDataRows<G>(g: ComplexGraph, lookup: Value -> Option<G>)
    requires g.Valid() && PlainRows(g.dataRows)
    requires forall i :: 0 <= i < |g.dataRows| ==> g.dataRows[i].rowType.Str? && g.dataRows[i].gmode.Str?
    requires forall i :: 0 <= i < |g.dataRows| ==> lookup(Str(JoinStr(g.dataRows[i].path))) == lookup(g.dataRows[i].path)
    requires BindRowsSpec(g.dataRows, lookup).Ok?
    ensures var parsed := Resolve(Slices4(RubySplit(g.complexGraph, ':')), lookup);
            var bound := BindRowsSpec(g.dataRows, lookup).value;
            && |parsed| == |bound|
            && (forall i :: 0 <= i < |g.dataRows| ==>
                  parsed[i].graph == bound[i].graph && parsed[i].cType == bound[i].cType
                  && parsed[i].cGmode == bound[i].cGmode)
            && parsed[0].stack == bound[0].stack
  {
    DescriptorMatchesDataRows(g.dataRows, lookup);
  }

  /** A composite graph saved with no secondary keys: data_rows holds the primary
      and the phantom row of nils, while its descriptor ends in four empty fields
      that split(':') drops, so the descriptor route sees one slice. Drawn from
      data_rows, the nil graphid then raises unless the lookup finds a graph for nil. */
  lemma NoSecondaryKeysRoutesDiffer<G>(meta: Hash, lookup: Value -> Option<G>)
    requires "type-2" !in meta && "path-2" !in meta && "gmode-2" !in meta && "stack-2" !in meta
    requires ':' !in JoinStr(Get(meta, "type-1")) && ':' !in JoinStr(Get(meta, "path-1"))
    requires ':' !in JoinStr(Get(meta, "gmode-1"))
    ensures ComplexParts(meta).Ok? && |ComplexParts(meta).value.dataRows| == 2
    ensures |Slices4(RubySplit(ComplexParts(meta).value.descriptor, ':'))| == 1
    ensures lookup(Nil).None? ==> BindRowsSpec(ComplexParts(meta).value.dataRows, lookup).Err?
  {
    MissingSecondaries(meta);
    var first := PrimaryRow(meta);
    var rows := [first, DataRow(Nil, Nil, Nil, Nil, Nil)];
    var t, p, g := JoinStr(first.rowType), JoinStr(first.path), JoinStr(first.gmode);
    NilRowFields(first);
    NilRowTokens(t, p, g);
  }

  /** split(':') of the descriptor of a primary row and a row of nils keeps the primary's four tokens. */
  lemma NilRowTokens(t: string, p: string, g: string)
    requires ':' !in t && ':' !in p && ':' !in g
    ensures RubySplit(Join([t, p, g, "0", "", "", "", ""], ':'), ':') == [t, p, g, "0"]
  {
    var fs := [t, p, g, "0", "", "", "", ""];
    assert forall i :: 0 <= i < |fs| ==> ':' !in fs[i];
    SplitJoin(fs, ':');
    TrailingEmptyDropped(t, p, g);
  }

  /** The fields of a primary row followed by a row of nils. */
  lemma NilRowFields(first: DataRow)
    ensures Fields([first, DataRow(Nil, Nil, Nil, Nil, Nil)]) ==
              [JoinStr(first.rowType), JoinStr(first.path), JoinStr(first.gmode), "0", "", "", "", ""]
  {
    var rows := [first, DataRow(Nil, Nil, Nil, Nil, Nil)];
    assert rows[..1] == [first];
  }

  /** The four empty fields of a row of nils are dropped from the end. */
  lemma TrailingEmptyDropped(t: string, p: string, g: string)
    ensures DropTrailingEmpty([t, p, g, "0", "", "", "", ""]) == [t, p, g, "0"]
  {
    var fs := [t, p, g, "0", "", "", "", ""];
    assert fs[..7] == [t, p, g, "0", "", "", ""];
    assert fs[..7][..6] == [t, p, g, "0", "", ""];
    assert fs[..7][..6][..5] == [t, p, g, "0", ""];
    assert fs[..7][..6][..5][..4] == [t, p, g, "0"];
    assert "0" != [];
    assert DropTrailingEmpty(fs) == DropTrailingEmpty(fs[..7]);
    assert DropTrailingEmpty(fs[..7]) == DropTrailingEmpty(fs[..7][..6]);
    assert DropTrailingEmpty(fs[..7][..6]) == DropTrailingEmpty(fs[..7][..6][..5]);
    assert DropTrailingEmpty(fs[..7][..6][..5]) == DropTrailingEmpty(fs[..7][..6][..5][..4]);
  }
}
