# Focuslight graph definitions in Dafny

This project models the graph-definition core of Focuslight, a metrics
dashboard that draws graphs from time-series data. A graph is either a
`SimpleGraph` (one series with its own drawing settings) or a `ComplexGraph`
(a primary series plus any number of secondary series, stacked or not). The
model covers:

- `Graph.concrete`, which picks the variant from the shape of a database row;
- the shared base fields of `Graph#initialize`;
- `SimpleGraph#initialize`, `#update` and `.meta_clean`;
- `ComplexGraph#initialize`, which normalises the secondary keys, builds
  `data_rows` and the colon-joined descriptor `complex_graph`, and reads
  `sumup`; its `#update` and `.meta_clean`;
- the logic that the web routes run inline: the `type2s_num` count of a
  submitted form, the loop that binds a stored graph's `data_rows` to the
  looked-up series, and the loop that parses a descriptor given in a URL
  (`split(':')`, `each_slice(4)`, look-up, `next unless g`, and the stack
  flag `/^(1|true)$/i`).

Modules follow the program: `Text` (Ruby's `Integer#to_s`, `String#to_i`,
`join`, `split` and the line-anchored regex), `Values` (the JSON-shaped
`Value`, Ruby's `||`, `fetch`, `[]`, `to_i`, `flatten`, `join`), `Metadata`
(the reserved key sets, `delete_if`, the merge of `update`), `Graphs`
(`lib/focuslight/graph.rb`) and `Web` (the parts of `lib/focuslight/web.rb`
named above).

Values follow Ruby where it matters:

- `row['number'].to_i` fails on `true`, `false` and Arrays.
- `x || d` replaces `nil` and `false`.
- `fetch` keeps a stored `nil`.
- `v[i]` on `nil`, `true` or `false` raises `NoMethodError`. On a short Array
  it gives `nil`, on a String a one-character String, and on an Integer a bit.
- `join(':')` writes `nil` as the empty string and flattens nested Arrays.
- `split(':')` drops trailing empty pieces.

Errors are `Result.Err(NoMethodError(name))`, or `Result.Err(ArgumentError)`
for a call with the wrong number of arguments. Lengths are unbounded
integers: nothing in the core wraps around.

The instance variables that the source updates in place are class fields.
`SimpleGraph` keeps its nine drawing settings (`mode`, `gmode`, `color`, the
four limits, `type`, `stype`) in one `Series` record field. Both classes keep
the base fields in one `Base` record field.

The loops are methods proved against specification functions:

| method | specification function |
|---|---|
| `delete_if` (`DeleteReserved`) | `Cleaned` |
| the `case` loop of `update` (`CollectMeta`) | the `+` of two maps |
| the in-place normalisation (`NormalizeSecondaries`) | `Normalize` |
| the `each_with_index` loop (`BuildParts`, `AppendSecondaries`, `AppendRow`) | `ComplexParts` |
| the `data_rows` binder (`BindRows`) | `BindRowsSpec` |
| the descriptor loop (`BindDescriptor`) | `Resolve` of `Slices4` of `RubySplit` |

The lemmas prove what the source promises about those functions. The main
one is the round trip (`StoredDescriptorMatchesDataRows`). Take a stored
composite graph that keeps its invariant `Valid`, and these four conditions:

- every type, path, gmode and secondary stack is written as a non-empty token
  without ':';
- the types and gmodes are Strings;
- the lookup finds each path through its written form;
- every `graphid` is found.

Drawn from its descriptor, such a graph binds the same graphs, types and
gmodes, in the same order, as drawn from its `data_rows`. Without the first
condition the two routes can differ. A graph saved with no secondary keys has
a nil row in `data_rows`, but four empty trailing fields in its descriptor that
`split(':')` drops (`NoSecondaryKeysRoutesDiffer`). So the descriptor route
draws one series, while the `data_rows` route raises on the nil `graphid`
unless the lookup finds a graph for nil.

The model follows the code in three places where a looser reading would
suggest otherwise:

- The `data_rows` binder does not skip a `graphid` that has no graph: the
  route calls `c_type=` on `nil`, which raises.
- The secondary loop does not check that `path-2`, `gmode-2` and `stack-2` are
  as long as `type-2`. A short Array yields `nil` entries. A non-Array value
  fails with `NoMethodError` (`nil[i]`) or yields a character or a bit.
- A missing `type-2` becomes `[nil]`, so such a graph has one secondary row
  whose type is nil. Its path, gmode and stack come from `path-2`, `gmode-2`
  and `stack-2`, so it is a row of nils only when those are missing too.

## Model

| member | source | states |
|---|---|---|
| Values.Or | lib/focuslight/graph.rb:28 | `h[k] \|\| d` is the stored value unless the key is missing or holds nil or false, and then `d` |
| Values.Fetch | lib/focuslight/graph.rb:80-82 | `h.fetch(k, d)` is the stored value whenever the key is present, even nil or false, and `d` otherwise |
| Values.ToI | lib/focuslight/graph.rb:27-29 | `to_i` succeeds exactly on nil, Integers and Strings; nil gives 0 and an Integer itself |
| Values.JoinStr | lib/focuslight/graph.rb:163 | how `join(':')` writes one value: nil as the empty string, and an Integer so that `to_i` reads it back |
| Values.JoinValues | lib/focuslight/graph.rb:139 | the join of one value is that value's written form |
| Values.JoinValuesSplit | lib/focuslight/graph.rb:139 | splitting the join at ':' gives back the written values when none of them holds ':' |
| Values.At | lib/focuslight/graph.rb:159-162 | `v[i]` succeeds exactly on Arrays, Strings and Integers; on an Array it is entry `i`, or nil past the end |
| Text.StrToI | lib/focuslight/graph.rb:27-35 | `String#to_i`: a string of decimal digits reads as its value |
| Text.StrToIOfIntToStr | lib/focuslight/graph.rb:163 | `String#to_i` (white space, sign, an optional `0d` prefix, digits with single underscores) reads back every Integer written by `Integer#to_s` into the descriptor |
| Text.RubySplit | lib/focuslight/web.rb:405 | `split(':')`: no piece holds ':', and the last piece is not empty (trailing empty pieces are dropped) |
| Text.RubySplitJoin | lib/focuslight/web.rb:405 | `split(':')` recovers the pieces of a `join(':')` when no piece holds ':' and the last is not empty |
| Text.MatchesStack | lib/focuslight/web.rb:410 | `=~ /^(1\|true)$/i`: a token that is itself "1" or a case variant of "true" matches |
| Text.MatchesStackOneLine | lib/focuslight/web.rb:410 | for a one-line token, `/^(1\|true)$/i` matches exactly "1" and the case variants of "true" |
| Metadata.FieldsAreReserved | lib/focuslight/graph.rb:124-129 | every field name that `update` assigns is also reserved by `meta_clean`; ComplexGraph reserves strictly fewer names than SimpleGraph |
| Metadata.Cleaned | lib/focuslight/graph.rb:124-129 | the cleaned metadata has exactly the keys not in the reserved set, each with its old value |
| Metadata.CleanedIdempotent | lib/focuslight/graph.rb:196-200 | cleaning twice is the same as cleaning once |
| Metadata.DeleteReserved | lib/focuslight/graph.rb:125-128 | the `delete_if` loop, visiting entries in any order, leaves exactly `Cleaned` |
| Metadata.CollectMeta | lib/focuslight/graph.rb:101-119 | the `case` loop writes every change whose key is not a field name into the metadata copy, over the old entries, and nothing else |
| Metadata.MergeChanges | lib/focuslight/graph.rb:120 | after the merge and clean, no reserved key is left, every non-field, non-reserved change is present with its new value, untouched old entries are kept, and no other key appears |
| Graphs.InitBase | lib/focuslight/graph.rb:20-35 | id and the three names are the row's columns; number and sort are Integers, 0 when missing; description defaults to ''; a missing meta is the empty map; created_at and updated_at are their Integer seconds, 0 when missing; it fails exactly when number, sort, created_at or updated_at has no `to_i` |
| Graphs.SeriesOf | lib/focuslight/graph.rb:68-76 | each of the nine settings is its column unless that is missing, nil or false, and then its default: gauge, gauge, #00CC00, 10^15, 0, 100000, 0, AREA and AREA |
| Graphs.SeriesDefaults | lib/focuslight/graph.rb:68-76 | a row with none of the nine setting columns gets gauge, gauge, #00CC00, 10^15, 0, 100000, 0, AREA, AREA |
| Graphs.SimpleGraph.constructor | lib/focuslight/graph.rb:65-83 | the new graph holds the base fields, `SeriesOf` the columns, and adjust, adjustval and unit fetched from the metadata with defaults `*`, `1` and '' |
| Graphs.SimpleGraph.New | lib/focuslight/graph.rb:55-83 | construction fails exactly when the base fields fail, which is exactly when `super`, reaching Graph#initialize, fails; otherwise it yields a fresh graph in the state above |
| Graphs.SimpleGraph.Update | lib/focuslight/graph.rb:100-122 | each of the twelve field names in the changes is stored in its field and the others keep their values; the metadata becomes `MergeChanges` with SimpleGraph's reserved set; adjust, adjustval and unit do not change |
| Graphs.SimpleGraph.MetaClean | lib/focuslight/graph.rb:124-129 | removes exactly the base keys and the twelve field names |
| Graphs.SimpleUpdateMeta | lib/focuslight/graph.rb:100-129 | after `update`, every non-reserved change is in the metadata with its new value, no reserved key (id, service_name, section_name, graph_name and the field names) remains, and every key came from the old metadata or the changes |
| Graphs.FlattenKey | lib/focuslight/graph.rb:154 | after `meta[key] = [meta[key]].flatten` the key is present and holds an Array, and a scalar (nil for a missing key) is wrapped alone |
| Graphs.FlattenKeysEffect | lib/focuslight/graph.rb:153-155 | after `meta[key] = [meta[key]].flatten` for each listed key, every listed key holds an Array, every other key keeps its value, and no other key appears |
| Graphs.Normalize | lib/focuslight/graph.rb:152-156 | after normalisation type-2 is an Array, and metadata whose type-2 is already an Array is left as it is |
| Graphs.NormalizeRewrites | lib/focuslight/graph.rb:152-156 | otherwise the four secondary keys are each replaced by `[old value].flatten`, from their original values, and all other entries are kept |
| Graphs.NormalizeKeepsSump | lib/focuslight/graph.rb:152-156 | normalisation does not touch sump |
| Graphs.NormalizeSecondaries | lib/focuslight/graph.rb:152-156 | the in-place rewriting loop yields `Normalize` |
| Graphs.PrimaryRow | lib/focuslight/graph.rb:143-149 | the first row's graphid is its path, path-1, and it is never stacked |
| Graphs.SecondaryRow | lib/focuslight/graph.rb:158-164 | row `i` is read exactly when path-2, gmode-2 and stack-2 all have `[]`; it holds type `i`, entry `i` of each, and graphid equal to its path |
| Graphs.SecondaryRows | lib/focuslight/graph.rb:158-164 | the first `n` rows are read exactly when each of them can be, and then row `i` is `SecondaryRow` `i` |
| Graphs.SecondaryRowsErrSticks | lib/focuslight/graph.rb:158-164 | once reading fails, reading more rows fails with the same error |
| Graphs.SecondaryRowFails | lib/focuslight/graph.rb:158-164 | a row that cannot be read makes the whole loop fail with its error |
| Graphs.ReadSecondary | lib/focuslight/graph.rb:159-162 | the four reads of one loop pass give `SecondaryRow` |
| Graphs.Fields | lib/focuslight/graph.rb:139 | the descriptor has four fields per data row |
| Graphs.FieldsAt | lib/focuslight/graph.rb:139-163 | fields 4i to 4i+3 are row i's written type, path, gmode and stack, with the primary's stack written as literal 0 |
| Graphs.DescriptorAppend | lib/focuslight/graph.rb:163 | `uri += ':' + [t, p, g, s].join(':')` turns the descriptor of the rows so far into the descriptor of the rows with the new one |
| Graphs.DescriptorExtend | lib/focuslight/graph.rb:163-164 | the same, with the rows kept as the primary row and the secondaries |
| Graphs.WrittenFour | lib/focuslight/graph.rb:163 | the four written values of a row are its secondary fields |
| Graphs.Descriptor | lib/focuslight/graph.rb:139-169 | the descriptor is the rows' fields joined by ':', so that when no field holds ':' splitting it gives back exactly the fields |
| Graphs.PrimaryDescriptor | lib/focuslight/graph.rb:139 | `'type-1:path-1:gmode-1' + ':0'` is the descriptor of the primary row alone |
| Graphs.ComplexParts | lib/focuslight/graph.rb:136-170 | on success the metadata is normalised; there are 1 + \|type-2\| rows; the first is `{type-1, path-1, gmode-1, stack: false, graphid: path-1}`; every row has graphid equal to path; the descriptor is the rows' fields joined by ':'; sumup is sump or 0 |
| Graphs.BuildParts | lib/focuslight/graph.rb:136-170 | the imperative constructor (prefix, in-place normalisation, row loop, sumup) returns exactly `ComplexParts` |
| Graphs.AppendSecondaries | lib/focuslight/graph.rb:158-165 | the loop fails with the first read error, or returns the primary row followed by all secondary rows together with their descriptor |
| Graphs.AppendRow | lib/focuslight/graph.rb:159-164 | one pass either fails as the whole loop does, or adds the next row and its four descriptor fields |
| Graphs.ComplexGraph.constructor | lib/focuslight/graph.rb:167-169 | the graph stores the parts and establishes `Valid`: at least one row, an unstacked primary, graphid equal to path, and the descriptor the rows' fields joined by ':' |
| Graphs.ComplexGraph.New | lib/focuslight/graph.rb:136-170 | construction fails exactly when the base fields or the parts fail; otherwise the graph holds `ComplexParts` of its metadata; both agree with `ComplexInit` under Graph as superclass |
| Graphs.ComplexGraph.Update | lib/focuslight/graph.rb:181-194 | only number, description and sort become fields; the metadata becomes `MergeChanges` with the base keys reserved; data_rows, complex_graph and sumup are unchanged and stay consistent |
| Graphs.ComplexGraph.MetaClean | lib/focuslight/graph.rb:196-200 | removes exactly the seven base keys |
| Graphs.ComplexUpdateMeta | lib/focuslight/graph.rb:181-200 | after a complex `update` every change except to a base key, mode and type-2 included, is in the metadata, and no base key is |
| Graphs.NoSecondaries | lib/focuslight/graph.rb:139-164 | `type-2 = []` gives exactly the primary row and the descriptor `type-1:path-1:gmode-1:0` |
| Graphs.MissingSecondaries | lib/focuslight/graph.rb:152-164 | with no secondary keys, the graph has a second row of nils |
| Graphs.ScalarSecondaryAsArray | lib/focuslight/graph.rb:152-156 | scalar type-2, path-2, gmode-2 and stack-2 give the same parts (rows, descriptor, sumup) as the same values in one-element Arrays |
| Graphs.NormalizeScalars | lib/focuslight/graph.rb:152-156 | normalising four scalars wraps each in a one-element Array |
| Graphs.WrapScalars | lib/focuslight/graph.rb:154 | flattening four distinct keys that hold scalars wraps each in a one-element Array |
| Graphs.SameParts | lib/focuslight/graph.rb:139-169 | the parts depend on the metadata only through its normalisation and its primary row |
| Graphs.ArraySecondaries | lib/focuslight/graph.rb:158-164 | when the four secondary keys are Arrays construction succeeds, and a short path-2, gmode-2 or stack-2 gives nil entries |
| Graphs.MissingPathFails | lib/focuslight/graph.rb:158-160 | a non-empty type-2 Array with no path-2 fails with `NoMethodError` for `[]` |
| Graphs.Concrete | lib/focuslight/graph.rb:6-12 | the result is a SimpleGraph exactly when the row has both 'mode' and 'type'; each variant succeeds exactly when its constructor does (the complex one exactly when `ComplexInit` with Graph as superclass does), and yields a fresh graph in that constructor's state: the simple one initialised from the row, the complex one holding the base fields and `ComplexParts` of the metadata |
| Graphs.SuperInit | lib/focuslight/graph.rb:55-66 | a bare `super` with the wrong number of arguments for the superclass's initialize raises ArgumentError; Object#initialize with none sets nothing; Graph#initialize with the row succeeds exactly when the base fields do, and sets them |
| Graphs.ComplexInit | lib/focuslight/graph.rb:132-170 | with Graph as superclass, construction succeeds exactly when the base fields and `ComplexParts` of their metadata do, and yields both; with Object as superclass it raises ArgumentError |
| Graphs.ComplexAsDeclaredRaises | lib/focuslight/graph.rb:132-137 | as declared (no superclass, so Object), ComplexGraph.new raises ArgumentError for every row |
| Graphs.ComplexInheritanceWitness | lib/focuslight/graph.rb:132-137 | a row with no columns and no metadata builds with Graph as superclass, but raises ArgumentError as declared |
| Web.Type2sNum | lib/focuslight/web.rb:264-265 | the count is defined unless type-2 is an Integer or true; it is always at least 1; it is the size of a non-empty Array or String, and 1 for nil, false or an empty value |
| Web.Type2sNumCountsCharacters | lib/focuslight/web.rb:291-292 | a single String type-2 "AREA" is counted as 4, while the graph built from it has one secondary row |
| Web.SecondaryCount | lib/focuslight/web.rb:264-265 | the corrected count: defined unless type-2 is an Integer or true, at least 1, the size of a non-empty Array, 1 for nil, false or an empty Array, and 1 for a lone String |
| Web.SecondaryCountMatchesRows | lib/focuslight/web.rb:291-292 | for an absent, String or non-empty Array type-2, the corrected count is the number of secondary rows of the graph built from it |
| Graphs.ScalarSecondaryRows | lib/focuslight/graph.rb:152-164 | a type-2 that is not an Array always builds, with exactly one secondary row |
| Web.BindRowsSpec | lib/focuslight/web.rb:363-368 | binding succeeds exactly when every graphid is found, and otherwise raises `NoMethodError` for `c_type=`; on success there is one entry per row, in order, with that row's graph, type, gmode and stack |
| Web.BindRows | lib/focuslight/web.rb:379-384 | the binding loop returns exactly `BindRowsSpec` |
| Web.BindRowsErrSticks | lib/focuslight/web.rb:363-368 | once a prefix of the rows fails to bind, the whole list fails |
| Web.Slices4 | lib/focuslight/web.rb:405 | `each_slice(4)` gives ⌈n/4⌉ slices |
| Web.Slices4At | lib/focuslight/web.rb:405 | slice i holds tokens 4i to 4i+3, nil past the end |
| Web.StackFlag | lib/focuslight/web.rb:410 | only a String can be a stack flag, and a one-line token is one exactly when it is "1" or a case variant of "true" |
| Web.BindGroup | lib/focuslight/web.rb:406-411 | a slice yields at most one entry, none exactly when its id is not found (`next unless g`), and otherwise the found graph with the slice's type, gmode and stack flag |
| Web.Resolve | lib/focuslight/web.rb:405-411 | the descriptor loop never yields more entries than slices |
| Web.BindDescriptor | lib/focuslight/web.rb:422-428 | the loop returns `Resolve` of the slices of the split descriptor |
| Web.ResolveAppend | lib/focuslight/web.rb:407 | skipping is local: the result for `a + b` is the result for `a` followed by that for `b` |
| Web.ResolveAllFound | lib/focuslight/web.rb:406-411 | when every id is found, slice i gives entry i with its graph, type, gmode and stack flag |
| Web.ResolveNoneFound | lib/focuslight/web.rb:407 | when no id is found nothing is drawn |
| Web.DanglingMiddle | lib/focuslight/web.rb:406-411 | an unknown id between two known ones is dropped, and the other two are kept in order |
| Web.FieldsPlain | lib/focuslight/graph.rb:163 | the descriptor of rows whose parts are plain (non-empty, colon-free) has only plain fields |
| Web.SplitDescriptor | lib/focuslight/web.rb:405 | splitting such a descriptor recovers its fields |
| Web.ParseDescriptor | lib/focuslight/web.rb:405 | parsing a composite graph's descriptor gives one slice per data row, in order, with the row's written type, path and gmode; the primary's stack token is 0 |
| Web.PrimaryStackIsFalse | lib/focuslight/web.rb:427 | the primary's literal 0 is not a stack flag |
| Web.IdTokenReadsBack | lib/focuslight/graph.rb:160-163 | an integer path written into the descriptor reads back through `to_i` as the same integer |
| Web.DescriptorMatchesDataRows | lib/focuslight/web.rb:363-411 | for plain String types and gmodes, and paths that the lookup finds through their written form, drawing from the descriptor binds the same graphs, types and gmodes in the same order as drawing from data_rows, and the primary is unstacked in both |
| Web.StoredDescriptorMatchesDataRows | lib/focuslight/web.rb:363-411 | for every stored `ComplexGraph` that keeps `Valid`, under the same conditions, drawing from its `complex_graph` binds the same graphs, types and gmodes in the same order as drawing from its `data_rows`, and the primary is unstacked in both |
| Web.NoSecondaryKeysRoutesDiffer | lib/focuslight/graph.rb:139-169 | with no secondary keys, data_rows has two rows, but split(':') of the descriptor gives one slice, and binding data_rows raises when nil is not found |
| Web.DescriptorMatchesDataRowsById | lib/focuslight/web.rb:363-411 | the same for integer paths and a lookup that reads its id through `to_i`, with no assumption about written forms |

## Left out

- JSON decoding of the `meta` column (graph.rb:32) and `JSON.stringify` in
  both update methods (graph.rb:121, 193). Metadata is a decoded map, and the
  `@meta` text is not modelled.
- Graphs.SimpleGraph.Update, Graphs.ComplexGraph.Update: `JSON.stringify`
  (graph.rb:121, 193) is not a method of Ruby's JSON module, so as written
  every `update` raises NoMethodError after its assignments. The model treats
  the call as returning normally.
- Graphs.SimpleGraph.New: `Digest::MD5.hex_digest` (graph.rb:78) is not a Ruby
  method (the real one is `hexdigest`), so as written every `SimpleGraph.new`
  raises NoMethodError there. The model treats the call as returning normally,
  and "fails exactly when the base fields fail" holds only under that reading.
  The `md5` field is not modelled.
- `Time.at` and `strftime` (graph.rb:34-44): the timestamps are kept as the
  Integer seconds that `to_i` reads; the clock and formatting are not modelled.
- `to_hash`, `complex?`, the `COLUMNS` constants: projections not used by the
  core.
- The data layer's `get_by_id` is a lookup parameter. The model assumes each
  call returns a distinct object. If one graph is looked up twice, the source
  sets `c_type`, `c_gmode` and `stack` twice on the same object, so the second
  row's values overwrite the first's. The model does not capture that
  aliasing: it binds values (`Bound`) instead of mutating looked-up objects.
- Web.BindRows, Web.BindDescriptor: the look-up takes the row's graphid or
  the String token as it is. `get_by_id` is not part of this model, so how it
  reads a String id is the lookup's own behaviour: `DescriptorMatchesDataRows`
  requires that it finds a path through its written form, and
  `DescriptorMatchesDataRowsById` derives that for a lookup through `to_i`.
- Graphs.SimpleGraph.Update: the nine settings live in one `Series` record
  rather than nine separate fields, so `update` replaces the record rather
  than assigning the fields one by one. The outcome is the same, since a Hash
  holds one value per key.
- Symbol-keyed parameters (`params['type-2'.to_sym]`) are looked up by the
  same name as a String.
- Case folding in the stack regex is ASCII only.
- Sinatra routing, validation, rendering and storage (the routes around the
  modelled loops): HTTP plumbing and I/O.

## Findings

| source | as written | input that shows it | evidently intended | confidence | as-written member | corrected member |
|---|---|---|---|---|---|---|
| lib/focuslight/graph.rb:132-137 | `class ComplexGraph` has no `< Graph`, so the bare `super` forwards the row to Object#initialize, which takes no arguments; construction raises ArgumentError at line 137 | a row with no columns and no metadata | ComplexGraph inherits from Graph and starts from the base fields and the decoded metadata | not executed; high by reading the class declaration | Graphs.ComplexInit, Graphs.ComplexAsDeclaredRaises, Graphs.ComplexInheritanceWitness | Graphs.ComplexParts, Graphs.ComplexGraph.New |
| lib/focuslight/web.rb:264-265 | `type2s.size` on a single String type-2 counts its characters | type-2 = "AREA" gives a count of 4 for a graph with one secondary series | a lone String counts as one secondary series, as the construction treats it | not executed; medium, depends on whether a form can submit one String | Web.Type2sNum, Web.Type2sNumCountsCharacters | Web.SecondaryCount, Web.SecondaryCountMatchesRows |
