/** The metadata map of a graph: the key sets each variant reserves for its own
    fields, meta_clean (a delete_if over the reserved names) and the merge that
    both update methods perform. */
module Metadata {
  import opened Values

  /** The keys a graph reads from a database row rather than from its metadata. */
  const BaseKeys: set<string> :=
    {"id", "service_name", "section_name", "graph_name", "number", "description", "sort"}

  /** The update keys that ComplexGraph#update assigns to fields. */
  const ComplexFields: set<string> := {"number", "description", "sort"}

  /** The update keys that SimpleGraph#update assigns to fields. */
  const SimpleFields: set<string> :=
    {"number", "description", "sort", "mode", "gmode", "color",
     "ulimit", "llimit", "sulimit", "sllimit", "type", "stype"}

  /** The names ComplexGraph.meta_clean deletes. */
  const ComplexReserved: set<string> := BaseKeys

  /** The names SimpleGraph.meta_clean deletes. */
  const SimpleReserved: set<string> := BaseKeys + SimpleFields

  lemma FieldsAreReserved()
    ensures SimpleFields <= SimpleReserved && ComplexFields <= ComplexReserved
    ensures ComplexReserved < SimpleReserved
  {
    assert "mode" in SimpleReserved - ComplexReserved;
  }

  /** The metadata with every reserved name removed and every other entry kept as it was. */
  function Cleaned(m: Hash, reserved: set<string>): (r: Hash)
    ensures r.Keys == m.Keys - reserved
    ensures forall k :: k in r ==> r[k] == m[k]
  {
    m - reserved
  }

  /** Cleaning is idempotent. */
  lemma CleanedIdempotent(m: Hash, reserved: set<string>)
    ensures Cleaned(Cleaned(m, reserved), reserved) == Cleaned(m, reserved)
  {
  }

  /** Hash#delete_if with the block `reserved.include?(k)`: visits every entry
      once, in no particular order, and drops those whose key is reserved. */
  method DeleteReserved(m: Hash, reserved: set<string>) returns (r: Hash)
    ensures r == Cleaned(m, reserved)
  {
    r := m;
    var todo := m.Keys;
    while todo != {}
      invariant todo <= m.Keys
      invariant r == m - ((m.Keys - todo) * reserved)
      decreases todo
    {
      var k :| k in todo;
      if k in reserved {
        r := r - {k};
      }
      todo := todo - {k};
    }
    assert m - (m.Keys * reserved) == m - reserved;
  }

  /** The `else` branch of the `case` loop in both update methods: every change
      whose key is not one of the field names is written into a copy of the
      metadata. (The field branches assign instance variables; since a Hash holds
      one value per key, each field ends up with the change for its name, if any.) */
  method CollectMeta(meta0: Hash, args: Hash, fields: set<string>) returns (meta: Hash)
    ensures meta == meta0 + (args - fields)
  {
    meta := meta0;
    var todo := args.Keys;
    while todo != {}
      invariant todo <= args.Keys
      invariant meta == meta0 + ((args - todo) - fields)
      decreases todo
    {
      var k :| k in todo;
      if k !in fields {
        meta := meta[k := args[k]];
      }
      todo := todo - {k};
    }
    assert args - todo == args;
  }

  /** The metadata after an update: the old metadata, overwritten by every
      change that is not a field name, then cleaned of the reserved names. */
  function MergeChanges(meta: Hash, changes: Hash, fields: set<string>, reserved: set<string>): (r: Hash)
    ensures forall k :: k in r ==> k !in reserved
    ensures forall k :: k in changes && k !in fields && k !in reserved ==> k in r && r[k] == changes[k]
    ensures forall k :: k in meta && k !in changes && k !in reserved ==> k in r && r[k] == meta[k]
    ensures forall k :: k in r ==> k in meta || k in changes
  {
    Cleaned(meta + (changes - fields), reserved)
  }
}
