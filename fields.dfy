/**
 restframeworkclient/fields.py: the descriptors that sit between a model
 instance and its attribute maps. A plain field reads and writes the
 tracked maps; a reference dereferences its stored key to an instance, at
 most once; the `<name>_id` accessor reads and writes the raw key; a
 reverse reference turns an instance into a query over the referencing
 model, batched for a whole result list when that list asked for
 `prefetch_related`. Also the naming rules of `contribute_to_class` and
 the string helpers of `FileField` and `ContentTypeField`.
 */
module Fields {
  import opened Base
  import opened Strings
  import opened Resources
  import opened Transport
  import opened Filtering
  import opened Models

  // ---------------------------------------------------------------------
  // Plain fields and `_id` accessors
  // ---------------------------------------------------------------------

  /** `Field.__set__`: the first value written is the baseline; this field's cached instance is dropped, no other. */
  method FieldSet(e: Entity, name: string, v: Value)
    modifies e
    ensures e.original == FirstWins(old(e.original), name, v)
    ensures e.attrs == old(e.attrs)[name := v]
    ensures e.refCache == old(e.refCache) - {name}
    ensures e.persisted == old(e.persisted) && e.origin == old(e.origin)
    ensures old(e.Valid()) ==> e.Valid()
  {
    e.original := FirstWins(e.original, name, v);
    e.attrs := e.attrs[name := v];
    e.refCache := e.refCache - {name};
  }

  /** `foo_id_setter`: like a field write, but the reference's cached instance is kept. */
  method IdSet(e: Entity, name: string, v: Value)
    modifies e
    ensures e.original == FirstWins(old(e.original), name, v)
    ensures e.attrs == old(e.attrs)[name := v]
    ensures e.refCache == old(e.refCache)
    ensures e.persisted == old(e.persisted) && e.origin == old(e.origin)
    ensures old(e.Valid()) ==> e.Valid()
  {
    e.original := FirstWins(e.original, name, v);
    e.attrs := e.attrs[name := v];
  }

  /** `Field.__get__`: the current value, or a KeyError. */
  function FieldGet(e: Entity, name: string): (r: Result<Value>)
    reads e
    ensures r.Ok? <==> name in e.attrs
    ensures r.Ok? ==> r.value == e.attrs[name]
    ensures r.Err? ==> r.error == MissingKey(name)
  {
    if name in e.attrs then Ok(e.attrs[name]) else Err(MissingKey(name))
  }

  /** `foo_id_getter`: the raw key of a reference, the primary key of an instance value; never a fetch. */
  function IdGet(e: Entity, name: string): (r: Result<Value>)
    reads e
    ensures r.Ok? <==> name in e.attrs
    ensures r.Ok? && e.attrs[name].VEntity? ==> r.value == e.attrs[name].pk
    ensures r.Ok? && !e.attrs[name].VEntity? ==> r.value == e.attrs[name]
  {
    match FieldGet(e, name)
    case Err(err) => Err(err)
    case Ok(v) => Ok(GetValue(v))
  }

  /**
   The baseline of a descriptor write: the first value ever written stays
   the original, whatever is written after it, while the current value is
   always the last one.
   */
  lemma FirstWriteWins(r: Record, t: string, v: Value, w: Value)
    ensures t in FirstWins(r, t, v) && FirstWins(r, t, v)[t] == (if t in r then r[t] else v)
    ensures FirstWins(FirstWins(r, t, v), t, w) == FirstWins(r, t, v)
    ensures forall k :: k in r && k != t ==> k in FirstWins(r, t, v) && FirstWins(r, t, v)[k] == r[k]
  {
  }

  /** Writing a field and reading it back gives the value written. */
  method SetThenGet(e: Entity, name: string, v: Value) returns (r: Result<Value>)
    modifies e
    ensures r == Ok(v)
    ensures e.original == FirstWins(old(e.original), name, v) && e.refCache == old(e.refCache) - {name}
  {
    FieldSet(e, name, v);
    r := FieldGet(e, name);
  }

  // ---------------------------------------------------------------------
  // Naming done by `Reference.contribute_to_class`
  // ---------------------------------------------------------------------

  /**
   The attribute name of the reverse reference a `Reference` declared on
   class `className` registers on its target: none when `related_name`
   ends with `'+'`, the `related_name` itself when given, otherwise the
   lower-cased class name followed by `_set`.
   */
  function ReverseName(className: string, relatedName: Option<string>): (r: Option<string>)
    ensures r.None? <==> relatedName.Some? && relatedName.value != "" && EndsWith(relatedName.value, "+")
    ensures r.Some? && relatedName.Some? && relatedName.value != "" ==> r.value == relatedName.value
    ensures r.Some? && (relatedName.None? || relatedName.value == "") ==>
              r.value == Lower(className) + "_set" && |r.value| == |className| + 4
  {
    if relatedName.Some? && relatedName.value != "" then
      if EndsWith(relatedName.value, "+") then None else Some(relatedName.value)
    else Some(Lower(className) + "_set")
  }

  /** The name of the raw-key accessor a reference `name` adds to its class. */
  function IdAccessorName(name: string): (r: string)
    ensures |r| == |name| + 3 && r[..|name|] == name
  {
    name + "_id"
  }

  /**
   The accessor a reference adds is exactly the key the model routes to
   `foo_id_setter`, and it writes the reference itself, unless the class
   declares a field of that very name.
   */
  lemma IdAccessorRouted(m: ModelMeta, name: string)
    requires name in m.fields && m.fields[name].Reference?
    requires IdAccessorName(name) !in m.fields
    ensures IsIdKey(m, IdAccessorName(name)) && IsDescriptor(m, IdAccessorName(name))
    ensures Target(m, IdAccessorName(name)) == name
  {
    var k := IdAccessorName(name);
    assert k[..|k| - 3] == name;
    assert k[|k| - 3..] == "_id";
  }

  // ---------------------------------------------------------------------
  // Dereferencing a reference
  // ---------------------------------------------------------------------

  /** What reading a reference gives: nothing, the instance value stored as is, or an instance. */
  datatype Referent = NoReferent | Stored(handle: Value) | Instance(entity: Entity)

  /**
   `Reference.__get__`: a cached instance is returned; otherwise an
   instance value is returned as is, a dict becomes a persisted instance
   without a fetch, None gives None, and any other value is a primary key
   fetched with `get(pk=…)` on the target model and cached until the field
   is written again.
   */
  method Dereference(e: Entity, name: string, target: ModelMeta, c: Client) returns (r: Result<Referent>)
    requires name in e.meta.fields && e.meta.fields[name].Reference? && e.meta.fields[name].target == target.name
    modifies e, c
    ensures e.original == old(e.original) && e.attrs == old(e.attrs)
    ensures e.persisted == old(e.persisted) && e.origin == old(e.origin)
    ensures name in old(e.refCache) ==> r == Ok(Instance(old(e.refCache[name]))) && unchanged(e) && unchanged(c)
    ensures name !in old(e.refCache) && name !in e.attrs ==> r == Err(MissingKey(name)) && unchanged(e) && unchanged(c)
    ensures name !in old(e.refCache) && name in e.attrs && !e.attrs[name].VDict? && (e.attrs[name].VEntity? || e.attrs[name].VNone?) ==>
              unchanged(e) && unchanged(c) &&
              r == Ok(if e.attrs[name].VNone? then NoReferent else Stored(e.attrs[name]))
    ensures name !in old(e.refCache) && name in e.attrs && e.attrs[name].VDict? ==>
              && unchanged(e) && unchanged(c) && r.Ok? && r.value.Instance?
              && var d := r.value.entity;
                 fresh(d) && d.meta == target && d.persisted && d.origin.None?
                 && d.InitializedFrom(RenamePk(target, e.attrs[name].entries), map[])
    ensures name !in old(e.refCache) && name in e.attrs && !(e.attrs[name].VDict? || e.attrs[name].VEntity? || e.attrs[name].VNone?) ==>
              && (r.Err? || r.value.Instance?)
              && Got(c, target, map["pk" := e.attrs[name]], if r.Ok? then Ok(r.value.entity) else Err(r.error))
              && e.refCache == if r.Ok? then old(e.refCache)[name := r.value.entity] else old(e.refCache)
  {
    if name in e.refCache {
      return Ok(Instance(e.refCache[name]));
    }
    if name !in e.attrs {
      return Err(MissingKey(name));
    }
    var v := e.attrs[name];
    match v {
      case VEntity(_, _) =>
        return Ok(Stored(v));
      case VDict(entries) =>
        var d := FromServer(target, entries, None);
        return Ok(Instance(d));
      case VNone =>
        return Ok(NoReferent);
      case _ =>
        var got := FetchReferent(e, name, target, v, c);
        r := if got.Ok? then Ok(Instance(got.value)) else Err(got.error);
    }
  }

  /** The last case of `Reference.__get__`: `get(pk=v)` on the target model, cached under the field's name. */
  method FetchReferent(e: Entity, name: string, target: ModelMeta, v: Value, c: Client) returns (got: Result<Entity>)
    modifies e, c
    ensures e.original == old(e.original) && e.attrs == old(e.attrs)
    ensures e.persisted == old(e.persisted) && e.origin == old(e.origin)
    ensures Got(c, target, map["pk" := v], got)
    ensures e.refCache == if got.Ok? then old(e.refCache)[name := got.value] else old(e.refCache)
  {
    got := GetEntity(target, c, map["pk" := v]);
    if got.Ok? {
      assert got.value != e;
      e.refCache := e.refCache[name := got.value];
    }
  }

  // ---------------------------------------------------------------------
  // Reverse references
  // ---------------------------------------------------------------------

  /** `getattr(obj, '<field>_id') == pk` for a row of the referencing model. */
  predicate Refers(row: Record, field: string, pk: Value) {
    field in row && GetValue(row[field]) == pk
  }

  /** The rows that refer to `pk` through `field`, in order. */
  function Keep(rows: seq<Record>, field: string, pk: Value): (r: seq<Record>)
    ensures |r| <= |rows|
    ensures forall i :: 0 <= i < |r| ==> Refers(r[i], field, pk)
    ensures forall i :: 0 <= i < |rows| && Refers(rows[i], field, pk) ==> rows[i] in r
  {
    if rows == [] then []
    else
      var rest := Keep(rows[1..], field, pk);
      assert rows == [rows[0]] + rows[1..];
      assert forall i :: 0 < i < |rows| ==> rows[i] == rows[1..][i - 1];
      if Refers(rows[0], field, pk) then [rows[0]] + rest else rest
  }

  /** Keeping is done row by row: the kept rows of two runs come in the runs' order. */
  lemma {:induction false} KeepAppend(a: seq<Record>, b: seq<Record>, field: string, pk: Value)
    ensures Keep(a + b, field, pk) == Keep(a, field, pk) + Keep(b, field, pk)
    decreases |a|
  {
    if a == [] {
      assert a + b == b;
    } else {
      assert (a + b)[1..] == a[1..] + b;
      KeepAppend(a[1..], b, field, pk);
    }
  }

  /** Every referring row is kept as often as it occurs, and no other row is kept. */
  lemma {:induction false} KeepCounts(rows: seq<Record>, field: string, pk: Value, x: Record)
    ensures multiset(Keep(rows, field, pk))[x] == if Refers(x, field, pk) then multiset(rows)[x] else 0
    decreases |rows|
  {
    if rows != [] {
      KeepCounts(rows[1..], field, pk, x);
      assert rows == [rows[0]] + rows[1..];
      assert multiset(rows) == multiset{rows[0]} + multiset(rows[1..]);
      if Refers(rows[0], field, pk) {
        assert multiset(Keep(rows, field, pk)) == multiset{rows[0]} + multiset(Keep(rows[1..], field, pk));
      }
    }
  }

  /** The rows that refer to none of `pks` through `field`, in order. */
  function Others(rows: seq<Record>, field: string, pks: seq<Value>): (r: seq<Record>)
    ensures |r| <= |rows|
    ensures forall i :: 0 <= i < |r| ==> !(field in r[i] && GetValue(r[i][field]) in pks)
  {
    if rows == [] then []
    else
      var rest := Others(rows[1..], field, pks);
      if field in rows[0] && GetValue(rows[0][field]) in pks then rest else [rows[0]] + rest
  }

  /** The demultiplexed views of the parents `pks`, one after the other. */
  function Views(rows: seq<Record>, field: string, pks: seq<Value>): seq<Record> {
    if pks == [] then [] else Keep(rows, field, pks[0]) + Views(rows, field, pks[1..])
  }

  /** A row of the batched query goes to exactly one side of a key: the view of `pk` or the rest. */
  lemma {:induction false} KeepOthersSplit(rows: seq<Record>, field: string, pk: Value)
    ensures multiset(rows) == multiset(Keep(rows, field, pk)) + multiset(Others(rows, field, [pk]))
    decreases |rows|
  {
    if rows != [] {
      var rest := rows[1..];
      KeepOthersSplit(rest, field, pk);
      assert rows == [rows[0]] + rest;
      assert multiset(rows) == multiset{rows[0]} + multiset(rest);
      if Refers(rows[0], field, pk) {
        assert Keep(rows, field, pk) == [rows[0]] + Keep(rest, field, pk);
        assert multiset(Keep(rows, field, pk)) == multiset{rows[0]} + multiset(Keep(rest, field, pk));
        assert Others(rows, field, [pk]) == Others(rest, field, [pk]);
      } else {
        assert Keep(rows, field, pk) == Keep(rest, field, pk);
        assert Others(rows, field, [pk]) == [rows[0]] + Others(rest, field, [pk]);
        assert multiset(Others(rows, field, [pk])) == multiset{rows[0]} + multiset(Others(rest, field, [pk]));
      }
    }
  }

  /** Removing a set of keys and then one more key is removing them all at once. */
  lemma {:induction false} OthersCons(rows: seq<Record>, field: string, pk: Value, pks: seq<Value>)
    ensures Others(Others(rows, field, pks), field, [pk]) == Others(rows, field, [pk] + pks)
    decreases |rows|
  {
    if rows != [] {
      OthersCons(rows[1..], field, pk, pks);
      var o := Others(rows, field, pks);
      if !(field in rows[0] && GetValue(rows[0][field]) in pks) {
        assert o == [rows[0]] + Others(rows[1..], field, pks);
        assert o[1..] == Others(rows[1..], field, pks);
      }
    }
  }

  /** The view of a key outside `pks` is the same whether or not the rows of `pks` were removed first. */
  lemma {:induction false} KeepOfOthers(rows: seq<Record>, field: string, pk: Value, pks: seq<Value>)
    requires pk !in pks
    ensures Keep(Others(rows, field, pks), field, pk) == Keep(rows, field, pk)
    decreases |rows|
  {
    if rows != [] {
      KeepOfOthers(rows[1..], field, pk, pks);
      var o := Others(rows, field, pks);
      if !(field in rows[0] && GetValue(rows[0][field]) in pks) {
        assert o == [rows[0]] + Others(rows[1..], field, pks);
        assert o[1..] == Others(rows[1..], field, pks);
      }
    }
  }

  /**
   Demultiplexing loses and duplicates nothing: for distinct parent keys,
   the parents' views together with the rows that refer to no parent are
   a permutation of the batched result.
   */
  lemma {:induction false} DemuxPartition(rows: seq<Record>, field: string, pks: seq<Value>)
    requires forall i, j :: 0 <= i < j < |pks| ==> pks[i] != pks[j]
    ensures multiset(Views(rows, field, pks)) + multiset(Others(rows, field, pks)) == multiset(rows)
    decreases |pks|
  {
    if pks == [] {
      OthersNone(rows, field);
    } else {
      var p, ps := pks[0], pks[1..];
      assert pks == [p] + ps;
      DemuxPartition(rows, field, ps);
      var o := Others(rows, field, ps);
      KeepOthersSplit(o, field, p);
      OthersCons(rows, field, p, ps);
      KeepOfOthers(rows, field, p, ps);
    }
  }

  /** With no parent keys nothing is removed. */
  lemma {:induction false} OthersNone(rows: seq<Record>, field: string)
    ensures Others(rows, field, []) == rows
    decreases |rows|
  {
    if rows != [] {
      OthersNone(rows[1..], field);
      assert rows == [rows[0]] + rows[1..];
    }
  }

  /**
   `DemultiplexingPartiallyFiltered._results`: the rows of the batched
   query whose `<field>_id` is this parent's key; a row without the field
   is a KeyError.
   */
  function DemuxFilter(rows: seq<Record>, field: string, pk: Value): (r: Result<seq<Record>>)
    ensures r.Ok? <==> forall i :: 0 <= i < |rows| ==> field in rows[i]
    ensures r.Err? ==> r.error == MissingKey(field)
    ensures r.Ok? ==> r.value == Keep(rows, field, pk)
  {
    if forall i :: 0 <= i < |rows| ==> field in rows[i] then Ok(Keep(rows, field, pk))
    else Err(MissingKey(field))
  }

  /** The primary key of each row, as the instance built from it would report it. */
  function PrimaryKeys(m: ModelMeta, rows: seq<Record>): (r: Result<seq<Value>>)
    ensures r.Ok? <==> forall i :: 0 <= i < |rows| ==> PrimaryKey(m) in RenamePk(m, rows[i])
    ensures r.Ok? ==> |r.value| == |rows|
    ensures r.Ok? ==> forall i :: 0 <= i < |rows| ==> r.value[i] == RenamePk(m, rows[i])[PrimaryKey(m)]
  {
    if rows == [] then Ok([])
    else
      var a := RenamePk(m, rows[0]);
      if PrimaryKey(m) !in a then Err(MissingKey(PrimaryKey(m)))
      else match PrimaryKeys(m, rows[1..])
        case Err(e) => Err(e)
        case Ok(rest) => Ok([a[PrimaryKey(m)]] + rest)
  }

  /**
   `DemultiplexingPartiallyFiltered._results` on the batched rows, given
   the parent's key as reading `instance.pk` gives it: for each row the
   row's `<field>_id` is read before the parent's key, so an empty batch
   never reads the key, and a first row without the field fails first.
   */
  function Demux(rows: seq<Record>, field: string, pk: Result<Value>): (r: Result<seq<Record>>)
    ensures rows == [] ==> r == Ok([])
    ensures pk.Ok? ==> r == DemuxFilter(rows, field, pk.value)
    ensures pk.Err? && rows != [] ==> r == Err(if field in rows[0] then pk.error else MissingKey(field))
  {
    if rows == [] then Ok([])
    else if field !in rows[0] then Err(MissingKey(field))
    else if pk.Err? then Err(pk.error)
    else DemuxFilter(rows, field, pk.value)
  }

  /**
   A child view of a prefetched reverse reference: the batched query,
   filtered for one parent, whose key is read each time the rows are.
   */
  class DemuxView {
    const source: Builder
    const field: string
    const parent: Entity

    constructor (source: Builder, field: string, parent: Entity)
      ensures this.source == source && this.field == field && this.parent == parent
    {
      this.source := source;
      this.field := field;
      this.parent := parent;
    }

    /** The parent's rows: the batched query is fetched once and shared by every view. */
    method Results(c: Client) returns (r: Result<seq<Record>>)
      requires source.Valid()
      modifies source, source.Heap(), c
      ensures source.Valid() && source.params == old(source.params)
      ensures old(source.cached).Some? ==> source.cached == old(source.cached) && unchanged(c)
      ensures source.cached.None? ==> r.Err?
      ensures source.cached.Some? ==> r == Demux(AllRows(source.cached.value), field, old(parent.Pk()))
      ensures old(source.cached).None? ==>
                var q := Preprocess(source.meta, source.params);
                var rows := RowsOf(FetchOutcome(q, old(c.Answer(source.meta.name, ListCall(source.meta, q)))));
                && Requested(c, source.meta, q)
                && r == if rows.Ok? then Demux(rows.value, field, old(parent.Pk())) else Err(rows.error)
    {
      var rows := source.ToList(c);
      if rows.Err? {
        return Err(rows.error);
      }
      var pk := parent.Pk();
      r := Demux(rows.value, field, pk);
    }
  }

  /** What reading a reverse reference gives. */
  datatype Related = One(entity: Entity) | Many(query: Builder) | Demuxed(view: DemuxView)

  /** The parameters of a reverse reference's query: its declared filters, then `extra`. */
  function ReverseParams(filters: Record, extra: Record): (p: Record)
    ensures p.Keys == filters.Keys + extra.Keys
    ensures forall k :: k in extra ==> p[k] == extra[k]
    ensures forall k :: k in filters && k !in extra ==> p[k] == filters[k]
  {
    filters + extra
  }

  /** The one-to-one reverse reference: `get(filters, field=pk)` on the referencing model, cached under `field`. */
  method ReverseOne(e: Entity, field: string, filters: Record, target: ModelMeta, c: Client) returns (r: Result<Related>)
    modifies e, c
    ensures e.original == old(e.original) && e.attrs == old(e.attrs)
    ensures e.persisted == old(e.persisted) && e.origin == old(e.origin)
    ensures e.Pk().Err? ==> r == Err(e.Pk().error) && unchanged(e) && unchanged(c)
    ensures e.Pk().Ok? && field in old(e.refCache) ==> r == Ok(One(old(e.refCache[field]))) && unchanged(e) && unchanged(c)
    ensures old(e.Pk()).Ok? && field !in old(e.refCache) ==>
              && (r.Err? || r.value.One?)
              && Got(c, target, ReverseParams(filters, map[field := old(e.Pk()).value]), if r.Ok? then Ok(r.value.entity) else Err(r.error))
              && e.refCache == if r.Ok? then old(e.refCache)[field := r.value.entity] else old(e.refCache)
  {
    var pk := e.Pk();
    if pk.Err? {
      return Err(pk.error);
    }
    if field in e.refCache {
      return Ok(One(e.refCache[field]));
    }
    var got := GetEntity(target, c, ReverseParams(filters, map[field := pk.value]));
    if got.Err? {
      return Err(got.error);
    }
    assert got.value != e;
    e.refCache := e.refCache[field := got.value];
    r := Ok(One(got.value));
  }

  /**
   `ReverseReference.__get__` for a one-to-many reference named `attr`
   whose referencing field is `field`. When the instance came from a
   result list, that list is fetched to test whether it is empty. When it
   is not and it asked to prefetch `attr`, one query for all the list's
   keys (`field__in`) is created on first use and kept on that list, and
   the instance gets a view of it filtered to its own key, which the view
   reads only when its rows are read. Otherwise the instance's key is read
   and it gets a fresh query with `field` equal to that key.
   */
  method ReverseMany(e: Entity, attr: string, field: string, filters: Record, target: ModelMeta, c: Client)
    returns (r: Result<Related>)
    requires e.origin.Some? ==> e.origin.value.Valid()
    modifies c, if e.origin.Some? then {e.origin.value} + e.origin.value.Heap() else {}
    ensures r.Ok? && r.value.Many? ==>
              && old(e.Pk()).Ok? && fresh(r.value.query) && r.value.query.meta == target
              && r.value.query.params == ReverseParams(filters, map[field := old(e.Pk()).value])
              && r.value.query.cached.None?
    ensures old(e.origin).None? ==>
              && unchanged(c)
              && (old(e.Pk()).Err? ==> r == Err(old(e.Pk()).error))
              && (old(e.Pk()).Ok? ==> r.Ok? && r.value.Many?)
    ensures old(e.origin).Some? ==>
              var b := old(e.origin).value;
              && b.params == old(b.params)
              && (old(b.cached).Some? ==> b.cached == old(b.cached) && unchanged(c))
              && (old(b.cached).None? ==>
                    var q := Preprocess(b.meta, b.params);
                    var rows := RowsOf(FetchOutcome(q, old(c.Answer(b.meta.name, ListCall(b.meta, q)))));
                    && Requested(c, b.meta, q)
                    && (rows.Err? ==> r == Err(rows.error)))
              && (b.cached.None? ==> r.Err?)
              && (r.Ok? && r.value.Many? ==> b.prefetchResults == old(b.prefetchResults))
              && (r.Ok? && r.value.Demuxed? ==>
                    && attr in b.prefetch.names && b.cached.Some? && |AllRows(b.cached.value)| > 0
                    && attr in b.prefetchResults && r.value.view.source == b.prefetchResults[attr]
                    && r.value.view.field == field && r.value.view.parent == e
                    && (attr in old(b.prefetchResults) ==> b.prefetchResults == old(b.prefetchResults))
                    && (attr !in old(b.prefetchResults) ==>
                          var ids := PrimaryKeys(b.meta, AllRows(b.cached.value));
                          var batch := b.prefetchResults[attr];
                          && ids.Ok? && fresh(batch) && batch.meta == target && batch.cached.None?
                          && batch.params == ReverseParams(filters, map[field + "__in" := VList(ids.value)])
                          && b.prefetchResults == old(b.prefetchResults)[attr := batch]))
              && (b.cached.Some? && |AllRows(b.cached.value)| > 0 && attr in b.prefetch.names ==>
                    var ids := PrimaryKeys(b.meta, AllRows(b.cached.value));
                    && (r.Err? <==> attr !in old(b.prefetchResults) && ids.Err?)
                    && (r.Err? ==> r == Err(ids.error))
                    && (r.Ok? ==> r.value.Demuxed?))
              && (b.cached.Some? && (|AllRows(b.cached.value)| == 0 || attr !in b.prefetch.names) ==>
                    && (old(e.Pk()).Err? ==> r == Err(old(e.Pk()).error))
                    && (old(e.Pk()).Ok? ==> r.Ok? && r.value.Many?))
  {
    if e.origin.None? {
      r := DirectQuery(e, field, filters, target);
      return;
    }
    var b := e.origin.value;
    var nonEmpty := b.NonZero(c);
    if nonEmpty.Err? {
      return Err(nonEmpty.error);
    }
    if !nonEmpty.value || attr !in b.prefetch.names {
      r := DirectQuery(e, field, filters, target);
      return;
    }
    var batch := PrefetchBatch(b, attr, field, filters, target);
    if batch.Err? {
      return Err(batch.error);
    }
    var view := new DemuxView(batch.value, field, e);
    r := Ok(Demuxed(view));
  }

  /** `PartiallyFiltered(_model=target, filters, field=instance.pk)`, or the error reading the key raises. */
  method DirectQuery(e: Entity, field: string, filters: Record, target: ModelMeta) returns (r: Result<Related>)
    ensures e.Pk().Err? ==> r == Err(e.Pk().error)
    ensures e.Pk().Ok? ==>
              && r.Ok? && r.value.Many? && fresh(r.value.query) && r.value.query.meta == target
              && r.value.query.params == ReverseParams(filters, map[field := e.Pk().value])
              && r.value.query.cached.None?
  {
    var pk := e.Pk();
    if pk.Err? {
      return Err(pk.error);
    }
    var q := new Builder(target, ReverseParams(filters, map[field := pk.value]));
    r := Ok(Many(q));
  }

  /**
   `_prefetch_related_results_<attr>` on the fetched list `b`: created on
   first use as one query for all the list's keys (`field__in`), then kept.
   */
  method PrefetchBatch(b: Builder, attr: string, field: string, filters: Record, target: ModelMeta)
    returns (r: Result<Builder>)
    requires b.Valid() && b.cached.Some?
    modifies b, b.Heap()
    ensures b.Valid() && b.params == old(b.params) && b.cached == old(b.cached)
    ensures attr in old(b.prefetchResults) ==>
              r == Ok(old(b.prefetchResults)[attr]) && b.prefetchResults == old(b.prefetchResults)
    ensures attr !in old(b.prefetchResults) ==>
              var ids := PrimaryKeys(b.meta, AllRows(b.cached.value));
              && (ids.Err? ==> r == Err(ids.error))
              && (ids.Ok? ==>
                    && r.Ok? && fresh(r.value) && r.value.meta == target && r.value.cached.None?
                    && r.value.params == ReverseParams(filters, map[field + "__in" := VList(ids.value)])
                    && b.prefetchResults == old(b.prefetchResults)[attr := r.value])
  {
    if attr in b.prefetchResults {
      return Ok(b.prefetchResults[attr]);
    }
    // `bool(...)` fetched the results; reading the rest of a lazy result loads its further pages
    var rows := b.CachedRows();
    var ids := PrimaryKeys(b.meta, rows);
    if ids.Err? {
      return Err(ids.error);
    }
    var batch := new Builder(target, ReverseParams(filters, map[field + "__in" := VList(ids.value)]));
    b.prefetchResults := b.prefetchResults[attr := batch];
    r := Ok(batch);
  }

  // ---------------------------------------------------------------------
  // File and content-type fields
  // ---------------------------------------------------------------------

  /**
   `FileField.url`: the stored URL, with `'/'` put in front when its path
   (as `pathOf` parses it) does not start with one, as happens when the
   server sends just a file name.
   */
  function FileUrl(url: string, pathOf: string -> string): (r: string)
    ensures StartsWith(pathOf(url), "/") ==> r == url
    ensures !StartsWith(pathOf(url), "/") ==> r == "/" + url && StartsWith(r, "/") && r[1..] == url
  {
    if StartsWith(pathOf(url), "/") then url else "/" + url
  }

  /** A bare file name, whose path is the name itself, is served from the root, and fixing it twice changes nothing. */
  lemma FileUrlBareName(url: string, pathOf: string -> string)
    requires pathOf(url) == url
    requires pathOf("/" + url) == "/" + url
    ensures StartsWith(FileUrl(url, pathOf), "/")
    ensures FileUrl(FileUrl(url, pathOf), pathOf) == FileUrl(url, pathOf)
  {
    assert StartsWith("/" + url, "/") by {
      assert ("/" + url)[..1] == "/";
    }
  }

  /** `FileField.url` on an instance: the stored value must be text. */
  function FileUrlOf(e: Entity, name: string, pathOf: string -> string): (r: Result<string>)
    reads e
    ensures r.Ok? <==> name in e.attrs && e.attrs[name].VStr?
    ensures r.Ok? ==> r.value == FileUrl(e.attrs[name].s, pathOf)
    ensures name !in e.attrs ==> r == Err(MissingKey(name))
  {
    match FieldGet(e, name)
    case Err(err) => Err(err)
    case Ok(v) => if v.VStr? then Ok(FileUrl(v.s, pathOf)) else Err(TypeMismatch)
  }

  /** `ContentTypeField.app_label`: the text before the first `'_'`. */
  function AppLabel(value: string): (r: string)
    ensures '_' !in r
    ensures |r| <= |value| && r == value[..|r|]
    ensures |r| == |value| || value[|r|] == '_'
  {
    SplitHead(value, '_');
    Split(value, '_')[0]
  }

  /** `ContentTypeField.model`: the text between the first and the second `'_'`; an IndexError without one. */
  function ContentModel(value: string): (r: Result<string>)
    ensures r.Ok? <==> '_' in value
    ensures r.Err? ==> r.error == IndexOutOfRange
    ensures r.Ok? ==> '_' !in r.value
    ensures r.Ok? ==> var start := |AppLabel(value)| + 1;
                      && start + |r.value| <= |value| && r.value == value[start..start + |r.value|]
                      && (start + |r.value| == |value| || value[start + |r.value|] == '_')
  {
    var parts := Split(value, '_');
    SplitCount(value, '_');
    if |parts| >= 2 then
      ContentModelSlice(value);
      Ok(parts[1])
    else
      Err(IndexOutOfRange)
  }

  /** The second piece of a split on `'_'` is the text after the first `'_'`, up to the next one or the end. */
  lemma ContentModelSlice(value: string)
    requires |Split(value, '_')| >= 2
    ensures var parts := Split(value, '_');
            var start := |parts[0]| + 1;
            && start + |parts[1]| <= |value| && parts[1] == value[start..start + |parts[1]|]
            && (start + |parts[1]| == |value| || value[start + |parts[1]|] == '_')
  {
    var parts := Split(value, '_');
    SplitHead(value, '_');
    var rest := value[|parts[0]| + 1..];
    SplitHead(rest, '_');
    assert parts[1] == Split(rest, '_')[0] by {
      assert parts[1] == parts[1..][0];
    }
  }

  /**
   The first piece of a split is a prefix of the text that runs to its end
   or to the first separator; the other pieces split what follows that
   separator.
   */
  lemma {:induction false} SplitHead(s: string, c: char)
    ensures var p := Split(s, c)[0];
            && |p| <= |s| && p == s[..|p|]
            && (|p| == |s| || s[|p|] == c)
    ensures |Split(s, c)| >= 2 ==> |Split(s, c)[0]| < |s| && Split(s, c)[1..] == Split(s[|Split(s, c)[0]| + 1..], c)
  {
    var parts := Split(s, c);
    JoinSplit(s, c);
    JoinHead(parts, [c]);
    if |parts| >= 2 {
      assert s == parts[0] + [c] + Join(parts[1..], [c]) by {
        JoinCons(parts, [c]);
      }
      assert s[|parts[0]|] == c;
      assert s[|parts[0]| + 1..] == Join(parts[1..], [c]);
      assert forall i :: 0 <= i < |parts[1..]| ==> c !in parts[1..][i] by {
        forall i | 0 <= i < |parts[1..]| ensures c !in parts[1..][i] {
          assert parts[1..][i] == parts[i + 1];
        }
      }
      SplitJoin(parts[1..], c);
    } else {
      assert parts == [parts[0]];
      JoinSingle(parts[0], [c]);
    }
  }

  /** A text splits into more than one piece exactly when it holds the separator. */
  lemma {:induction false} SplitCount(s: string, c: char)
    ensures |Split(s, c)| >= 2 <==> c in s
  {
    var parts := Split(s, c);
    JoinSplit(s, c);
    if |parts| >= 2 {
      JoinHead(parts, [c]);
      assert s == parts[0] + [c] + Join(parts[1..], [c]) by {
        JoinCons(parts, [c]);
      }
      assert s[|parts[0]|] == c;
    } else {
      assert parts == [parts[0]];
      JoinSingle(parts[0], [c]);
    }
  }

  /** `content_type` text `"<app>_<model>"` gives back both parts when neither holds a `'_'`. */
  lemma ContentTypeRoundTrip(app: string, model: string)
    requires '_' !in app && '_' !in model
    ensures AppLabel(app + "_" + model) == app
    ensures ContentModel(app + "_" + model) == Ok(model)
  {
    SplitJoin([app, model], '_');
    JoinCons([app, model], "_");
    JoinSingle(model, "_");
    assert [app, model][1..] == [model];
  }

  lemma JoinHead(xs: seq<string>, sep: string)
    requires |xs| >= 1
    ensures |xs[0]| <= |Join(xs, sep)| && Join(xs, sep)[..|xs[0]|] == xs[0]
  {
    if |xs| >= 2 {
      JoinCons(xs, sep);
    } else {
      JoinSingle(xs[0], sep);
    }
  }

  lemma JoinCons(xs: seq<string>, sep: string)
    requires |xs| >= 2
    ensures Join(xs, sep) == xs[0] + sep + Join(xs[1..], sep)
  {
  }

  lemma JoinSingle(x: string, sep: string)
    ensures Join([x], sep) == x
  {
  }
}
