/**
 restframeworkclient/models.py: a model instance's state (the original and
 current attribute maps, the persisted flag and the per-field caches), the
 routing of constructor keywords through the field descriptors of
 restframeworkclient/fields.py, dirty tracking, and `save`, `delete` and
 `refresh_from_db` over the cached REST call.
 */
module Models {
  import opened Base
  import opened Utils
  import opened Resources
  import opened Transport
  import opened Filtering

  // ---------------------------------------------------------------------
  // Which attribute names the descriptors own
  // ---------------------------------------------------------------------

  /** A declared field other than a reverse reference: assigning it goes through `Field.__set__`. */
  predicate IsFieldKey(m: ModelMeta, k: string) {
    k in m.fields && !m.fields[k].ReverseReference?
  }

  /** `<name>_id` of a declared reference: assigning it goes through `foo_id_setter`. */
  predicate IsIdKey(m: ModelMeta, k: string) {
    && k !in m.fields
    && |k| >= 3 && k[|k| - 3..] == "_id"
    && k[..|k| - 3] in m.fields && m.fields[k[..|k| - 3]].Reference?
  }

  predicate IsDescriptor(m: ModelMeta, k: string) {
    IsFieldKey(m, k) || IsIdKey(m, k)
  }

  /** The attribute a descriptor key writes: the reference itself for `<name>_id`. */
  function Target(m: ModelMeta, k: string): (t: string)
    ensures IsDescriptor(m, k) ==> IsFieldKey(m, t)
  {
    if IsIdKey(m, k) then k[..|k| - 3] else k
  }

  /** The names of `dir(self)` the model tracks: a declared field or an `_id` accessor. */
  predicate InClassDir(m: ModelMeta, k: string) {
    k in m.fields || IsIdKey(m, k)
  }

  /**
   The keyword arguments `_set_initial_attrs` keeps in the tracked maps:
   those the class does not define.
   */
  function PlainAttrs(m: ModelMeta, a: Record): (r: Record)
    ensures forall k :: k in r <==> k in a && !InClassDir(m, k)
    ensures forall k :: k in r ==> r[k] == a[k]
  {
    map k | k in a && !InClassDir(m, k) :: a[k]
  }

  /** The attributes the descriptor keys among `keys` write. */
  function Targets(m: ModelMeta, keys: set<string>): set<string> {
    set k | k in keys && IsDescriptor(m, k) :: Target(m, k)
  }

  /** The declared fields among `keys`, whose assignment invalidates the field's cache. */
  function FieldKeys(m: ModelMeta, keys: set<string>): set<string> {
    set k | k in keys && IsFieldKey(m, k)
  }

  /** The values the descriptor keys of `a` offer for attribute `t`. */
  function ValuesFor(m: ModelMeta, a: Record, t: string): set<Value> {
    set k | k in a && IsDescriptor(m, k) && Target(m, k) == t :: a[k]
  }

  /** `get_key` of `__init__`: `pk` is renamed to the primary-key attribute (which wins if both are given). */
  function RenamePk(m: ModelMeta, kwargs: Record): (r: Record)
    ensures r.Keys == if "pk" in kwargs then kwargs.Keys - {"pk"} + {PrimaryKey(m)} else kwargs.Keys
    ensures forall k :: k in kwargs && k != "pk" ==> r[k] == kwargs[k]
    ensures "pk" in kwargs && PrimaryKey(m) !in kwargs ==> r[PrimaryKey(m)] == kwargs["pk"]
  {
    var pk := PrimaryKey(m);
    if "pk" !in kwargs || pk == "pk" then kwargs
    else if pk in kwargs then kwargs - {"pk"}
    else (kwargs - {"pk"})[pk := kwargs["pk"]]
  }

  // ---------------------------------------------------------------------
  // Dirty tracking and outgoing data
  // ---------------------------------------------------------------------

  /**
   `_changes`: the current attributes that differ from their original
   value; a current attribute without an original value is a KeyError.
   */
  function ChangesOf(original: Record, attrs: Record): (r: Result<Record>)
    ensures r.Ok? <==> attrs.Keys <= original.Keys
    ensures r.Err? ==> r.error == MissingBaseline
    ensures r.Ok? ==> forall k :: k in r.value <==> k in attrs && attrs[k] != original[k]
    ensures r.Ok? ==> forall k :: k in r.value ==> r.value[k] == attrs[k]
  {
    if attrs.Keys <= original.Keys then Ok(map k | k in attrs && attrs[k] != original[k] :: attrs[k])
    else Err(MissingBaseline)
  }

  /**
   A descriptor write keeps the first value as the baseline, so setting a
   tracked attribute back to its original value withdraws its change, and
   a first write records none; other keys keep their status.
   */
  lemma ChangesAfterWrite(original: Record, attrs: Record, k: string, v: Value)
    requires attrs.Keys <= original.Keys
    ensures var o := FirstWins(original, k, v);
            var a := attrs[k := v];
            && ChangesOf(o, a).Ok?
            && (k in ChangesOf(o, a).value <==> k in original && v != original[k])
            && forall j :: j != k ==> (j in ChangesOf(o, a).value <==> j in ChangesOf(original, attrs).value)
  {
  }

  /** `get_value` of `_postprocess_data`: dicts are sent as JSON text, instances as their primary key. */
  function Outgoing(v: Value): (r: Value)
    ensures v.VDict? ==> r == VJsonText(v.entries)
    ensures v.VEntity? ==> r == v.pk
    ensures !v.VDict? && !v.VEntity? ==> r == v
  {
    match v
    case VDict(entries) => VJsonText(entries)
    case VEntity(_, pk) => pk
    case _ => v
  }

  /** `_postprocess_data`: the same keys, each value made fit to send. */
  function PostprocessData(data: Record): (r: Record)
    ensures r.Keys == data.Keys
    ensures forall k :: k in data ==> r[k] == Outgoing(data[k])
    ensures forall k :: k in data && !data[k].VEntity? ==> !r[k].VDict? && !r[k].VEntity?
  {
    map k | k in data :: Outgoing(data[k])
  }

  /** Post-processing what was post-processed changes nothing when no primary key is itself a dict or an instance. */
  lemma PostprocessIdempotent(data: Record)
    requires forall k :: k in data && data[k].VEntity? ==> !data[k].pk.VDict? && !data[k].pk.VEntity?
    ensures PostprocessData(PostprocessData(data)) == PostprocessData(data)
  {
    var once := PostprocessData(data);
    forall k | k in once
      ensures Outgoing(once[k]) == once[k]
    {
      assert !once[k].VDict? && !once[k].VEntity?;
    }
  }

  /** `{k: v for k, v in changes.items() if k in update_fields}` */
  function Restrict(changes: Record, fields: seq<string>): (r: Record)
    ensures forall k :: k in r <==> k in changes && k in fields
    ensures forall k :: k in r ==> r[k] == changes[k]
  {
    map k | k in changes && k in fields :: changes[k]
  }

  /** The position of the first of `fields` the record lacks, or `|fields|`. */
  function FirstMissing(fields: seq<string>, rec: Record): (i: nat)
    ensures i <= |fields|
    ensures forall j :: 0 <= j < i ==> fields[j] in rec
    ensures i < |fields| ==> fields[i] !in rec
  {
    if |fields| == 0 || fields[0] !in rec then 0
    else 1 + FirstMissing(fields[1..], rec)
  }

  /** `{k: rec[k] for k in fields}` for fields the record has. */
  function Pick(rec: Record, fields: seq<string>): (r: Record)
    ensures forall k :: k in r <==> k in fields && k in rec
    ensures forall k :: k in r ==> r[k] == rec[k]
  {
    map k | k in fields && k in rec :: rec[k]
  }

  /**
   `for k in update_fields: self._attrs[k] = json_[k]`: the fields are
   copied one by one, so at the first field the record lacks the loop stops
   with a KeyError, keeping the fields copied before it.
   */
  method CopyFields(attrs: Record, rec: Record, fs: seq<string>) returns (updated: Record, err: Option<Error>)
    ensures var i := FirstMissing(fs, rec);
            && updated == attrs + Pick(rec, fs[..i])
            && err == (if i < |fs| then Some(MissingKey(fs[i])) else None)
  {
    updated := attrs;
    var i := 0;
    while i < |fs|
      invariant 0 <= i <= FirstMissing(fs, rec)
      invariant updated == attrs + Pick(rec, fs[..i])
    {
      if fs[i] !in rec {
        return updated, Some(MissingKey(fs[i]));
      }
      CopyStep(attrs, rec, fs, i);
      updated := updated[fs[i] := rec[fs[i]]];
      i := i + 1;
    }
    assert fs[..i] == fs;
    err := None;
  }

  /** One more copied field: the merge grows by that field, and the field is not the first missing one. */
  lemma CopyStep(attrs: Record, rec: Record, fs: seq<string>, i: nat)
    requires i <= FirstMissing(fs, rec) && i < |fs| && fs[i] in rec
    ensures i + 1 <= FirstMissing(fs, rec)
    ensures attrs + Pick(rec, fs[..i + 1]) == (attrs + Pick(rec, fs[..i]))[fs[i] := rec[fs[i]]]
  {
    PickStep(rec, fs, i);
    MergeUpdate(attrs, Pick(rec, fs[..i]), fs[i], rec[fs[i]]);
  }

  lemma MergeUpdate(a: Record, p: Record, k: string, v: Value)
    ensures a + p[k := v] == (a + p)[k := v]
  {
  }

  /** Picking one more field the record has adds just that field. */
  lemma PickStep(rec: Record, fs: seq<string>, i: nat)
    requires i < |fs| && fs[i] in rec
    ensures Pick(rec, fs[..i + 1]) == Pick(rec, fs[..i])[fs[i] := rec[fs[i]]]
  {
    assert fs[..i + 1] == fs[..i] + [fs[i]];
  }

  // ---------------------------------------------------------------------
  // Model instances
  // ---------------------------------------------------------------------

  /** The keyword arguments `dir(self)` holds: each is removed from both copies and assigned through the class. */
  function ClassKeys(m: ModelMeta, a: Record): set<string> {
    set k | k in a && InClassDir(m, k)
  }

  /**
   The baseline `_set_initial_attrs(a)` leaves for a written field `t`: its
   own keyword when given, since the `_id` setter writes no baseline while
   `t` is still in the copied keywords and `Field.__set__` writes one after
   deleting it; otherwise the `<t>_id` keyword.
   */
  function Baseline(a: Record, t: string): Value {
    if t in a then a[t] else if t + "_id" in a then a[t + "_id"] else VNone
  }

  /**
   The state of `_set_initial_attrs(a)` once the class keys `done` have been
   assigned: every plain key and every class key still to come holds its
   value in both maps, every attribute a descriptor wrote has the baseline
   `Baseline` and holds one of the values offered for it, and the written
   fields' cached instances are gone.
   */
  ghost predicate InitState<E>(m: ModelMeta, a: Record, done: set<string>, cacheBefore: map<string, E>,
                               original: Record, attrs: Record, cache: map<string, E>)
  {
    && InitKeys(m, a, done, original, attrs)
    && InitPlain(m, a, original, attrs)
    && InitPending(m, a, done, original, attrs)
    && InitTargets(m, a, done, original, attrs)
    && cache == cacheBefore - FieldKeys(m, done)
  }

  ghost predicate InitKeys(m: ModelMeta, a: Record, done: set<string>, original: Record, attrs: Record) {
    && original.Keys == PlainAttrs(m, a).Keys + (ClassKeys(m, a) - done) + Targets(m, done)
    && attrs.Keys == original.Keys
  }

  ghost predicate InitPlain(m: ModelMeta, a: Record, original: Record, attrs: Record) {
    forall k :: k in PlainAttrs(m, a) ==> k in original && k in attrs && original[k] == a[k] && attrs[k] == a[k]
  }

  ghost predicate InitPending(m: ModelMeta, a: Record, done: set<string>, original: Record, attrs: Record) {
    forall k :: k in ClassKeys(m, a) && k !in done && k !in Targets(m, done) ==>
      k in original && k in attrs && original[k] == a[k] && attrs[k] == a[k]
  }

  ghost predicate InitTargets(m: ModelMeta, a: Record, done: set<string>, original: Record, attrs: Record) {
    forall t :: t in Targets(m, done) ==>
      t in original && t in attrs && original[t] == Baseline(a, t) && attrs[t] in ValuesFor(m, a, t)
  }

  /** The record after a descriptor writes `v` to `t`: the first write is the baseline. */
  function FirstWins(r: Record, t: string, v: Value): Record {
    if t in r then r else r[t := v]
  }

  /** The maps after class key `k` is deleted from both and assigned through its descriptor, if it has one. */
  function AssignKey(m: ModelMeta, a: Record, k: string, original: Record, attrs: Record): (Record, Record)
    requires k in a
  {
    if IsDescriptor(m, k) then (FirstWins(original - {k}, Target(m, k), a[k]), (attrs - {k})[Target(m, k) := a[k]])
    else (original - {k}, attrs - {k})
  }

  /** Before the loop both maps are copies of the keyword arguments. */
  lemma InitStart<E>(m: ModelMeta, a: Record, cache: map<string, E>)
    ensures InitState(m, a, {}, cache, a, a, cache)
  {
    assert Targets(m, {}) == {} && FieldKeys(m, {}) == {};
  }

  /** Assigning one more class key of `a` keeps the initialisation state. */
  lemma InitStep<E>(m: ModelMeta, a: Record, done: set<string>, cacheBefore: map<string, E>, k: string,
                    original: Record, attrs: Record, cache: map<string, E>)
    requires k in ClassKeys(m, a) && k !in done && done <= ClassKeys(m, a)
    requires InitState(m, a, done, cacheBefore, original, attrs, cache)
    ensures InitState(m, a, done + {k}, cacheBefore, AssignKey(m, a, k, original, attrs).0, AssignKey(m, a, k, original, attrs).1,
                      if IsFieldKey(m, k) then cache - {k} else cache)
  {
    FieldKeysAdd(m, done, k);
    AssignFacts(m, a, k, original, attrs);
    InitKeysStep(m, a, done, k, original, attrs);
    InitPendingStep(m, a, done, k, original, attrs);
    InitTargetsStep(m, a, done, k, original, attrs);
  }

  /** What `AssignKey` changes: key `k` goes, the descriptor's target is written, the rest stays. */
  lemma AssignFacts(m: ModelMeta, a: Record, k: string, original: Record, attrs: Record)
    requires k in a
    ensures var original', attrs' := AssignKey(m, a, k, original, attrs).0, AssignKey(m, a, k, original, attrs).1;
            var written := if IsDescriptor(m, k) then {Target(m, k)} else {};
            && original'.Keys == original.Keys - {k} + written
            && attrs'.Keys == attrs.Keys - {k} + written
            && (forall j :: j in original && j != k && j !in written ==> original'[j] == original[j])
            && (forall j :: j in attrs && j != k && j !in written ==> attrs'[j] == attrs[j])
            && (IsDescriptor(m, k) ==>
                  && attrs'[Target(m, k)] == a[k]
                  && original'[Target(m, k)] == if Target(m, k) in original - {k} then original[Target(m, k)] else a[k])
  {
  }

  lemma InitKeysStep(m: ModelMeta, a: Record, done: set<string>, k: string, original: Record, attrs: Record)
    requires k in ClassKeys(m, a) && k !in done
    requires InitKeys(m, a, done, original, attrs) && InitPlain(m, a, original, attrs)
    ensures var original', attrs' := AssignKey(m, a, k, original, attrs).0, AssignKey(m, a, k, original, attrs).1;
            InitKeys(m, a, done + {k}, original', attrs') && InitPlain(m, a, original', attrs')
  {
    AssignFacts(m, a, k, original, attrs);
    assert k !in PlainAttrs(m, a);
    if IsDescriptor(m, k) {
      TargetsAdd(m, done, k);
      assert Target(m, k) !in PlainAttrs(m, a) by {
        assert IsFieldKey(m, Target(m, k));
      }
      assert k in Targets(m, done) ==> k == Target(m, k);
    } else {
      assert Targets(m, done + {k}) == Targets(m, done);
      assert k !in Targets(m, done);
    }
  }

  lemma InitPendingStep(m: ModelMeta, a: Record, done: set<string>, k: string, original: Record, attrs: Record)
    requires k in ClassKeys(m, a) && k !in done
    requires InitPending(m, a, done, original, attrs)
    ensures var original', attrs' := AssignKey(m, a, k, original, attrs).0, AssignKey(m, a, k, original, attrs).1;
            InitPending(m, a, done + {k}, original', attrs')
  {
    AssignFacts(m, a, k, original, attrs);
    if IsDescriptor(m, k) {
      TargetsAdd(m, done, k);
    } else {
      assert Targets(m, done + {k}) == Targets(m, done);
    }
  }

  lemma InitTargetsStep(m: ModelMeta, a: Record, done: set<string>, k: string, original: Record, attrs: Record)
    requires k in ClassKeys(m, a) && k !in done && done <= ClassKeys(m, a)
    requires InitKeys(m, a, done, original, attrs) && InitPending(m, a, done, original, attrs)
    requires InitTargets(m, a, done, original, attrs)
    ensures var original', attrs' := AssignKey(m, a, k, original, attrs).0, AssignKey(m, a, k, original, attrs).1;
            InitTargets(m, a, done + {k}, original', attrs')
  {
    AssignFacts(m, a, k, original, attrs);
    if IsDescriptor(m, k) {
      var t := Target(m, k);
      TargetsAdd(m, done, k);
      assert a[k] in ValuesFor(m, a, t);
      assert Baseline(a, t) == AssignKey(m, a, k, original, attrs).0[t] by {
        if IsIdKey(m, k) {
          InitIdBaseline(m, a, done, k, original, attrs);
        }
      }
    } else {
      assert Targets(m, done + {k}) == Targets(m, done);
    }
  }

  /**
   `foo_id_setter` for `<t>_id` finds `t` among the baseline's keys exactly
   when the keywords hold `t` (still pending or already written), so the
   baseline is `t`'s own keyword when given.
   */
  lemma InitIdBaseline(m: ModelMeta, a: Record, done: set<string>, k: string, original: Record, attrs: Record)
    requires k in ClassKeys(m, a) && k !in done && done <= ClassKeys(m, a) && IsIdKey(m, k)
    requires InitKeys(m, a, done, original, attrs) && InitPending(m, a, done, original, attrs)
    requires InitTargets(m, a, done, original, attrs)
    ensures var t := Target(m, k);
            Baseline(a, t) == if t in original - {k} then original[t] else a[k]
  {
    var t := Target(m, k);
    IdKeyName(m, k);
    assert IsFieldKey(m, t);
    assert t !in PlainAttrs(m, a);
    if t in Targets(m, done) {
      TargetWrittenBy(m, done, t);
    }
  }

  /** An `_id` key is its reference's name followed by `_id`. */
  lemma IdKeyName(m: ModelMeta, k: string)
    requires IsIdKey(m, k)
    ensures k == Target(m, k) + "_id"
  {
    assert k == k[..|k| - 3] + k[|k| - 3..];
  }

  /** A written field was written by its own keyword or by its `_id` keyword. */
  lemma TargetWrittenBy(m: ModelMeta, done: set<string>, t: string)
    requires t in Targets(m, done)
    ensures t in done || (t + "_id" in done && IsIdKey(m, t + "_id"))
  {
    var j :| j in done && IsDescriptor(m, j) && Target(m, j) == t;
    if IsIdKey(m, j) {
      IdKeyName(m, j);
    }
  }

  lemma TakeOne<T>(all: set<T>, todo: set<T>, k: T)
    requires k in todo && todo <= all
    ensures all - (todo - {k}) == (all - todo) + {k}
  {
  }

  lemma TargetsAdd(m: ModelMeta, done: set<string>, k: string)
    requires IsDescriptor(m, k)
    ensures Targets(m, done + {k}) == Targets(m, done) + {Target(m, k)}
  {
  }

  lemma FieldKeysAdd(m: ModelMeta, done: set<string>, k: string)
    ensures FieldKeys(m, done + {k}) == FieldKeys(m, done) + (if IsFieldKey(m, k) then {k} else {})
  {
  }

  /**
   `Model(owner=..., owner_id=...)`: the reference's own keyword is the
   baseline whatever the order, and the current value is one of the two.
   */
  lemma InitReferenceAndId<E>(m: ModelMeta, a: Record, cacheBefore: map<string, E>,
                              original: Record, attrs: Record, cache: map<string, E>, t: string)
    requires t in m.fields && m.fields[t].Reference? && t + "_id" !in m.fields
    requires t in a && t + "_id" in a
    requires InitState(m, a, a.Keys, cacheBefore, original, attrs, cache)
    ensures t in original && original[t] == a[t]
    ensures t in attrs && (attrs[t] == a[t] || attrs[t] == a[t + "_id"])
  {
    assert Target(m, t) == t;
    assert t in Targets(m, a.Keys);
    forall v | v in ValuesFor(m, a, t)
      ensures v == a[t] || v == a[t + "_id"]
    {
      var j :| j in a && IsDescriptor(m, j) && Target(m, j) == t && a[j] == v;
      if IsIdKey(m, j) {
        IdKeyName(m, j);
      }
    }
  }

  /** Once all class keys are assigned the state is the one `InitializedFrom` describes. */
  lemma InitDone<E>(m: ModelMeta, a: Record, cacheBefore: map<string, E>,
                    original: Record, attrs: Record, cache: map<string, E>)
    requires InitState(m, a, ClassKeys(m, a), cacheBefore, original, attrs, cache)
    ensures InitState(m, a, a.Keys, cacheBefore, original, attrs, cache)
    ensures attrs.Keys <= original.Keys
    ensures forall t :: t in Targets(m, a.Keys) ==> t in a || t + "_id" in a
  {
    forall t | t in Targets(m, a.Keys)
      ensures t in a || t + "_id" in a
    {
      TargetWrittenBy(m, a.Keys, t);
    }
    assert Targets(m, ClassKeys(m, a)) == Targets(m, a.Keys);
    assert FieldKeys(m, ClassKeys(m, a)) == FieldKeys(m, a.Keys);
    assert ClassKeys(m, a) - ClassKeys(m, a) == ClassKeys(m, a) - a.Keys == {};
  }

  /**
   The loop of `_set_initial_attrs(a)`: both maps start as copies of `a`;
   every key the class defines is deleted from both and assigned through
   its descriptor, in the dictionary's (unspecified) order.
   */
  method InitialAttrs<E>(m: ModelMeta, a: Record, cache: map<string, E>) returns (o: Record, at: Record, rc: map<string, E>)
    ensures InitState(m, a, a.Keys, cache, o, at, rc) && at.Keys <= o.Keys
    ensures forall t :: t in Targets(m, a.Keys) ==>
              t in o && (t in a || t + "_id" in a) && o[t] == (if t in a then a[t] else a[t + "_id"])
  {
    o, at, rc := a, a, cache;
    var todo := ClassKeys(m, a);
    ghost var all := todo;
    InitStart(m, a, cache);
    while todo != {}
      invariant todo <= all
      invariant InitState(m, a, all - todo, cache, o, at, rc)
      decreases |todo|
    {
      var k :| k in todo;
      InitStep(m, a, all - todo, cache, k, o, at, rc);
      // `del` from both maps, then `Field.__set__` (a field) or `foo_id_setter` (an `_id` key)
      o, at := AssignKey(m, a, k, o, at).0, AssignKey(m, a, k, o, at).1;
      if IsFieldKey(m, k) {
        rc := rc - {k};
      }
      TakeOne(all, todo, k);
      todo := todo - {k};
    }
    assert all - todo == all;
    InitDone(m, a, cache, o, at, rc);
  }

  /** A model instance: `_original_attrs`, `_attrs`, `_persisted`, the `_cached_instance_*` attributes and `_partially_filtered`. */
  class Entity {
    const meta: ModelMeta
    var original: Record
    var attrs: Record
    var persisted: bool
    /** `_cached_instance_<name>`: the instance a reference dereferenced to. */
    var refCache: map<string, Entity>
    /** `_partially_filtered`: the query whose results held this instance. */
    var origin: Option<Builder>

    /** Every current attribute has a baseline, so `_changes` is defined. */
    ghost predicate Valid()
      reads this
    {
      attrs.Keys <= original.Keys
    }

    /** The state `_set_initial_attrs(a)` leaves, given the field caches before it. */
    ghost predicate InitializedFrom(a: Record, cacheBefore: map<string, Entity>)
      reads this
    {
      InitState(meta, a, a.Keys, cacheBefore, original, attrs, refCache)
    }

    /** `Model(**kwargs)`: a new, unpersisted instance. */
    constructor (meta: ModelMeta, kwargs: Record)
      ensures this.meta == meta && !persisted && origin.None?
      ensures InitializedFrom(RenamePk(meta, kwargs), map[]) && Valid()
    {
      this.meta := meta;
      original := map[];
      attrs := map[];
      persisted := false;
      refCache := map[];
      origin := None;
      new;
      SetInitialAttrs(RenamePk(meta, kwargs));
    }

    /**
     `_set_initial_attrs(a)`: both maps start as copies of `a`; every key
     the class defines is deleted and assigned through its descriptor. A
     written field's baseline is its own keyword when given, else its `_id`
     keyword; when both are given either may supply the current value.
     */
    method SetInitialAttrs(a: Record)
      modifies this
      ensures InitializedFrom(a, old(refCache)) && Valid()
      ensures persisted == old(persisted) && origin == old(origin)
    {
      var o, at, rc := InitialAttrs(meta, a, refCache);
      original, attrs, refCache := o, at, rc;
    }

    /** `self.pk`: the value of the primary-key attribute. */
    function Pk(): (r: Result<Value>)
      reads this
      ensures r.Ok? <==> PrimaryKey(meta) in attrs
      ensures r.Ok? ==> r.value == attrs[PrimaryKey(meta)]
      ensures r.Err? ==> r.error == MissingKey(PrimaryKey(meta))
    {
      var pk := PrimaryKey(meta);
      if pk in attrs then Ok(attrs[pk]) else Err(MissingKey(pk))
    }

    /** `self._changes` */
    function Changes(): (r: Result<Record>)
      reads this
      ensures Valid() <==> r.Ok?
      ensures r.Ok? ==> forall k :: k in r.value <==> k in attrs && attrs[k] != original[k]
    {
      ChangesOf(original, attrs)
    }

    /** `__eq__`: instances of the same model with equal primary keys. */
    function Equals(other: Entity): (r: Result<bool>)
      reads this, other
      ensures meta.name != other.meta.name ==> r == Ok(false)
      ensures meta.name == other.meta.name ==>
                (r.Ok? <==> Pk().Ok? && other.Pk().Ok?) &&
                (r.Ok? ==> r.value == (Pk().value == other.Pk().value))
    {
      if meta.name != other.meta.name then Ok(false)
      else match (Pk(), other.Pk())
        case (Ok(a), Ok(b)) => Ok(a == b)
        case (Err(e), _) => Err(e)
        case (_, Err(e)) => Err(e)
    }

    /** The call `save(update_fields)` makes, or the error it raises first. */
    function SaveCall(updateFields: Option<seq<string>>): (r: Result<Call>)
      reads this
      ensures !persisted ==> r == Ok(Call(ResourcesUrl(meta), POST, None, Some(PostprocessData(attrs))))
      ensures persisted && Pk().Err? ==> r == Err(Pk().error)
      ensures persisted && Pk().Ok? && Changes().Err? ==> r == Err(Changes().error)
      ensures persisted && Pk().Ok? && Changes().Ok? ==>
                && r.Ok? && r.value.url == ResourceUrl(meta, Pk().value) && r.value.verb == PATCH
                && r.value.params.None? && r.value.data.Some?
                && (forall k :: k in r.value.data.value <==>
                      && k in attrs && attrs[k] != original[k]
                      && (updateFields.Some? && |updateFields.value| > 0 ==> k in updateFields.value))
                && (forall k :: k in r.value.data.value ==> r.value.data.value[k] == Outgoing(attrs[k]))
    {
      if !persisted then Ok(Call(ResourcesUrl(meta), POST, None, Some(PostprocessData(attrs))))
      else match Pk()
        case Err(e) => Err(e)
        case Ok(pk) =>
          match Changes()
          case Err(e) => Err(e)
          case Ok(changes) =>
            var data := if updateFields.Some? && |updateFields.value| > 0 then Restrict(changes, updateFields.value)
                        else changes;
            Ok(Call(ResourceUrl(meta, pk), PATCH, None, Some(PostprocessData(data))))
    }

    /**
     `save(update_fields)`: creates an unpersisted instance with all its
     attributes, else sends the changes (only those in `update_fields`, if
     any are named). Afterwards the baseline is the server's record; the
     current attributes are the record too, except with `update_fields`,
     where only those fields are copied from it, one by one, until one is
     missing from the record.
     */
    method Save(c: Client, updateFields: Option<seq<string>>) returns (err: Option<Error>)
      modifies this, c
      ensures refCache == old(refCache) && origin == old(origin)
      ensures old(SaveCall(updateFields)).Err? ==>
                && err == Some(old(SaveCall(updateFields)).error)
                && unchanged(this) && unchanged(c)
      ensures old(SaveCall(updateFields)).Ok? ==>
                var call := old(SaveCall(updateFields)).value;
                var ans := old(c.Answer(meta.name, call));
                && c.log == old(c.LogAfter(call)) && c.requestCache == old(c.CacheAfter(meta.name, call))
                && (ans.Err? ==> err == Some(ans.error) && unchanged(this))
                && (ans.Ok? && !ans.value.Single? ==> err == Some(MalformedResponse) && unchanged(this))
                && (ans.Ok? && ans.value.Single? ==>
                      var rec := ans.value.record;
                      && original == rec && persisted
                      && (if old(persisted) && updateFields.Some? && |updateFields.value| > 0 then
                            var fs := updateFields.value;
                            var i := FirstMissing(fs, rec);
                            && attrs == old(attrs) + Pick(rec, fs[..i])
                            && err == (if i < |fs| then Some(MissingKey(fs[i])) else None)
                          else
                            attrs == rec && err.None? && Changes() == Ok(map[])))
    {
      var call := SaveCall(updateFields);
      if call.Err? {
        return Some(call.error);
      }
      var ans := c.RestCall(meta.name, call.value);
      if ans.Err? {
        return Some(ans.error);
      }
      if !ans.value.Single? {
        return Some(MalformedResponse);
      }
      var rec := ans.value.record;
      var partial := persisted && updateFields.Some? && |updateFields.value| > 0;
      original := rec;
      persisted := true;
      if !partial {
        attrs := rec;
        return None;
      }
      attrs, err := CopyFields(attrs, rec, updateFields.value);
    }

    /** `delete()`: only a persisted instance can be deleted; the answer is returned as is. */
    method Delete(c: Client) returns (r: Result<Body>)
      modifies c
      ensures !persisted ==> r == Err(NotPersisted) && unchanged(c)
      ensures persisted && Pk().Err? ==> r == Err(Pk().error) && unchanged(c)
      ensures persisted && Pk().Ok? ==>
                var call := Call(ResourceUrl(meta, Pk().value), DELETE, None, None);
                && r == old(c.Answer(meta.name, call))
                && c.log == old(c.LogAfter(call)) && c.requestCache == old(c.CacheAfter(meta.name, call))
    {
      if !persisted {
        return Err(NotPersisted);
      }
      var pk := Pk();
      if pk.Err? {
        return Err(pk.error);
      }
      r := c.RestCall(meta.name, Call(ResourceUrl(meta, pk.value), DELETE, None, None));
    }

    /** `refresh_from_db()`: a persisted instance re-reads its record and re-initialises from it. */
    method RefreshFromDb(c: Client) returns (err: Option<Error>)
      modifies this, c
      ensures persisted == old(persisted) && origin == old(origin)
      ensures !old(persisted) ==> err == Some(NotPersisted) && unchanged(this) && unchanged(c)
      ensures old(persisted) && old(Pk()).Err? ==> err == Some(old(Pk()).error) && unchanged(this) && unchanged(c)
      ensures old(persisted) && old(Pk()).Ok? ==>
                var call := Call(ResourceUrl(meta, old(Pk()).value), GET, None, None);
                var ans := old(c.Answer(meta.name, call));
                && c.log == old(c.LogAfter(call)) && c.requestCache == old(c.CacheAfter(meta.name, call))
                && (ans.Err? ==> err == Some(ans.error) && unchanged(this))
                && (ans.Ok? && !ans.value.Single? ==> err == Some(MalformedResponse) && unchanged(this))
                && (ans.Ok? && ans.value.Single? ==> err.None? && InitializedFrom(ans.value.record, old(refCache)))
    {
      if !persisted {
        return Some(NotPersisted);
      }
      var pk := Pk();
      if pk.Err? {
        return Some(pk.error);
      }
      var ans := c.RestCall(meta.name, Call(ResourceUrl(meta, pk.value), GET, None, None));
      if ans.Err? {
        return Some(ans.error);
      }
      if !ans.value.Single? {
        return Some(MalformedResponse);
      }
      SetInitialAttrs(ans.value.record);
      err := None;
    }
  }

  /** An instance built from a server record (`get`, `_fetch_results`): persisted, and tied to its query. */
  method FromServer(meta: ModelMeta, rec: Record, origin: Option<Builder>) returns (e: Entity)
    ensures fresh(e) && e.meta == meta && e.persisted && e.origin == origin
    ensures e.InitializedFrom(RenamePk(meta, rec), map[]) && e.Valid()
  {
    e := new Entity(meta, rec);
    e.persisted := true;
    e.origin := origin;
  }

  /**
   What `get(**kwargs)` on model `m` gave: the outcome of its one request,
   with a found record as a fresh, persisted instance built from it.
   */
  twostate predicate Got(c: Client, m: ModelMeta, kwargs: Record, new r: Result<Entity>)
    reads c, if r.Ok? then {r.value} else {}
  {
    var route := GetRoute(m, Preprocess(m, kwargs));
    var call := GetCall(m, route);
    var outcome := GetOutcome(m, route, old(c.Answer(m.name, call)));
    && c.log == old(c.LogAfter(call)) && c.requestCache == old(c.CacheAfter(m.name, call))
    && (outcome.Err? ==> r == Err(outcome.error))
    && (outcome.Ok? ==>
          && r.Ok? && fresh(r.value) && r.value.meta == m && r.value.persisted
          && r.value.InitializedFrom(RenamePk(m, outcome.value), map[]))
  }

  /** `m.objects.get(**kwargs)`: a builder with no filters asked for the one matching record, as an instance. */
  method GetEntity(m: ModelMeta, c: Client, kwargs: Record) returns (r: Result<Entity>)
    modifies c
    ensures Got(c, m, kwargs, r)
    ensures r.Ok? ==> fresh(r.value)
  {
    var b := new Builder(m, map[]);
    assert b.params + kwargs == kwargs;
    var rec := b.Get(c, kwargs);
    if rec.Err? {
      return Err(rec.error);
    }
    var e := FromServer(m, rec.value, None);
    r := Ok(e);
  }
}
