/**
 restframeworkclient/filtering.py: `PartiallyFiltered`, the lazily evaluated
 query builder. The pure part of this module computes the query parameters
 each operation sends; the `Builder` class holds the parameters, the shared
 prefetch list and the once-fetched results.
 */
module Filtering {
  import opened Base
  import opened Strings
  import opened Utils
  import opened Resources
  import opened Transport

  // ---------------------------------------------------------------------
  // Parameter preprocessing (`_preprocess_filter_params`)
  // ---------------------------------------------------------------------

  /** `get_key`: `pk` names the primary key; a `__pk` suffix is dropped. */
  function GetKey(m: ModelMeta, k: string): string {
    if k == "pk" then PrimaryKey(m)
    else if EndsWith(k, "__pk") then k[..|k| - 4]
    else k
  }

  /** `get_value`: a model instance stands for its primary key. */
  function GetValue(v: Value): Value {
    if v.VEntity? then v.pk else v
  }

  /** Some filter other than an `exclude__` one asks for an empty list or tuple. */
  predicate NoneFlag(p: Record) {
    exists k :: k in p && !StartsWith(k, "exclude__") && IsEmptyListOrTuple(p[k])
  }

  /** The parameters after `params['__none__'] = True` has been applied when flagged. */
  function Flagged(p: Record): Record {
    if NoneFlag(p) then p["__none__" := VBool(true)] else p
  }

  /** The keys the normalised parameters have. */
  function NormalKeys(m: ModelMeta, p: Record): set<string> {
    set k | k in p :: GetKey(m, k)
  }

  /** A key ending in `__pk` is its stem followed by the suffix. */
  lemma PkSuffixes()
    ensures forall k :: EndsWith(k, "__pk") ==> k == k[..|k| - 4] + "__pk"
  {
    forall k | EndsWith(k, "__pk")
      ensures k == k[..|k| - 4] + "__pk"
    {
      assert k == k[..|k| - 4] + k[|k| - 4..];
    }
  }

  /**
   The parameter that supplies normalised key `t` when several normalise to
   it: `t` itself if given in normal form, else `t__pk`, else `pk`.
   */
  function Supplier(m: ModelMeta, p: Record, t: string): (k: string)
    requires t in NormalKeys(m, p)
    ensures k in p && GetKey(m, k) == t
  {
    PkSuffixes();
    if t in p && GetKey(m, t) == t then t
    else if t + "__pk" in p && GetKey(m, t + "__pk") == t then t + "__pk"
    else "pk"
  }

  /** `{get_key(key): get_value(value) for key, value in params.items()}` */
  function Normalize(m: ModelMeta, p: Record): (q: Record)
    ensures q.Keys == NormalKeys(m, p)
  {
    map t | t in NormalKeys(m, p) :: GetValue(p[Supplier(m, p, t)])
  }

  /**
   `_preprocess_filter_params`: an empty-list filter adds `__none__ = True`;
   keys and values are normalised. Keys already in normal form keep their
   value, and `pk` is renamed to the primary-key attribute.
   */
  function Preprocess(m: ModelMeta, p: Record): (q: Record)
    ensures q.Keys == NormalKeys(m, p) + (if NoneFlag(p) then {"__none__"} else {})
    ensures NoneFlag(p) ==> q["__none__"] == VBool(true)
    ensures forall k :: k in p && GetKey(m, k) == k && !(NoneFlag(p) && k == "__none__") ==>
              q[k] == GetValue(p[k])
    ensures "pk" in p ==> PrimaryKey(m) in q
  {
    var f := Flagged(p);
    assert GetKey(m, "__none__") == "__none__";
    assert NoneFlag(p) ==> NormalKeys(m, f) == NormalKeys(m, p) + {"__none__"};
    NormalizeKeeps(m, f);
    Normalize(m, f)
  }

  /**
   The value `_preprocess_filter_params` stores under each renamed key:
   `get_value` of the parameter that supplies it, and of the parameter
   itself when no other one normalises to the same key.
   */
  lemma PreprocessValues(m: ModelMeta, p: Record)
    ensures forall t :: t in NormalKeys(m, p) && !(NoneFlag(p) && t == "__none__") ==>
              Preprocess(m, p)[t] == GetValue(p[Supplier(m, p, t)])
    ensures forall k :: Sole(m, p, k) && !(NoneFlag(p) && GetKey(m, k) == "__none__") ==>
              Preprocess(m, p)[GetKey(m, k)] == GetValue(p[k])
  {
    FlaggedSuppliers(m, p);
  }

  /** No other parameter of `p` normalises to the key `k` does: its value is the one stored. */
  predicate Sole(m: ModelMeta, p: Record, k: string) {
    k in p && forall k' :: k' in p && GetKey(m, k') == GetKey(m, k) ==> k' == k
  }

  /** The none flag changes no other normalised key's supplier or value. */
  lemma FlaggedSuppliers(m: ModelMeta, p: Record)
    ensures forall t :: t in NormalKeys(m, p) && !(NoneFlag(p) && t == "__none__") ==>
              t in NormalKeys(m, Flagged(p)) && Supplier(m, Flagged(p), t) == Supplier(m, p, t)
              && Flagged(p)[Supplier(m, p, t)] == p[Supplier(m, p, t)]
  {
    forall t | t in NormalKeys(m, p) && !(NoneFlag(p) && t == "__none__")
      ensures t in NormalKeys(m, Flagged(p)) && Supplier(m, Flagged(p), t) == Supplier(m, p, t)
              && Flagged(p)[Supplier(m, p, t)] == p[Supplier(m, p, t)]
    {
      var f := Flagged(p);
      var k :| k in p && GetKey(m, k) == t;
      assert k in f;
      if NoneFlag(p) {
        assert (t + "__pk")[|t| + 3] == 'k';
        assert t + "__pk" != "__none__";
        assert Supplier(m, p, t) != "__none__";
      }
    }
  }

  /** A key already in normal form keeps its (normalised) value. */
  lemma NormalizeKeeps(m: ModelMeta, p: Record)
    ensures forall k :: k in p && GetKey(m, k) == k ==> k in Normalize(m, p) && Normalize(m, p)[k] == GetValue(p[k])
  {
    forall k | k in p && GetKey(m, k) == k
      ensures k in Normalize(m, p) && Normalize(m, p)[k] == GetValue(p[k])
    {
      assert k in NormalKeys(m, p);
      assert Supplier(m, p, k) == k;
    }
  }

  /** Applying the none flag twice is the same as once: `count()`'s mutation changes no later query. */
  lemma FlaggedIdempotent(m: ModelMeta, p: Record)
    ensures Flagged(Flagged(p)) == Flagged(p)
    ensures Preprocess(m, Flagged(p)) == Preprocess(m, p)
  {
    if NoneFlag(p) && NoneFlag(Flagged(p)) {
      assert Flagged(Flagged(p)) == Flagged(p);
    }
  }

  // ---------------------------------------------------------------------
  // Parameter builders of exclude, order_by, select_related, last
  // ---------------------------------------------------------------------

  /** `exclude(**kwargs)`: at most one filter, prefixed with `exclude__`. */
  function ExcludeParams(kw: Record): (r: Result<Record>)
    ensures r.Err? <==> |kw| > 1
    ensures r.Err? ==> r.error == InvalidArgument
    ensures r.Ok? ==> r.value.Keys == (set k | k in kw :: ExcludeKey(k))
    ensures r.Ok? ==> forall k :: k in kw ==> r.value[ExcludeKey(k)] == kw[k]
  {
    if |kw| > 1 then Err(InvalidArgument)
    else Ok(map k | k in kw :: ExcludeKey(k) := kw[k])
  }

  /** `'exclude__%s' % k` */
  function ExcludeKey(k: string): (r: string)
    ensures StartsWith(r, "exclude__") && r[9..] == k
  {
    "exclude__" + k
  }

  /** An `exclude` filter never turns a query into the empty query. */
  lemma ExcludeKeepsNoneFlag(p: Record, kw: Record)
    requires |kw| <= 1
    ensures NoneFlag(p + ExcludeParams(kw).value) <==> NoneFlag(p)
  {
    var e := ExcludeParams(kw).value;
    var q := p + e;
    assert forall k :: k in e ==> StartsWith(k, "exclude__");
    if NoneFlag(q) {
      var k :| k in q && !StartsWith(k, "exclude__") && IsEmptyListOrTuple(q[k]);
      assert k in p && p[k] == q[k];
    }
    if NoneFlag(p) {
      var k :| k in p && !StartsWith(k, "exclude__") && IsEmptyListOrTuple(p[k]);
      assert k !in e;
      assert k in q && q[k] == p[k];
    }
  }

  /** `','.join(fields)`, the `ordering` parameter of `order_by`. */
  function OrderingValue(fields: seq<string>): (r: string)
    ensures |fields| >= 1 && (forall i :: 0 <= i < |fields| ==> ',' !in fields[i]) ==>
              Split(r, ',') == fields
  {
    if |fields| >= 1 && (forall i :: 0 <= i < |fields| ==> ',' !in fields[i]) then
      SplitJoin(fields, ',');
      Join(fields, ",")
    else
      Join(fields, ",")
  }

  /**
   `select_related(*fields)`: the new `select_related` value lists the
   fields already selected followed by the new ones; an existing value
   that is not a string cannot be split.
   */
  function SelectRelatedValue(p: Record, fields: seq<string>): (r: Result<string>)
    ensures r.Err? <==> "select_related" in p && !p["select_related"].VStr?
    ensures r.Ok? && (forall i :: 0 <= i < |fields| ==> ',' !in fields[i]) ==>
              if "select_related" in p then Split(r.value, ',') == Split(p["select_related"].s, ',') + fields
              else |fields| >= 1 ==> Split(r.value, ',') == fields
  {
    if "select_related" in p then
      match p["select_related"]
      case VStr(s) =>
        var all := Split(s, ',') + fields;
        assert forall i :: 0 <= i < |all| ==> (i < |Split(s, ',')| ==> all[i] == Split(s, ',')[i]);
        if forall i :: 0 <= i < |fields| ==> ',' !in fields[i] then
          SplitJoin(all, ',');
          Ok(Join(all, ","))
        else
          Ok(Join(all, ","))
      case _ => Err(TypeMismatch)
    else
      Ok(OrderingValue(fields))
  }

  /** `inverse(ordering_field)` of `last()`: toggles a leading `-`. */
  function InvertToken(t: string): (r: string)
    ensures (',' !in t) ==> (',' !in r)
  {
    if StartsWith(t, "-") then t[1..] else "-" + t
  }

  /** A field name carries at most one direction sign. */
  predicate OneSign(t: string) {
    !StartsWith(t, "--")
  }

  lemma InvertTokenInvolution(t: string)
    requires OneSign(t)
    ensures InvertToken(InvertToken(t)) == t
  {
    if StartsWith(t, "-") {
      assert t == "-" + t[1..];
      if |t| >= 2 {
        assert t[..2] == [t[0], t[1]];
      }
    } else {
      assert StartsWith("-" + t, "-");
      assert ("-" + t)[1..] == t;
    }
  }

  function InvertAll(ts: seq<string>): (r: seq<string>)
    ensures |r| == |ts|
    ensures forall i :: 0 <= i < |ts| ==> r[i] == InvertToken(ts[i])
  {
    if |ts| == 0 then [] else [InvertToken(ts[0])] + InvertAll(ts[1..])
  }

  /** The ordering `last()` sends: every comma-separated field with its direction flipped. */
  function InvertOrdering(s: string): (r: string)
    ensures Split(r, ',') == InvertAll(Split(s, ','))
  {
    var tokens := InvertAll(Split(s, ','));
    SplitJoin(tokens, ',');
    Join(tokens, ",")
  }

  /** Reversing an ordering twice gives it back. */
  lemma InvertOrderingInvolution(s: string)
    requires forall i :: 0 <= i < |Split(s, ',')| ==> OneSign(Split(s, ',')[i])
    ensures InvertOrdering(InvertOrdering(s)) == s
  {
    var ts := Split(s, ',');
    var once := InvertAll(ts);
    var twice := InvertAll(Split(InvertOrdering(s), ','));
    assert twice == InvertAll(once);
    forall i | 0 <= i < |ts|
      ensures twice[i] == ts[i]
    {
      InvertTokenInvolution(ts[i]);
    }
    assert twice == ts;
    JoinSplit(s, ',');
  }

  /**
   The ordering `last()` applies: the current `ordering`, or the primary
   key, reversed; a non-string ordering cannot be split.
   */
  function LastOrdering(m: ModelMeta, p: Record): (r: Result<string>)
    ensures r.Err? <==> "ordering" in p && !p["ordering"].VStr?
    ensures r.Ok? && "ordering" in p ==> Split(r.value, ',') == InvertAll(Split(p["ordering"].s, ','))
    ensures r.Ok? && "ordering" !in p && ',' !in PrimaryKey(m) && !StartsWith(PrimaryKey(m), "-") ==>
              r.value == "-" + PrimaryKey(m)
  {
    if "ordering" in p then
      match p["ordering"]
      case VStr(s) => Ok(InvertOrdering(s))
      case _ => Err(TypeMismatch)
    else
      var pk := PrimaryKey(m);
      if ',' !in pk then
        SplitNoSeparator(pk, ',');
        assert InvertAll([pk]) == [InvertToken(pk)];
        Ok(InvertOrdering(pk))
      else
        Ok(InvertOrdering(pk))
  }

  // ---------------------------------------------------------------------
  // Offsets and limits of `__getitem__` (LimitOffsetPagination)
  // ---------------------------------------------------------------------

  /** `params.get('offset', 0)`; a non-integer offset cannot be added to. */
  function OffsetOf(p: Record): (r: Result<int>)
    ensures "offset" !in p ==> r == Ok(0)
    ensures "offset" in p && p["offset"].VInt? ==> r == Ok(p["offset"].i)
    ensures r.Err? <==> "offset" in p && !p["offset"].VInt?
  {
    if "offset" !in p then Ok(0)
    else match p["offset"]
      case VInt(i) => Ok(i)
      case _ => Err(TypeMismatch)
  }

  /** `params.get('limit', None)`; a non-integer limit cannot be subtracted from. */
  function LimitOf(p: Record): (r: Result<Option<int>>)
    ensures ("limit" !in p || p["limit"] == VNone) ==> r == Ok(None)
    ensures "limit" in p && p["limit"].VInt? ==> r == Ok(Some(p["limit"].i))
    ensures r.Err? <==> "limit" in p && p["limit"] != VNone && !p["limit"].VInt?
  {
    if "limit" !in p then Ok(None)
    else match p["limit"]
      case VNone => Ok(None)
      case VInt(i) => Ok(Some(i))
      case _ => Err(TypeMismatch)
  }

  /**
   The parameters `self[start:stop]` adds: the offset moves by `start`
   (and is sent only when non-zero), and the limit becomes the smaller of
   the previous limit and `stop`, less `start`, when either is present.
   */
  function SliceEntries(p: Record, start: Option<int>, stop: Option<int>): Result<Record> {
    match OffsetOf(p)
    case Err(e) => Err(e)
    case Ok(o) =>
      match LimitOf(p)
      case Err(e) => Err(e)
      case Ok(l) =>
        var s := start.GetOr(0);
        var limit := MinIgnoringNones(l, stop);
        var offsets := if o + s != 0 then map["offset" := VInt(o + s)] else map[];
        Ok(if limit.Some? then offsets["limit" := VInt(limit.value - s)] else offsets)
  }

  /** The parameters `self[i]` adds: the offset moves by `i`, and one row is asked for. */
  function IndexEntries(p: Record, i: int): (r: Result<Record>)
    ensures r.Err? <==> OffsetOf(p).Err?
    ensures r.Ok? ==> "limit" in r.value && r.value["limit"] == VInt(1)
    ensures r.Ok? && OffsetOf(p).value >= 0 && i >= 0 ==> OffsetOf(p + r.value) == Ok(OffsetOf(p).value + i)
  {
    match OffsetOf(p)
    case Err(e) => Err(e)
    case Ok(o) =>
      var offsets := if o + i != 0 then map["offset" := VInt(o + i)] else map[];
      Ok(offsets["limit" := VInt(1)])
  }

  /** The rows a LimitOffsetPagination server lists for `offset` and `limit`. */
  function Window<T>(xs: seq<T>, offset: nat, limit: Option<nat>): seq<T> {
    var lo := Min(offset, |xs|);
    var hi := if limit.None? then |xs| else Min(offset + limit.value, |xs|);
    xs[lo..Max(lo, hi)]
  }

  /** Python's `xs[start:stop]` for a non-negative start and stop. */
  function PySlice<T>(xs: seq<T>, start: nat, stop: Option<nat>): seq<T> {
    var lo := Min(start, |xs|);
    var hi := if stop.None? then |xs| else Min(stop.value, |xs|);
    xs[lo..Max(lo, hi)]
  }

  /**
   Slicing a query composes its offset and limit: with a non-negative
   offset, limit, start and stop (start at most the new limit), `[start:stop]`
   moves the offset by `start` and limits the rows to the smaller of the
   old limit and `stop`, less `start`. `SliceWindow` shows that the server's
   window for these parameters is the Python slice of the old window.
   */
  lemma {:induction false} SliceComposes(p: Record, s: nat, e: Option<int>)
    requires OffsetOf(p).Ok? && OffsetOf(p).value >= 0
    requires LimitOf(p).Ok? && (LimitOf(p).value.Some? ==> LimitOf(p).value.value >= 0)
    requires e.Some? ==> e.value >= 0
    requires MinIgnoringNones(LimitOf(p).value, e).Some? ==> s <= MinIgnoringNones(LimitOf(p).value, e).value
    ensures SliceEntries(p, Some(s), e).Ok?
    ensures var q := p + SliceEntries(p, Some(s), e).value;
            var m := MinIgnoringNones(LimitOf(p).value, e);
            && OffsetOf(q) == Ok(OffsetOf(p).value + s)
            && LimitOf(q) == Ok(if m.Some? then Some(m.value - s) else None)
  {
    var o := OffsetOf(p).value;
    var l := LimitOf(p).value;
    var m := MinIgnoringNones(l, e);
    var entries := SliceEntries(p, Some(s), e).value;
    var q := p + entries;
    assert OffsetOf(q) == Ok(o + s) by {
      if o + s != 0 {
        assert "offset" in entries && entries["offset"] == VInt(o + s);
      } else {
        assert "offset" !in entries;
      }
    }
    assert LimitOf(q) == Ok(if m.Some? then Some(m.value - s) else None) by {
      if m.Some? {
        assert "limit" in entries && entries["limit"] == VInt(m.value - s);
      } else {
        assert "limit" !in entries;
      }
    }
  }

  /**
   Slicing a query is slicing its rows: the window at offset `o + s` with
   the composed limit of `SliceComposes` is the Python slice `[s:e]` of the
   window at offset `o` and limit `l`. Slicing `[10:20]` and then `[5:10]`
   thus lists rows 15 to 19.
   */
  lemma SliceWindow<T>(xs: seq<T>, o: nat, l: Option<int>, s: nat, e: Option<int>)
    requires l.Some? ==> l.value >= 0
    requires e.Some? ==> e.value >= 0
    requires MinIgnoringNones(l, e).Some? ==> s <= MinIgnoringNones(l, e).value
    ensures var m := MinIgnoringNones(l, e);
            Window(xs, o + s, if m.Some? then Some(m.value - s) else None)
            == PySlice(Window(xs, o, if l.Some? then Some(l.value) else None), s, if e.Some? then Some(e.value) else None)
  {
    var m := MinIgnoringNones(l, e);
    WindowOfWindow(xs, o, if l.Some? then Some(l.value) else None, s, if e.Some? then Some(e.value) else None,
                   if m.Some? then Some(m.value - s) else None);
  }

  /** The window arithmetic behind `SliceWindow`, on limits already known to be non-negative. */
  lemma WindowOfWindow<T>(xs: seq<T>, o: nat, l: Option<nat>, s: nat, e: Option<nat>, lim: Option<nat>)
    requires l.Some? ==> s <= l.value
    requires e.Some? ==> s <= e.value
    requires lim == var m := if l.None? then e else if e.None? then l else Some(Min(l.value, e.value));
                    if m.Some? then Some(m.value - s) else None
    ensures Window(xs, o + s, lim) == PySlice(Window(xs, o, l), s, e)
  {
    ShiftedWindow(xs, o, l, s, e, lim);
    SlicedWindow(xs, o, l, s, e);
  }

  /**
   Where the Python slice `[s:e]` of the window at `o`, `l` starts and ends
   in a sequence of length `n`.
   */
  function Inner(n: nat, o: nat, l: Option<nat>, s: nat, e: Option<nat>): (nat, nat) {
    var lo := Min(o, n);
    var hi := Max(lo, if l.None? then n else Min(o + l.value, n));
    var a := Min(s, hi - lo);
    var b := Max(a, if e.None? then hi - lo else Min(e.value, hi - lo));
    (lo + a, lo + b)
  }

  /** The window at the shifted offset and composed limit lies between the `Inner` bounds. */
  lemma ShiftedWindow<T>(xs: seq<T>, o: nat, l: Option<nat>, s: nat, e: Option<nat>, lim: Option<nat>)
    requires l.Some? ==> s <= l.value
    requires e.Some? ==> s <= e.value
    requires lim == var m := if l.None? then e else if e.None? then l else Some(Min(l.value, e.value));
                    if m.Some? then Some(m.value - s) else None
    ensures var (i, j) := Inner(|xs|, o, l, s, e);
            i <= j <= |xs| && Window(xs, o + s, lim) == xs[i..j]
  {
    WindowBounds(|xs|, o, l, s, e, lim);
    var (i, j) := Inner(|xs|, o, l, s, e);
    WindowAt(xs, o + s, lim, i, j);
  }

  /** The Python slice of the window lies between the `Inner` bounds. */
  lemma SlicedWindow<T>(xs: seq<T>, o: nat, l: Option<nat>, s: nat, e: Option<nat>)
    ensures var (i, j) := Inner(|xs|, o, l, s, e);
            i <= j <= |xs| && PySlice(Window(xs, o, l), s, e) == xs[i..j]
  {
    var n := |xs|;
    var lo := Min(o, n);
    var hi := Max(lo, if l.None? then n else Min(o + l.value, n));
    var a := Min(s, hi - lo);
    var b := Max(a, if e.None? then hi - lo else Min(e.value, hi - lo));
    WindowAt(xs, o, l, lo, hi);
    PySliceAt(xs[lo..hi], s, e, a, b);
    SubSlice(xs, lo, hi, a, b);
  }

  /** `Window` is the slice between the bounds it computes. */
  lemma WindowAt<T>(xs: seq<T>, offset: nat, limit: Option<nat>, i: nat, j: nat)
    requires i == Min(offset, |xs|)
    requires j == Max(i, if limit.None? then |xs| else Min(offset + limit.value, |xs|))
    ensures i <= j <= |xs| && Window(xs, offset, limit) == xs[i..j]
  {
  }

  /** `PySlice` is the slice between the bounds it computes. */
  lemma PySliceAt<T>(xs: seq<T>, start: nat, stop: Option<nat>, i: nat, j: nat)
    requires i == Min(start, |xs|)
    requires j == Max(i, if stop.None? then |xs| else Min(stop.value, |xs|))
    ensures i <= j <= |xs| && PySlice(xs, start, stop) == xs[i..j]
  {
  }

  /** Slicing a slice is slicing the original at the shifted bounds. */
  lemma SubSlice<T>(xs: seq<T>, lo: nat, hi: nat, a: nat, b: nat)
    requires lo <= hi <= |xs| && a <= b <= hi - lo
    ensures xs[lo..hi][a..b] == xs[lo + a..lo + b]
  {
    forall j | 0 <= j < b - a
      ensures xs[lo..hi][a..b][j] == xs[lo + a..lo + b][j]
    {
      assert xs[lo..hi][a..b][j] == xs[lo..hi][a + j] == xs[lo + a + j];
    }
  }

  /** The bounds arithmetic behind `WindowOfWindow`, over a sequence of length `n`. */
  lemma WindowBounds(n: nat, o: nat, l: Option<nat>, s: nat, e: Option<nat>, lim: Option<nat>)
    requires l.Some? ==> s <= l.value
    requires e.Some? ==> s <= e.value
    requires lim == var m := if l.None? then e else if e.None? then l else Some(Min(l.value, e.value));
                    if m.Some? then Some(m.value - s) else None
    ensures var lo := Min(o, n);
            var hi := Max(lo, if l.None? then n else Min(o + l.value, n));
            var a := Min(s, hi - lo);
            var b := Max(a, if e.None? then hi - lo else Min(e.value, hi - lo));
            Inner(n, o, l, s, e) == (lo + a, lo + b)
            && lo + a == Min(o + s, n) && lo + b == Max(lo + a, if lim.None? then n else Min(o + s + lim.value, n))
  {
  }

  /** Offset and limit compose as slices of slices do: `[10:20][5:10]` is offset 15, limit 5. */
  lemma SliceOfSlice()
    ensures var p := map["offset" := VInt(10), "limit" := VInt(10)];
            SliceEntries(p, Some(5), Some(10)) == Ok(map["offset" := VInt(15), "limit" := VInt(5)])
  {
  }

  // ---------------------------------------------------------------------
  // Result pages
  // ---------------------------------------------------------------------

  /** All rows of a sequence of result pages, in order. */
  function Flatten<T>(pages: seq<seq<T>>): seq<T> {
    if |pages| == 0 then [] else pages[0] + Flatten(pages[1..])
  }

  /** Reading two runs of pages one after the other reads their rows one after the other. */
  lemma {:induction false} FlattenAppend<T>(a: seq<seq<T>>, b: seq<seq<T>>)
    ensures Flatten(a + b) == Flatten(a) + Flatten(b)
    decreases |a|
  {
    if a != [] {
      assert (a + b)[1..] == a[1..] + b;
      FlattenAppend(a[1..], b);
    } else {
      assert a + b == b;
    }
  }

  /**
   How many pages the result generator has loaded once it has yielded `n`
   rows: it moves to the next page only when asked for a row beyond the
   ones loaded so far, and never past the last page.
   */
  function PagesFetched<T>(pages: seq<seq<T>>, n: nat): (k: nat)
    requires |pages| >= 1
    ensures 1 <= k <= |pages|
    ensures n <= |pages[0]| ==> k == 1
  {
    if |pages| == 1 || n <= |pages[0]| then 1
    else 1 + PagesFetched(pages[1..], n - |pages[0]|)
  }

  /** The first `k + 1` pages are the first page followed by the next `k`. */
  lemma FlattenFirst<T>(pages: seq<seq<T>>, k: nat)
    requires |pages| >= 1 && k < |pages|
    ensures Flatten(pages[..k + 1]) == pages[0] + Flatten(pages[1..][..k])
  {
    assert pages[..k + 1][1..] == pages[1..][..k];
  }

  /** The loaded pages hold the first `n` rows, when there are that many. */
  lemma {:induction false} PagesFetchedCover<T>(pages: seq<seq<T>>, n: nat)
    requires |pages| >= 1 && n <= |Flatten(pages)|
    ensures n <= |Flatten(pages[..PagesFetched(pages, n)])|
    ensures Flatten(pages)[..n] == Flatten(pages[..PagesFetched(pages, n)])[..n]
  {
    var k := PagesFetched(pages, n);
    if |pages| == 1 {
      assert pages[..1] == pages;
    } else if n <= |pages[0]| {
      assert pages[..1] == [pages[0]];
      assert Flatten(pages[..1]) == pages[0];
    } else {
      var rest := pages[1..];
      PagesFetchedCover(rest, n - |pages[0]|);
      FlattenFirst(pages, k - 1);
      assert Flatten(pages) == pages[0] + Flatten(rest);
    }
  }

  /** No page is loaded early: without the last loaded page fewer than `n` rows are at hand. */
  lemma {:induction false} PagesFetchedMinimal<T>(pages: seq<seq<T>>, n: nat)
    requires |pages| >= 1
    ensures PagesFetched(pages, n) > 1 ==> |Flatten(pages[..PagesFetched(pages, n) - 1])| < n
  {
    var k := PagesFetched(pages, n);
    if k > 1 {
      var rest := pages[1..];
      PagesFetchedMinimal(rest, n - |pages[0]|);
      if k - 1 > 1 {
        FlattenFirst(pages, k - 2);
      } else {
        assert pages[..1] == [pages[0]];
        assert Flatten(pages[..1]) == pages[0];
      }
    }
  }

  /** Asking for more rows never loads fewer pages. */
  lemma {:induction false} PagesFetchedMonotone<T>(pages: seq<seq<T>>, n: nat, n': nat)
    requires |pages| >= 1 && n <= n'
    ensures PagesFetched(pages, n) <= PagesFetched(pages, n')
  {
    if |pages| > 1 && n > |pages[0]| {
      PagesFetchedMonotone(pages[1..], n - |pages[0]|, n' - |pages[0]|);
    }
  }

  /** Pages loaded after `pulled` rows, or all of them once the generator is exhausted. */
  function PagesLoaded<T>(pages: seq<seq<T>>, pulled: nat, exhausted: bool): nat
    requires |pages| >= 1
  {
    if exhausted then |pages| else PagesFetched(pages, pulled)
  }

  // ---------------------------------------------------------------------
  // Fetching results (`_fetch_results`) and `get`
  // ---------------------------------------------------------------------

  /** The listing call for preprocessed parameters `q`. */
  function ListCall(m: ModelMeta, q: Record): Call {
    Call(ResourcesUrl(m), GET, Some(q), None)
  }

  /** `kwargs.get('__none__')` is true: the query is known to match nothing. */
  predicate KnownEmpty(q: Record) {
    "__none__" in q && Truthy(q["__none__"])
  }

  /** The pages a listing response leads to: its own results, then the pages after it. */
  function Pages(b: Body): (pages: seq<seq<Record>>)
    requires b.Listing?
    ensures |pages| == 1 + |b.more| && pages[0] == b.results
  {
    [b.results] + b.more
  }

  /**
   What `_fetch_results` yields, short of the `Indexable` it builds: nothing
   for a query known to be empty; an error; the first `limit` rows as a list
   together with the pages loaded to produce them; or all pages, to be read
   lazily.
   */
  datatype Fetch =
    | Empty
    | Failed(error: Error)
    | Limited(rows: seq<Record>, pagesLoaded: nat)
    | Unlimited(pages: seq<seq<Record>>)

  function FetchOutcome(q: Record, ans: Result<Body>): (f: Fetch)
    ensures f.Empty? <==> KnownEmpty(q)
    ensures !KnownEmpty(q) && ans.Err? ==> f == Failed(ans.error)
    ensures f.Unlimited? <==> !KnownEmpty(q) && "limit" !in q && ans.Ok? && ans.value.Listing?
    ensures f.Unlimited? ==> f.pages == Pages(ans.value)
    ensures f.Limited? ==> "limit" in q && q["limit"].VInt? && ans.Ok? && ans.value.Listing?
    ensures f.Limited? ==>
              var pages := Pages(ans.value);
              var n := q["limit"].i;
              && |f.rows| == Max(0, Min(n, |Flatten(pages)|))
              && f.rows == Flatten(pages)[..|f.rows|]
              && 1 <= f.pagesLoaded <= |pages|
              && (n <= |ans.value.results| ==> f.pagesLoaded == 1)
  {
    if KnownEmpty(q) then Empty
    else match ans
      case Err(e) => Failed(e)
      case Ok(body) =>
        if !body.Listing? then Failed(MalformedResponse)
        else
          var pages := Pages(body);
          var rows := Flatten(pages);
          if "limit" !in q then Unlimited(pages)
          else match q["limit"]
            case VInt(n) =>
              var pulled := if n <= 0 then 0 else Min(n, |rows|);
              Limited(rows[..pulled], PagesLoaded(pages, pulled, n > |rows|))
            case _ => Failed(TypeMismatch)
  }

  /** Every row a fetch stands for. */
  function RowsOf(f: Fetch): Result<seq<Record>> {
    match f
    case Empty => Ok([])
    case Failed(e) => Err(e)
    case Limited(rows, _) => Ok(rows)
    case Unlimited(pages) => Ok(Flatten(pages))
  }

  /** `results[0]`, with None for IndexError. */
  function FirstRow(f: Fetch): (r: Result<Option<Record>>)
    ensures r.Err? <==> RowsOf(f).Err?
    ensures r.Ok? ==> (r.value.Some? <==> |RowsOf(f).value| > 0)
    ensures r.Ok? && r.value.Some? ==> r.value.value == RowsOf(f).value[0]
  {
    match RowsOf(f)
    case Err(e) => Err(e)
    case Ok(rows) => Ok(if |rows| > 0 then Some(rows[0]) else None)
  }

  /** Where `rows[0:limit]` ends in rows of length `n`. */
  function SliceEnd(n: nat, limit: Option<int>): (end: nat)
    ensures end <= n
  {
    if limit.None? then n else Max(0, Min(limit.value, n))
  }

  /**
   `results[0:limit:step]` on the rows of a fetch, where `limit` is the
   limit `__getitem__` computed; a lazy result cannot be sliced to no end.
   */
  function SteppedRows(f: Fetch, limit: Option<int>, step: nat): (r: Result<seq<Record>>)
    requires step >= 1
    ensures RowsOf(f).Err? ==> r == Err(RowsOf(f).error)
    ensures f.Unlimited? && limit.None? ==> r == Err(TypeMismatch)
    ensures RowsOf(f).Ok? && !(f.Unlimited? && limit.None?) ==> r.Ok?
    ensures r.Ok? ==>
              var rows := RowsOf(f).value;
              var end := SliceEnd(|rows|, limit);
              && |r.value| <= |rows|
              && (end == 0 ==> r.value == [])
              && (end > 0 ==> (|r.value| - 1) * step < end <= |r.value| * step)
              && forall i :: 0 <= i < |r.value| ==> i * step < end && r.value[i] == rows[i * step]
  {
    match f
    case Empty => Ok([])
    case Failed(e) => Err(e)
    case Limited(rows, _) =>
      var end := SliceEnd(|rows|, limit);
      StepSliceLength(rows, 0, end, step);
      StepSliceAt(rows, 0, end, step);
      Ok(StepSlice(rows, 0, end, step))
    case Unlimited(pages) =>
      var rows := Flatten(pages);
      if limit.None? then Err(TypeMismatch)
      else if limit.value <= 0 then Ok([])
      else
        StepSliceLength(rows, 0, Min(limit.value, |rows|), step);
        StepSliceAt(rows, 0, Min(limit.value, |rows|), step);
        Ok(StepSlice(rows, 0, Min(limit.value, |rows|), step))
  }

  /** A stepped slice never has more elements than the range it is taken from. */
  lemma {:induction false} StepSliceLength<T>(s: seq<T>, start: nat, end: nat, step: nat)
    requires end <= |s| && step >= 1
    ensures |StepSlice(s, start, end, step)| <= if start < end then end - start else 0
    decreases end - start
  {
    if start < end {
      StepSliceLength(s, start + step, end, step);
    }
  }

  /** Where `get` sends its request: the item URL for a bare primary key, else the listing. */
  datatype Route = Direct(pk: Value, rest: Record) | Search(params: Record)

  function GetRoute(m: ModelMeta, q: Record): (r: Route)
    ensures r.Direct? <==> q.Keys - {"select_related"} == {PrimaryKey(m)}
    ensures r.Direct? ==> PrimaryKey(m) in q && r.pk == q[PrimaryKey(m)] && r.rest.Keys <= {"select_related"}
    ensures r.Search? ==> r.params.Keys == q.Keys + {"limit"} && r.params["limit"] == VInt(1)
  {
    var pk := PrimaryKey(m);
    if q.Keys - {"select_related"} == {pk} then Direct(q[pk], q - {pk})
    else Search(q["limit" := VInt(1)])
  }

  function GetCall(m: ModelMeta, r: Route): (c: Call)
    ensures c.verb == GET && c.data.None?
    ensures r.Direct? ==> c.url == ResourceUrl(m, r.pk) && (c.params.None? <==> r.rest == map[])
    ensures r.Search? ==> c == ListCall(m, r.params)
  {
    match r
    case Direct(pk, rest) => Call(ResourceUrl(m, pk), GET, if rest == map[] then None else Some(rest), None)
    case Search(params) => ListCall(m, params)
  }

  /** The record `get` returns, or the error it raises, given the server's answer. */
  function GetOutcome(m: ModelMeta, r: Route, ans: Result<Body>): (res: Result<Record>)
    ensures ans.Err? ==> res == Err(ans.error)
    ensures r.Direct? && ans.Ok? ==> (res.Ok? <==> ans.value.Single?)
    ensures r.Direct? && ans.Ok? && res.Ok? ==> res.value == ans.value.record
    ensures r.Search? && ans.Ok? && ans.value.Listing? ==>
              && (res == Err(DoesNotExist(m.name)) <==> ans.value.count == 0)
              && (res == Err(MultipleObjectsReturned(ans.value.count)) <==> ans.value.count >= 2)
              && (res.Ok? <==> ans.value.count != 0 && ans.value.count < 2 && |ans.value.results| > 0)
              && (res.Ok? ==> res.value == ans.value.results[0])
  {
    match ans
    case Err(e) => Err(e)
    case Ok(body) =>
      match r
      case Direct(_, _) => if body.Single? then Ok(body.record) else Err(MalformedResponse)
      case Search(_) =>
        if !body.Listing? then Err(MalformedResponse)
        else if body.count == 0 then Err(DoesNotExist(m.name))
        else if body.count >= 2 then Err(MultipleObjectsReturned(body.count))
        else if |body.results| == 0 then Err(IndexOutOfRange)
        else Ok(body.results[0])
  }

  /**
   `get(pk=v)`, optionally with `select_related`, asks for the item URL of
   `v` (of its primary key when `v` is a model instance) and sends no query
   parameters beyond `select_related`.
   */
  lemma GetByPrimaryKey(m: ModelMeta, v: Value, related: Option<Value>)
    requires !IsEmptyListOrTuple(v)
    requires related.Some? ==> !IsEmptyListOrTuple(related.value)
    requires PrimaryKey(m) != "select_related"
    ensures var p := map["pk" := v] + (if related.Some? then map["select_related" := related.value] else map[]);
            var r := GetRoute(m, Preprocess(m, p));
            && r == Direct(GetValue(v), if related.Some? then map["select_related" := GetValue(related.value)] else map[])
            && GetCall(m, r).url == ResourceUrl(m, GetValue(v))
            && (related.None? ==> GetCall(m, r).params.None?)
  {
    var p := map["pk" := v] + (if related.Some? then map["select_related" := related.value] else map[]);
    var pk := PrimaryKey(m);
    assert !NoneFlag(p);
    assert GetKey(m, "select_related") == "select_related" by {
      assert "select_related"[10..] != "__pk";
    }
    assert GetKey(m, "pk") == pk;
    assert p.Keys == {"pk"} + (if related.Some? then {"select_related"} else {});
    assert NormalKeys(m, p) == {pk} + (if related.Some? then {"select_related"} else {});
    var q := Preprocess(m, p);
    assert Supplier(m, p, pk) == "pk";
    assert q[pk] == GetValue(v);
  }

  // ---------------------------------------------------------------------
  // The query builder
  // ---------------------------------------------------------------------

  /** `_prefetch_related`: one list object, shared by a builder and every copy made from it. */
  class PrefetchList {
    var names: seq<string>

    constructor ()
      ensures names == []
    {
      names := [];
    }
  }

  /**
   `_cached_results`: a plain list (a limit was given, or the query is known
   to be empty) with the number of pages loaded for it, or the `Indexable`
   over the rows of all pages, read lazily.
   */
  datatype Materialized =
    | Listed(items: seq<Record>, pagesLoaded: nat)
    | Lazy(indexable: Indexable<Record>, pages: seq<seq<Record>>)

  function Footprint(r: Materialized): set<object> {
    if r.Lazy? then {r.indexable} else {}
  }

  ghost predicate MaterializedValid(r: Materialized)
    reads Footprint(r)
  {
    r.Lazy? ==> |r.pages| >= 1 && r.indexable.source == Flatten(r.pages) && r.indexable.Valid()
  }

  /** Every row the results stand for, whether read yet or not. */
  function AllRows(r: Materialized): seq<Record> {
    if r.Listed? then r.items else r.indexable.source
  }

  /** The results stand for the fetch `f` (the lazy ones not yet read). */
  predicate Matches(r: Materialized, f: Fetch)
    requires !f.Failed?
  {
    match f
    case Empty => r == Listed([], 0)
    case Limited(rows, k) => r == Listed(rows, k)
    case Unlimited(pages) => r.Lazy? && r.pages == pages && r.indexable.source == Flatten(pages)
  }

  /** Results that stand for a fetch hold exactly the fetch's rows. */
  lemma MatchesRows(r: Materialized, f: Fetch)
    requires !f.Failed? && Matches(r, f)
    ensures RowsOf(f) == Ok(AllRows(r))
  {
  }

  /** The client's state after the listing request for `q`, which a query known to be empty never makes. */
  twostate predicate Requested(c: Client, m: ModelMeta, q: Record)
    reads c
  {
    if KnownEmpty(q) then c.log == old(c.log) && c.requestCache == old(c.requestCache)
    else c.log == old(c.LogAfter(ListCall(m, q))) && c.requestCache == old(c.CacheAfter(m.name, ListCall(m, q)))
  }

  /** `_fetch_results(**kwargs)` produced `r` and made the request it needed. */
  twostate predicate Fetched(c: Client, m: ModelMeta, kwargs: Record, new r: Result<Materialized>)
    reads c, if r.Ok? then Footprint(r.value) else {}
  {
    var q := Preprocess(m, kwargs);
    var f := FetchOutcome(q, old(c.Answer(m.name, ListCall(m, q))));
    && Requested(c, m, q)
    && (if f.Failed? then r == Err(f.error) else r.Ok? && Matches(r.value, f))
    && (r.Ok? && r.value.Lazy? ==>
          fresh(r.value.indexable) && r.value.indexable.cache == [] && !r.value.indexable.exhausted)
  }

  /**
   Stepping through the results of the query `kwargs` up to `limit` produced
   `r` and made the request the query needed.
   */
  twostate predicate SteppedFetched(c: Client, m: ModelMeta, kwargs: Record, limit: Option<int>, step: nat, new r: Result<seq<Record>>)
    requires step >= 1
    reads c
  {
    var q := Preprocess(m, kwargs);
    && Requested(c, m, q)
    && r == SteppedRows(FetchOutcome(q, old(c.Answer(m.name, ListCall(m, q)))), limit, step)
  }

  /** The query `self[i]` sends for a builder of model `m` with parameters `p`, unless the offset cannot be computed. */
  function IndexQuery(m: ModelMeta, p: Record, i: int): Option<Record> {
    match IndexEntries(p, i)
    case Err(_) => None
    case Ok(entries) => Some(Preprocess(m, p + entries))
  }

  /** What `self[i]` returns for a builder of model `m` with parameters `p`. */
  function IndexAnswer(m: ModelMeta, c: Client, p: Record, i: int): Result<Option<Record>>
    reads c
  {
    match IndexEntries(p, i)
    case Err(e) => Err(e)
    case Ok(entries) =>
      var q := Preprocess(m, p + entries);
      FirstRow(FetchOutcome(q, c.Answer(m.name, ListCall(m, q))))
  }

  /** The client's state after `self[i]` on a builder of model `m` with parameters `p`. */
  twostate predicate IndexRequested(m: ModelMeta, c: Client, p: Record, i: int)
    reads c
  {
    match IndexQuery(m, p, i)
    case None => c.log == old(c.log) && c.requestCache == old(c.requestCache)
    case Some(q) => Requested(c, m, q)
  }

  /** `PartiallyFiltered`: the model it queries, its filter parameters, and its results once fetched. */
  class Builder {
    const meta: ModelMeta
    var params: Record
    const prefetch: PrefetchList
    var cached: Option<Materialized>
    /** `_prefetch_results`: the batched query of each prefetched reverse field, set by reverse references. */
    var prefetchResults: map<string, Builder>

    ghost function Heap(): set<object>
      reads this
    {
      if cached.Some? then Footprint(cached.value) else {}
    }

    ghost predicate Valid()
      reads this, Heap()
    {
      cached.Some? ==> MaterializedValid(cached.value)
    }

    /** `PartiallyFiltered(model, **params)` */
    constructor (meta: ModelMeta, params: Record)
      ensures this.meta == meta && this.params == params
      ensures fresh(prefetch) && prefetch.names == []
      ensures cached.None? && prefetchResults == map[] && Valid()
    {
      this.meta := meta;
      this.params := params;
      prefetch := new PrefetchList();
      cached := None;
      prefetchResults := map[];
    }

    /** The builder `_copy` creates: the same model and prefetch list, the given parameters. */
    constructor Derived(meta: ModelMeta, params: Record, prefetch: PrefetchList)
      ensures this.meta == meta && this.params == params && this.prefetch == prefetch
      ensures cached.None? && prefetchResults == map[] && Valid()
    {
      this.meta := meta;
      this.params := params;
      this.prefetch := prefetch;
      cached := None;
      prefetchResults := map[];
    }

    /** `b` is an unfetched copy of this builder with parameters `p`. */
    ghost predicate CopyWith(b: Builder, p: Record)
      reads this, b
    {
      && b.meta == meta && b.params == p && b.prefetch == prefetch
      && b.cached.None? && b.prefetchResults == map[] && b.Valid()
    }

    /** `_copy()` */
    method Copy() returns (b: Builder)
      ensures fresh(b) && CopyWith(b, params)
    {
      b := new Builder.Derived(meta, params, prefetch);
    }

    /** `filter(**kwargs)`: later filters override earlier ones with the same key. */
    method Filter(kwargs: Record) returns (b: Builder)
      ensures fresh(b) && CopyWith(b, params + kwargs)
    {
      b := new Builder.Derived(meta, params + kwargs, prefetch);
    }

    /** `exclude(**kwargs)` */
    method Exclude(kwargs: Record) returns (r: Result<Builder>)
      ensures r.Err? <==> |kwargs| > 1
      ensures r.Err? ==> r.error == InvalidArgument
      ensures r.Ok? ==> fresh(r.value) && CopyWith(r.value, params + ExcludeParams(kwargs).value)
    {
      var e := ExcludeParams(kwargs);
      if e.Err? {
        return Err(e.error);
      }
      var b := Filter(e.value);
      r := Ok(b);
    }

    /** `none()` */
    method NoneQuery() returns (b: Builder)
      ensures fresh(b) && CopyWith(b, params["__none__" := VBool(true)])
    {
      b := new Builder.Derived(meta, params["__none__" := VBool(true)], prefetch);
    }

    /** `order_by(*fields)` */
    method OrderBy(fields: seq<string>) returns (b: Builder)
      ensures fresh(b) && CopyWith(b, params["ordering" := VStr(OrderingValue(fields))])
    {
      b := new Builder.Derived(meta, params["ordering" := VStr(OrderingValue(fields))], prefetch);
    }

    /** `select_related(*fields)` */
    method SelectRelated(fields: seq<string>) returns (r: Result<Builder>)
      ensures r.Err? <==> SelectRelatedValue(params, fields).Err?
      ensures r.Err? ==> r.error == TypeMismatch
      ensures r.Ok? ==>
                fresh(r.value) &&
                CopyWith(r.value, params["select_related" := VStr(SelectRelatedValue(params, fields).value)])
    {
      var v := SelectRelatedValue(params, fields);
      if v.Err? {
        return Err(v.error);
      }
      var b := new Builder.Derived(meta, params["select_related" := VStr(v.value)], prefetch);
      r := Ok(b);
    }

    /** `prefetch_related(*fields)`: extends the list this builder shares with its copies. */
    method PrefetchRelated(fields: seq<string>) returns (b: Builder)
      modifies prefetch
      ensures prefetch.names == old(prefetch.names) + fields
      ensures fresh(b) && CopyWith(b, params)
    {
      b := new Builder.Derived(meta, params, prefetch);
      prefetch.names := prefetch.names + fields;
    }

    /** `_fetch_results(**kwargs)` */
    method FetchResults(c: Client, kwargs: Record) returns (r: Result<Materialized>)
      modifies c
      ensures Fetched(c, meta, kwargs, r)
      ensures r.Ok? ==> MaterializedValid(r.value) && fresh(Footprint(r.value))
    {
      var q := Preprocess(meta, kwargs);
      if KnownEmpty(q) {
        return Ok(Listed([], 0));
      }
      var call := ListCall(meta, q);
      ghost var f := FetchOutcome(q, c.Answer(meta.name, call));
      var ans := c.RestCall(meta.name, call);
      if ans.Err? {
        return Err(ans.error);
      }
      if !ans.value.Listing? {
        return Err(MalformedResponse);
      }
      var pages := Pages(ans.value);
      var indexable := new Indexable(Flatten(pages));
      if "limit" !in q {
        return Ok(Lazy(indexable, pages));
      }
      match q["limit"]
      case VInt(n) =>
        var items: seq<Record> := [];
        if n > 0 {
          items := indexable.GetSlice(0, n, 1);
          StepSliceUnit(indexable.source, 0, Min(n, |indexable.source|));
        }
        r := Ok(Listed(items, PagesLoaded(pages, |indexable.cache|, indexable.exhausted)));
      case _ =>
        r := Err(TypeMismatch);
    }

    /** `_results()`: the results are fetched once and then reused. */
    method Results(c: Client) returns (r: Result<Materialized>)
      requires Valid()
      modifies this, c
      ensures Valid() && params == old(params) && prefetchResults == old(prefetchResults)
      ensures old(cached).Some? ==> r == Ok(old(cached).value) && cached == old(cached) && unchanged(c)
      ensures old(cached).None? ==> Fetched(c, meta, params, r) && cached == (if r.Ok? then Some(r.value) else None)
      ensures r.Ok? ==> cached == Some(r.value)
    {
      if cached.Some? {
        return Ok(cached.value);
      }
      r := FetchResults(c, params);
      if r.Ok? {
        cached := Some(r.value);
      }
    }
  
    /** `list(self)`: every row, reading a lazy result to its end. */
    method ToList(c: Client) returns (r: Result<seq<Record>>)
      requires Valid()
      modifies this, c, Heap()
      ensures Valid() && params == old(params) && prefetchResults == old(prefetchResults)
      ensures r.Ok? <==> cached.Some?
      ensures r.Ok? ==> r.value == AllRows(cached.value)
      ensures r.Ok? && cached.value.Lazy? ==> cached.value.indexable.exhausted
      ensures old(cached).Some? ==> cached == old(cached) && unchanged(c)
      ensures old(cached).None? ==>
                var q := Preprocess(meta, params);
                Requested(c, meta, q) && r == RowsOf(FetchOutcome(q, old(c.Answer(meta.name, ListCall(meta, q)))))
    {
      var m := Results(c);
      if m.Err? {
        return Err(m.error);
      }
      var rows := CachedRows();
      r := Ok(rows);
    }

    /** Iterating over results already fetched: every row, reading a lazy result to its end. */
    method CachedRows() returns (rows: seq<Record>)
      requires Valid() && cached.Some?
      modifies Heap()
      ensures Valid() && rows == AllRows(cached.value)
      ensures cached.value.Lazy? ==> cached.value.indexable.exhausted
    {
      match cached.value
      case Listed(items, _) =>
        rows := items;
      case Lazy(indexable, _) =>
        indexable.Pull(|indexable.source| - |indexable.cache| + 1);
        rows := indexable.cache;
    }

    /** `bool(results)` on results already fetched: a list is true when not empty; a lazy result reads its first row. */
    method CachedNonZero() returns (b: bool)
      requires Valid() && cached.Some?
      modifies Heap()
      ensures Valid() && b == (|AllRows(cached.value)| > 0)
      ensures cached.value.Lazy? ==>
                |cached.value.indexable.cache| == Max(old(|cached.value.indexable.cache|), Min(1, |cached.value.indexable.source|))
    {
      match cached.value
      case Listed(items, _) =>
        b := |items| > 0;
      case Lazy(indexable, _) =>
        b := indexable.NonZero(row => false);
    }

    /** `len(self)`: the number of rows, fetched on the first use only. */
    method Len(c: Client) returns (r: Result<nat>)
      requires Valid()
      modifies this, c, Heap()
      ensures Valid() && params == old(params) && prefetchResults == old(prefetchResults)
      ensures r.Ok? <==> cached.Some?
      ensures r.Ok? ==> r.value == |AllRows(cached.value)|
      ensures old(cached).Some? ==> cached == old(cached) && unchanged(c)
      ensures old(cached).None? ==>
                var q := Preprocess(meta, params);
                var rows := RowsOf(FetchOutcome(q, old(c.Answer(meta.name, ListCall(meta, q)))));
                && Requested(c, meta, q)
                && r == if rows.Ok? then Ok(|rows.value|) else Err(rows.error)
    {
      var rows := ToList(c);
      if rows.Err? {
        return Err(rows.error);
      }
      r := Ok(|rows.value|);
    }

    /** `bool(self)`: whether a first row exists; only that row is read, and only the first use fetches. */
    method NonZero(c: Client) returns (r: Result<bool>)
      requires Valid()
      modifies this, c, Heap()
      ensures Valid() && params == old(params) && prefetchResults == old(prefetchResults)
      ensures r.Ok? <==> cached.Some?
      ensures r.Ok? ==> r.value == (|AllRows(cached.value)| > 0)
      ensures r.Ok? && old(cached).None? && cached.value.Lazy? ==> |cached.value.indexable.cache| <= 1
      ensures old(cached).Some? ==> cached == old(cached) && unchanged(c)
      ensures old(cached).None? ==> fresh(Heap())
      ensures old(cached).None? ==>
                var q := Preprocess(meta, params);
                var rows := RowsOf(FetchOutcome(q, old(c.Answer(meta.name, ListCall(meta, q)))));
                && Requested(c, meta, q)
                && r == if rows.Ok? then Ok(|rows.value| > 0) else Err(rows.error)
    {
      var m := Results(c);
      if m.Err? {
        return Err(m.error);
      }
      var b := CachedNonZero();
      r := Ok(b);
    }

    /** `self[i]`: one row at offset `i` past the current offset, or None when there is none. */
    method GetItemIndex(c: Client, i: int) returns (r: Result<Option<Record>>)
      modifies c
      ensures r == old(IndexAnswer(meta, c, params, i))
      ensures IndexRequested(meta, c, params, i)
    {
      var entries := IndexEntries(params, i);
      if entries.Err? {
        return Err(entries.error);
      }
      var m := FilteredResults(c, entries.value);
      if m.Err? {
        return Err(m.error);
      }
      match m.value
      case Listed(items, _) =>
        r := Ok(if |items| > 0 then Some(items[0]) else None);
      case Lazy(indexable, _) =>
        var first := indexable.GetItem(0);
        r := Ok(first);
    }

    /** `self.filter(**kwargs)._results()`: the results of a fresh, narrower query. */
    method FilteredResults(c: Client, kwargs: Record) returns (r: Result<Materialized>)
      modifies c
      ensures Fetched(c, meta, params + kwargs, r)
      ensures r.Ok? ==> MaterializedValid(r.value) && fresh(Footprint(r.value))
    {
      var b := Filter(kwargs);
      r := b.Results(c);
    }

    /** `self[start:stop:step]`: a narrower query, or for a step above one the rows themselves. */
    method GetItemSlice(c: Client, start: Option<int>, stop: Option<int>, step: Option<int>) returns (r: Result<Sliced>)
      modifies c
      ensures SliceEntries(params, start, stop).Err? ==>
                r == Err(SliceEntries(params, start, stop).error) && unchanged(c)
      ensures SliceEntries(params, start, stop).Ok? && !(step.Some? && step.value > 1) ==>
                && r.Ok? && r.value.Narrowed? && unchanged(c)
                && fresh(r.value.query) && CopyWith(r.value.query, params + SliceEntries(params, start, stop).value)
      ensures SliceEntries(params, start, stop).Ok? && step.Some? && step.value > 1 ==>
                && (r.Err? || r.value.Stepped?)
                && SteppedFetched(c, meta, params + SliceEntries(params, start, stop).value,
                                  SliceLimit(params, start, stop), step.value,
                                  if r.Ok? then Ok(r.value.rows) else Err(r.error))
    {
      var entries := SliceEntries(params, start, stop);
      if entries.Err? {
        return Err(entries.error);
      }
      if !(step.Some? && step.value > 1) {
        var b := Filter(entries.value);
        return Ok(Narrowed(b));
      }
      var rows := FilteredSteppedRows(c, entries.value, SliceLimit(params, start, stop), step.value);
      r := if rows.Ok? then Ok(Stepped(rows.value)) else Err(rows.error);
    }

    /** `self.filter(**kwargs)._results()[0:limit:step]` */
    method FilteredSteppedRows(c: Client, kwargs: Record, limit: Option<int>, step: nat) returns (r: Result<seq<Record>>)
      requires step >= 1
      modifies c
      ensures SteppedFetched(c, meta, params + kwargs, limit, step, r)
    {
      ghost var q := Preprocess(meta, params + kwargs);
      ghost var f := FetchOutcome(q, c.Answer(meta.name, ListCall(meta, q)));
      var m := FilteredResults(c, kwargs);
      if m.Err? {
        return Err(m.error);
      }
      r := StepResults(m.value, f, limit, step);
    }

    /** `first()`: `filter(limit=1)[0]`. */
    method First(c: Client) returns (r: Result<Option<Record>>)
      modifies c
      ensures r == old(IndexAnswer(meta, c, params["limit" := VInt(1)], 0))
      ensures IndexRequested(meta, c, params["limit" := VInt(1)], 0)
    {
      var b := Filter(map["limit" := VInt(1)]);
      assert b.params == params["limit" := VInt(1)];
      r := b.GetItemIndex(c, 0);
    }

    /** `last()`: `first()` under the reversed ordering (the primary key's when none is set). */
    method Last(c: Client) returns (r: Result<Option<Record>>)
      modifies c
      ensures LastOrdering(meta, params).Err? ==> r == Err(TypeMismatch) && unchanged(c)
      ensures LastOrdering(meta, params).Ok? ==>
                var p := params["ordering" := VStr(LastOrdering(meta, params).value)]["limit" := VInt(1)];
                r == old(IndexAnswer(meta, c, p, 0)) && IndexRequested(meta, c, p, 0)
    {
      var ordering := LastOrdering(meta, params);
      if ordering.Err? {
        return Err(ordering.error);
      }
      var b := Filter(map["ordering" := VStr(ordering.value)]);
      assert b.params == params["ordering" := VStr(ordering.value)];
      r := b.First(c);
    }

    /** `exists()`: whether `first()` of `filter(limit=1)` finds a row. */
    method Exists(c: Client) returns (r: Result<bool>)
      modifies c
      ensures var a := old(IndexAnswer(meta, c, params["limit" := VInt(1)], 0));
              r == if a.Ok? then Ok(a.value.Some?) else Err(a.error)
      ensures IndexRequested(meta, c, params["limit" := VInt(1)], 0)
    {
      var b := Filter(map["limit" := VInt(1)]);
      assert b.params["limit" := VInt(1)] == params["limit" := VInt(1)];
      var first := b.First(c);
      if first.Err? {
        return Err(first.error);
      }
      r := Ok(first.value.Some?);
    }

    /** `earliest(field_name)`: `first()` ordered by the field or `get_latest_by`; no row is DoesNotExist. */
    method Earliest(c: Client, field: Option<string>) returns (r: Result<Record>)
      modifies c
      ensures LatestBy(meta, field).Err? ==> r == Err(LatestBy(meta, field).error) && unchanged(c)
      ensures LatestBy(meta, field).Ok? ==>
                var p := params["ordering" := VStr(LatestBy(meta, field).value)]["limit" := VInt(1)];
                r == Found(meta, old(IndexAnswer(meta, c, p, 0))) && IndexRequested(meta, c, p, 0)
    {
      var ordering := LatestBy(meta, field);
      if ordering.Err? {
        return Err(ordering.error);
      }
      var b := Filter(map["ordering" := VStr(ordering.value)]);
      assert b.params == params["ordering" := VStr(ordering.value)];
      var first := b.First(c);
      r := Found(meta, first);
    }

    /** `latest(field_name)`: `last()` ordered by the field or `get_latest_by`; no row is DoesNotExist. */
    method Latest(c: Client, field: Option<string>) returns (r: Result<Record>)
      modifies c
      ensures LatestBy(meta, field).Err? ==> r == Err(LatestBy(meta, field).error) && unchanged(c)
      ensures LatestBy(meta, field).Ok? ==>
                var ordering := InvertOrdering(LatestBy(meta, field).value);
                var p := params["ordering" := VStr(ordering)]["limit" := VInt(1)];
                r == Found(meta, old(IndexAnswer(meta, c, p, 0))) && IndexRequested(meta, c, p, 0)
    {
      var ordering := LatestBy(meta, field);
      if ordering.Err? {
        return Err(ordering.error);
      }
      var b := Filter(map["ordering" := VStr(ordering.value)]);
      assert LastOrdering(meta, b.params) == Ok(InvertOrdering(ordering.value));
      assert b.params["ordering" := VStr(InvertOrdering(ordering.value))] ==
             params["ordering" := VStr(InvertOrdering(ordering.value))];
      var last := b.Last(c);
      r := Found(meta, last);
    }

    /** `get(**kwargs)`: exactly one matching row, by item URL or by a one-row listing. */
    method Get(c: Client, kwargs: Record) returns (r: Result<Record>)
      modifies c
      ensures var route := GetRoute(meta, Preprocess(meta, params + kwargs));
              var call := GetCall(meta, route);
              && r == GetOutcome(meta, route, old(c.Answer(meta.name, call)))
              && c.log == old(c.LogAfter(call)) && c.requestCache == old(c.CacheAfter(meta.name, call))
    {
      var route := GetRoute(meta, Preprocess(meta, params + kwargs));
      var ans := c.RestCall(meta.name, GetCall(meta, route));
      r := GetOutcome(meta, route, ans);
    }

    /**
     `count()`: the `count` of a one-row listing. The none flag is written
     into this builder's own parameters, and a query known to be empty is
     still sent.
     */
    method Count(c: Client) returns (r: Result<int>)
      modifies this, c
      ensures params == Flagged(old(params))
      ensures cached == old(cached) && prefetchResults == old(prefetchResults)
      ensures var call := ListCall(meta, Preprocess(meta, old(params))["limit" := VInt(1)]);
              var ans := old(c.Answer(meta.name, call));
              && r == (if ans.Err? then Err(ans.error)
                       else if ans.value.Listing? then Ok(ans.value.count) else Err(MalformedResponse))
              && c.log == old(c.LogAfter(call)) && c.requestCache == old(c.CacheAfter(meta.name, call))
    {
      var q := Preprocess(meta, params);
      params := Flagged(params);
      var ans := c.RestCall(meta.name, ListCall(meta, q["limit" := VInt(1)]));
      if ans.Err? {
        return Err(ans.error);
      }
      r := if ans.value.Listing? then Ok(ans.value.count) else Err(MalformedResponse);
    }
  }

  /** What slicing a builder returns. */
  datatype Sliced = Narrowed(query: Builder) | Stepped(rows: seq<Record>)

  /**
   `results.__getitem__(slice(0, limit, step))` on fetched results `m`: a
   list is sliced as Python slices lists, a lazy result is read up to
   `limit` rows, and a lazy result cannot be sliced without a limit.
   */
  method StepResults(m: Materialized, ghost f: Fetch, limit: Option<int>, step: nat) returns (r: Result<seq<Record>>)
    requires step >= 1 && !f.Failed? && Matches(m, f) && MaterializedValid(m)
    modifies Footprint(m)
    ensures r == SteppedRows(f, limit, step)
  {
    match m
    case Listed(items, _) =>
      r := Ok(StepSlice(items, 0, SliceEnd(|items|, limit), step));
    case Lazy(indexable, _) =>
      if limit.None? {
        r := Err(TypeMismatch);
      } else if limit.value <= 0 {
        r := Ok([]);
      } else {
        var rows := indexable.GetSlice(0, limit.value, step);
        r := Ok(rows);
      }
  }

  /** The `limit` local of `__getitem__` for a slice: the smaller limit less the start, if any. */
  function SliceLimit(p: Record, start: Option<int>, stop: Option<int>): Option<int>
    requires SliceEntries(p, start, stop).Ok?
  {
    var limit := MinIgnoringNones(LimitOf(p).value, stop);
    if limit.Some? then Some(limit.value - start.GetOr(0)) else None
  }

  /** `field_name or Meta.get_latest_by`; a model without `get_latest_by` raises AttributeError. */
  function LatestBy(m: ModelMeta, field: Option<string>): (r: Result<string>)
    ensures field.Some? && field.value != "" ==> r == Ok(field.value)
    ensures r.Err? <==> (field.None? || field.value == "") && m.getLatestBy.None?
  {
    if field.Some? && field.value != "" then Ok(field.value)
    else if m.getLatestBy.Some? then Ok(m.getLatestBy.value)
    else Err(MissingKey("get_latest_by"))
  }

  /** The instance `earliest`/`latest` return: a missing one is the model's DoesNotExist. */
  function Found(m: ModelMeta, r: Result<Option<Record>>): (res: Result<Record>)
    ensures r.Ok? && r.value.None? <==> res == Err(DoesNotExist(m.name)) && !(r.Err? && r.error == DoesNotExist(m.name))
    ensures r.Ok? && r.value.Some? <==> res.Ok?
    ensures res.Ok? ==> res.value == r.value.value
  {
    match r
    case Err(e) => Err(e)
    case Ok(None) => Err(DoesNotExist(m.name))
    case Ok(Some(row)) => Ok(row)
  }
}
