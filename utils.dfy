/**
 restframeworkclient/utils.py: the memoising wrapper around a one-way
 iterator (`Indexable`), `min_ignoring_nones`, and the parameter merge of
 `extend_url_query_string`.
 */
module Utils {
  import opened Base

  function Min(a: int, b: int): int { if a <= b then a else b }
  function Max(a: int, b: int): int { if a <= b then b else a }

  /** `min_ignoring_nones(a, b)`: the least of the values that are present. */
  function MinIgnoringNones(a: Option<int>, b: Option<int>): (r: Option<int>)
    ensures r.None? <==> a.None? && b.None?
    ensures r.Some? ==> r == a || r == b
    ensures r.Some? && a.Some? ==> r.value <= a.value
    ensures r.Some? && b.Some? ==> r.value <= b.value
  {
    if a.None? then b
    else if b.None? then a
    else Some(Min(a.value, b.value))
  }

  /** `[x for x in value if x is not None]`, keeping the order of the rest. */
  function DropNones(xs: seq<Value>): (r: seq<Value>)
    ensures VNone !in r
    ensures forall x :: x != VNone ==> multiset(r)[x] == multiset(xs)[x]
    ensures |r| <= |xs|
    ensures |xs| == 1 ==> r == if xs[0] == VNone then [] else xs
  {
    if |xs| == 0 then []
    else
      var rest := DropNones(xs[1..]);
      assert xs == [xs[0]] + xs[1..];
      if xs[0] == VNone then rest else [xs[0]] + rest
  }

  /**
   Dropping the None elements of a concatenation drops them from each part,
   so together with the one-element case the order of what remains is the
   order of `xs`.
   */
  lemma {:induction false} DropNonesAppend(a: seq<Value>, b: seq<Value>)
    ensures DropNones(a + b) == DropNones(a) + DropNones(b)
  {
    if |a| == 0 {
      assert a + b == b;
    } else {
      var ab := a + b;
      assert ab[0] == a[0] && ab[1..] == a[1..] + b;
      DropNonesAppend(a[1..], b);
      calc {
        DropNones(ab);
        (if a[0] == VNone then [] else [a[0]]) + DropNones(a[1..] + b);
        (if a[0] == VNone then [] else [a[0]]) + (DropNones(a[1..]) + DropNones(b));
        ((if a[0] == VNone then [] else [a[0]]) + DropNones(a[1..])) + DropNones(b);
        DropNones(a) + DropNones(b);
      }
    }
  }

  /** `no_nones`: None elements leave lists and tuples (a tuple becomes a list); other values pass. */
  function NoNones(v: Value): (r: Value)
    ensures (v.VList? || v.VTuple?) ==> r.VList? && VNone !in r.items
    ensures (v.VList? || v.VTuple?) ==>
              forall x :: x != VNone ==> multiset(r.items)[x] == multiset(v.items)[x]
    ensures (v.VList? || v.VTuple?) ==> r.items == DropNones(v.items)
    ensures !(v.VList? || v.VTuple?) ==> r == v
  {
    match v
    case VList(xs) => VList(DropNones(xs))
    case VTuple(xs) => VList(DropNones(xs))
    case _ => v
  }

  /**
   The parameter merge of `extend_url_query_string`: parameters whose value
   is None are dropped, None elements leave list values, and what remains
   overrides the query already on the URL; other existing keys are kept.
   */
  function MergeParams(existing: Record, params: Record): (r: Record)
    ensures r.Keys == existing.Keys + (set k | k in params && params[k] != VNone)
    ensures forall k :: k in params && params[k] != VNone ==> r[k] == NoNones(params[k])
    ensures forall k :: k in existing && (k !in params || params[k] == VNone) ==> r[k] == existing[k]
  {
    existing + (map k | k in params && params[k] != VNone :: NoNones(params[k]))
  }

  /** A URL as the client uses it: everything but the query, and the parsed query. */
  datatype Url = Url(path: string, query: Record)

  /** `extend_url_query_string(url, params)` */
  function ExtendQuery(u: Url, params: Record): (r: Url)
    ensures r.path == u.path
    ensures r.query == MergeParams(u.query, params)
  {
    Url(u.path, MergeParams(u.query, params))
  }

  /** Python's `s[start:end:step]` for `0 <= end <= |s|` and a positive step. */
  function StepSlice<T>(s: seq<T>, start: nat, end: nat, step: nat): seq<T>
    requires end <= |s| && step >= 1
    decreases end - start
  {
    if start >= end then [] else [s[start]] + StepSlice(s, start + step, end, step)
  }

  /** With step 1 a slice is the plain subsequence. */
  lemma {:induction false} StepSliceUnit<T>(s: seq<T>, start: nat, end: nat)
    requires end <= |s|
    ensures StepSlice(s, start, end, 1) == if start < end then s[start..end] else []
    decreases end - start
  {
    if start < end {
      StepSliceUnit(s, start + 1, end);
      assert s[start..end] == [s[start]] + s[start + 1..end];
    }
  }

  /**
   A stepped slice holds every `step`-th element of its range, from
   `start` on: `ceil((end - start) / step)` elements in all.
   */
  lemma {:induction false} StepSliceAt<T>(s: seq<T>, start: nat, end: nat, step: nat)
    requires end <= |s| && step >= 1
    ensures start >= end ==> StepSlice(s, start, end, step) == []
    ensures start < end ==>
              (|StepSlice(s, start, end, step)| - 1) * step < end - start <= |StepSlice(s, start, end, step)| * step
    ensures forall i :: 0 <= i < |StepSlice(s, start, end, step)| ==>
              start + i * step < end && StepSlice(s, start, end, step)[i] == s[start + i * step]
    decreases end - start
  {
    if start < end {
      var r := StepSlice(s, start, end, step);
      var rest := StepSlice(s, start + step, end, step);
      StepSliceAt(s, start + step, end, step);
      assert r == [s[start]] + rest;
      assert (|r| - 1) * step == |rest| * step;
      assert |r| * step == |rest| * step + step;
      forall i | 0 < i < |r|
        ensures start + i * step < end && r[i] == s[start + i * step]
      {
        assert r[i] == rest[i - 1];
        assert start + step + (i - 1) * step == start + i * step;
      }
    }
  }

  /** What `repr` shows: an element, or the truncation marker. */
  datatype ReprEntry<T> = Item(item: T) | Truncated

  function Items<T>(xs: seq<T>): (r: seq<ReprEntry<T>>)
    ensures |r| == |xs| && forall i :: 0 <= i < |xs| ==> r[i] == Item(xs[i])
  {
    seq(|xs|, i requires 0 <= i < |xs| => Item(xs[i]))
  }

  /**
   `Indexable`: wraps a one-way iterator, whose whole output is `source`,
   in a cache that only grows. The wrapped iterator has always yielded
   exactly `|cache|` items, so its position is `|cache|`; `exhausted`
   records that it has raised StopIteration.
   */
  class Indexable<T> {
    const source: seq<T>
    var cache: seq<T>
    var exhausted: bool

    ghost predicate Valid()
      reads this
    {
      && |cache| <= |source|
      && cache == source[..|cache|]
      && (exhausted ==> |cache| == |source|)
    }

    constructor (source: seq<T>)
      ensures Valid() && this.source == source
      ensures cache == [] && !exhausted
    {
      this.source := source;
      cache := [];
      exhausted := false;
    }

    /** `self.already_computed.extend(itertools.islice(self.it, n))` */
    method Pull(n: nat)
      requires Valid()
      modifies this
      ensures Valid()
      ensures |cache| == Min(old(|cache|) + n, |source|)
      ensures exhausted == (old(exhausted) || old(|cache|) + n > |source|)
    {
      var i := 0;
      while i < n
        invariant 0 <= i <= n && Valid()
        invariant |cache| == Min(old(|cache|) + i, |source|)
        invariant exhausted == (old(exhausted) || old(|cache|) + i > |source|)
      {
        if |cache| < |source| {
          cache := cache + [source[|cache|]];
          i := i + 1;
        } else {
          exhausted := true;
          break;
        }
      }
    }

    /** `self[i]`: pulls only up to index `i`; None stands for IndexError. */
    method GetItem(i: nat) returns (r: Option<T>)
      requires Valid()
      modifies this
      ensures Valid()
      ensures |cache| == Max(old(|cache|), Min(i + 1, |source|))
      ensures exhausted == (old(exhausted) || (old(|cache|) <= i && |source| <= i))
      ensures r == if i < |source| then Some(source[i]) else None
    {
      var n := i - |cache| + 1;
      if n > 0 {
        Pull(n);
      }
      if i < |cache| {
        r := Some(cache[i]);
      } else {
        r := None;
      }
    }

    /** `self[start:stop:step]`: pulls only up to index `stop - 1`. */
    method GetSlice(start: nat, stop: nat, step: nat) returns (r: seq<T>)
      requires Valid() && step >= 1
      modifies this
      ensures Valid()
      ensures |cache| == Max(old(|cache|), Min(stop, |source|))
      ensures exhausted == (old(exhausted) || (old(|cache|) < stop && |source| < stop))
      ensures r == StepSlice(source, start, Min(stop, |source|), step)
    {
      var n := stop - 1 - |cache| + 1;
      if n > 0 {
        Pull(n);
      }
      var end := Min(stop, |cache|);
      assert end == Min(stop, |source|);
      r := StepSlice(cache, start, end, step);
      SliceOfPrefix(source, cache, start, end, step);
    }

    /** `bool(self)`: a first element exists and is not None. */
    method NonZero(isNone: T -> bool) returns (b: bool)
      requires Valid()
      modifies this
      ensures Valid()
      ensures b == (|source| > 0 && !isNone(source[0]))
      ensures |cache| == Max(old(|cache|), Min(1, |source|))
    {
      var first := GetItem(0);
      b := first.Some? && !isNone(first.value);
    }

    /** `repr(self)`: at most ten items, then a marker when an eleventh exists. */
    method Repr() returns (r: seq<ReprEntry<T>>)
      requires Valid()
      modifies this
      ensures Valid()
      ensures |cache| == Max(old(|cache|), Min(11, |source|))
      ensures r == if |source| >= 11 then Items(source[..10]) + [Truncated] else Items(source)
    {
      var beginning := GetSlice(0, 11, 1);
      StepSliceUnit(source, 0, Min(11, |source|));
      if |beginning| == 11 {
        r := Items(beginning[..10]) + [Truncated];
        assert beginning[..10] == source[..10];
      } else {
        r := Items(beginning);
        assert beginning == source;
      }
    }
  }

  /** A slice within a prefix of `s` is the same slice of `s`. */
  lemma {:induction false} SliceOfPrefix<T>(s: seq<T>, p: seq<T>, start: nat, end: nat, step: nat)
    requires |p| <= |s| && p == s[..|p|] && end <= |p| && step >= 1
    ensures StepSlice(p, start, end, step) == StepSlice(s, start, end, step)
    decreases end - start
  {
    if start < end {
      SliceOfPrefix(s, p, start + step, end, step);
    }
  }

  /**
   One iterator over an `Indexable` (`iter(indexable)`): it reads the shared
   cache from its own position and pulls from the wrapped iterator only
   when it has caught up with the cache.
   */
  class Cursor<T> {
    const over: Indexable<T>
    var pos: nat
    var done: bool

    ghost predicate Valid()
      reads this, over
    {
      over.Valid() && pos <= |over.cache| && (done ==> pos == |over.source|)
    }

    constructor (over: Indexable<T>)
      requires over.Valid()
      ensures Valid() && this.over == over && pos == 0 && !done
    {
      this.over := over;
      pos := 0;
      done := false;
    }

    /** `next(cursor)`; None stands for StopIteration. */
    method Next() returns (r: Option<T>)
      requires Valid()
      modifies this, over
      ensures Valid()
      ensures r == if old(pos) < |over.source| then Some(over.source[old(pos)]) else None
      ensures pos == if r.Some? then old(pos) + 1 else old(pos)
      ensures |over.cache| == if old(pos) == old(|over.cache|) && old(pos) < |over.source|
                              then old(|over.cache|) + 1 else old(|over.cache|)
      ensures over.exhausted == (old(over.exhausted) || (!old(done) && old(pos) == |over.source|))
    {
      if done {
        return None;
      }
      if pos == |over.cache| {
        if |over.cache| < |over.source| {
          over.cache := over.cache + [over.source[|over.cache|]];
        } else {
          over.exhausted := true;
          done := true;
          return None;
        }
      }
      r := Some(over.cache[pos]);
      pos := pos + 1;
    }
  }

  /**
   Two iterators over one `Indexable`, advanced in turn, each yield the
   source from its first item, and no item is pulled twice: after three
   items from each the wrapped iterator has been advanced three times.
   */
  method IterateConcurrently<T>(source: seq<T>) returns (first: seq<Option<T>>, second: seq<Option<T>>, pulled: nat)
    requires |source| >= 3
    ensures first == second == [Some(source[0]), Some(source[1]), Some(source[2])]
    ensures pulled == 3
  {
    var indexable := new Indexable(source);
    var it1 := new Cursor(indexable);
    var it2 := new Cursor(indexable);
    var a := it1.Next();
    var b := it1.Next();
    var c := it2.Next();
    var d := it2.Next();
    var e := it2.Next();
    var f := it1.Next();
    first, second := [a, b, f], [c, d, e];
    pulled := |indexable.cache|;
  }
}
