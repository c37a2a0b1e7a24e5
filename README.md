# django-rest-framework-client, modelled in Dafny

This project models the core of `restframeworkclient`. That library is a client-side imitation of Django's ORM that works over a Django REST Framework API. The model covers four parts.

- **Lazy memoising sequence.** `Indexable` wraps a one-way iterator in a cache that only grows. Indexing and slicing pull only what they need. Several cursors can read the sequence and share the cache.
- **Query builder.** `PartiallyFiltered` (here `Filtering.Builder`) builds a parameter map through `filter`, `exclude`, `none`, `order_by`, `select_related` and `prefetch_related`, and turns slicing into offset and limit. It normalises parameters before sending them and routes `get`. It fetches its results once and reuses them.
- **Model instances.** `Model` (here `Models.Entity`) keeps an original and a current attribute map and a persisted flag. It computes its changes from those maps and implements `save`, `delete` and `refresh_from_db`. All of them go through the cached REST call, which rejects None parameters, answers repeated GETs from the per-request cache and clears that cache on any other method. HTTP status codes map to error kinds.
- **Field descriptors.** A field write keeps the first value as the baseline. A reference dereferences its key at most once, and the `<name>_id` accessor gives raw access to that key. A reverse reference becomes a query, or a per-parent view of one batched query when the result list asked for `prefetch_related`. There are also the string helpers of file and content-type fields.

The model treats the HTTP transport as an oracle. `Transport.Client` holds a function `server` from call to response, the log of every call that reached the transport, and the request cache. The request cache is an optional map that is present while a request is active. A listing response carries its first page and the pages its `next` links lead to. State that the source updates in place is modelled as classes, with `modifies` frames:

- `Indexable` and its cursors;
- the builder with its shared prefetch list;
- the instance;
- the client.

Pure computations are modelled as functions with lemmas.

Modules:

| module | file | role |
|---|---|---|
| Base | base.dfy | values, records, error kinds, Option/Result |
| Strings | strings.dfy | `startswith`, `endswith`, `join`, `split`, `lower` |
| Utils | utils.dfy | `Indexable`, cursors, `min_ignoring_nones`, the query merge |
| Resources | resources.dfy | model metadata, primary key, URLs, status mapping |
| Transport | transport.dfy | the cached REST call |
| Filtering | filtering.dfy | the query builder |
| Models | models.dfy | instances: initialisation, changes, save/delete/refresh |
| Fields | fields.dfy | descriptors, reverse references, file and content-type helpers |

## Model

| member | source | states |
|---|---|---|
| Utils.MinIgnoringNones | restframeworkclient/utils.py:213-218 | None only when both are None; otherwise one of the given values, no greater than either |
| Utils.NoNones | restframeworkclient/utils.py:189-197 | lists and tuples become lists without None elements, and every other element keeps its multiplicity; other values pass through |
| Utils.DropNones | restframeworkclient/utils.py:194-195 | the result holds no None, keeps every other element's multiplicity, and a one-element list keeps its element exactly when it is not None |
| Utils.DropNonesAppend | restframeworkclient/utils.py:195 | dropping None from a concatenation drops it from each part, so the remaining elements keep their order |
| Utils.MergeParams | restframeworkclient/utils.py:199-204 | the merged query has the existing keys plus the non-None parameters; those parameters override with their None-free value, and other existing keys are kept |
| Utils.ExtendQuery | restframeworkclient/utils.py:183-210 | the path is unchanged, and the query is the merge of the existing query with the parameters |
| Utils.StepSliceUnit | restframeworkclient/utils.py:125-133 | a step-1 slice is the plain subsequence |
| Utils.StepSliceAt | restframeworkclient/utils.py:125-133 | a stepped slice holds `ceil((end - start) / step)` elements, and element `i` is the range's element `start + i * step` |
| Utils.Indexable.constructor | restframeworkclient/utils.py:110-112 | a new wrapper has an empty cache and is not exhausted |
| Utils.Indexable.Pull | restframeworkclient/utils.py:130-132 | pulls `min(n, remaining)` source items in order and appends them to the cache, which stays a prefix of the source; a pull past the end marks the iterator exhausted |
| Utils.Indexable.GetItem | restframeworkclient/utils.py:125-133 | returns source item `i`, or IndexError; the cache grows only to `i + 1` items |
| Utils.Indexable.GetSlice | restframeworkclient/utils.py:125-133 | returns the stepped slice of the source; the cache grows only to `stop` items |
| Utils.SliceOfPrefix | restframeworkclient/utils.py:125-133 | a slice within the cached prefix equals the same slice of the whole source |
| Utils.Indexable.NonZero | restframeworkclient/utils.py:135-139 | true exactly when a first item exists and is not None; at most one item is pulled |
| Utils.Indexable.Repr | restframeworkclient/utils.py:141-146 | at most 11 items are pulled; shows the first 10 and then the truncation marker when an 11th exists, otherwise the whole source |
| Utils.Cursor.Next | restframeworkclient/utils.py:114-123 | yields the source item at the cursor's own position; pulls from the wrapped iterator only when the cursor has caught up with the cache |
| Utils.IterateConcurrently | tests/test_restframeworkclient.py:679-695 | two interleaved cursors each yield the source from its start, and each item is pulled once |
| Strings.Split | restframeworkclient/filtering.py:240 | a split has at least one piece, and no piece holds the separator |
| Strings.SplitJoin | restframeworkclient/filtering.py:159-162 | joining pieces that hold no separator and splitting the result gives the pieces back |
| Strings.JoinSplit | restframeworkclient/filtering.py:240-242 | splitting and joining again gives the string back |
| Strings.Lower | restframeworkclient/fields.py:138 | ASCII lower-casing keeps the length and maps only upper-case letters |
| Resources.PrimaryKey | restframeworkclient/models.py:447-449 | `Meta.primary_key` when it is given and non-empty, else `id` |
| Resources.NatTextInjective | restframeworkclient/models.py:459-461 | distinct natural numbers have distinct decimal text |
| Resources.IntPkTextInjective | restframeworkclient/models.py:459-461 | distinct integer primary keys render to distinct text |
| Resources.ResourceUrlUnderCollection | restframeworkclient/models.py:455-461 | an item URL extends its collection URL, ends in `/`, and distinct integer keys give distinct item URLs |
| Resources.StatusError | restframeworkclient/models.py:416-445 | no error exactly for 2xx; 400, 404, 502 and 409 each map to their error and nothing else does; every other status is a generic server error |
| Transport.CacheKey | restframeworkclient/models.py:346 | the cache key keeps the URL's path, and its query is the URL's query extended by the call's non-None parameters, None elements dropped from list values (the URL's query unchanged without parameters) |
| Transport.Decode | restframeworkclient/models.py:375-381 | a response succeeds exactly on 2xx and then yields its body; otherwise it yields the status's error |
| Transport.Client.RestCall | restframeworkclient/models.py:332-363 | a None parameter fails before the transport is reached; a GET hit is answered from the cache without reaching the transport; any other method empties the cache first; a successful GET is stored under its key |
| Filtering.Preprocess | restframeworkclient/filtering.py:255-276 | keys are normalised (`pk` becomes the primary-key name, `__pk` is dropped); `__none__` is added exactly when some non-`exclude__` filter is an empty list or tuple; keys already in normal form keep their value, with instances replaced by their key |
| Filtering.PreprocessValues | restframeworkclient/filtering.py:259-276 | every renamed key holds `get_value` of the parameter that supplies it; a parameter that no other one normalises to the same key has its own value stored under its renamed key (`pk=5` gives the primary-key name 5, `customer__pk=3` gives `customer` 3) |
| Filtering.FlaggedIdempotent | restframeworkclient/filtering.py:195-203 | writing the none flag into the parameters twice equals writing it once, and preprocessing is unchanged by it |
| Filtering.ExcludeParams | restframeworkclient/filtering.py:74-76 | more than one keyword is an invalid-argument error; otherwise each key `k` becomes `exclude__k` with its value unchanged |
| Filtering.ExcludeKeepsNoneFlag | restframeworkclient/filtering.py:272-274 | an exclude filter never sets or clears the none flag |
| Filtering.OrderingValue | restframeworkclient/filtering.py:231-233 | the `ordering` value splits back into the given fields |
| Filtering.SelectRelatedValue | restframeworkclient/filtering.py:239-242 | the new value splits into the fields already selected followed by the new ones; an existing value that is not text is an error |
| Filtering.InvertTokenInvolution | restframeworkclient/filtering.py:151-158 | toggling a field's sign twice gives the field back |
| Filtering.InvertOrdering | restframeworkclient/filtering.py:159-162 | every comma-separated field of the ordering has its sign toggled |
| Filtering.InvertOrderingInvolution | restframeworkclient/filtering.py:159-162 | reversing an ordering twice gives it back |
| Filtering.LastOrdering | restframeworkclient/filtering.py:159-162 | the reversed `ordering`, or `-pk` when none is set; a non-text ordering is an error |
| Filtering.OffsetOf | restframeworkclient/filtering.py:313 | the offset is 0 when absent; a non-integer offset is an error |
| Filtering.LimitOf | restframeworkclient/filtering.py:314 | the limit is None when absent; a non-integer limit is an error |
| Filtering.SliceComposes | restframeworkclient/filtering.py:313-331 | slicing `[start:stop]` moves the offset by `start` and sets the limit to `min_ignoring_nones(limit, stop) - start` |
| Filtering.SliceWindow | restframeworkclient/filtering.py:313-331 | the server window at the moved offset and composed limit is the Python slice `[start:stop]` of the old window |
| Filtering.SliceOfSlice | restframeworkclient/filtering.py:313-326 | `[10:20]` followed by `[5:10]` asks for offset 15 and limit 5 |
| Filtering.IndexEntries | restframeworkclient/filtering.py:332-336 | an index asks for one row at the previous offset plus `i` |
| Filtering.FlattenAppend | restframeworkclient/filtering.py:284-292 | the rows of two runs of pages are the rows of the first run followed by those of the second |
| Filtering.PagesFetched | restframeworkclient/filtering.py:284-296 | after `n` rows, between one page and all of them have been loaded, and only the first page when it holds `n` rows |
| Filtering.PagesFetchedCover | restframeworkclient/filtering.py:284-296 | the loaded pages hold the first `n` rows |
| Filtering.PagesFetchedMinimal | restframeworkclient/filtering.py:291-292 | no page is loaded before a row beyond the loaded ones is needed |
| Filtering.PagesFetchedMonotone | restframeworkclient/filtering.py:284-296 | asking for more rows never loads fewer pages |
| Filtering.Pages | restframeworkclient/filtering.py:284-292 | a listing's pages are its own results followed by the pages after it |
| Filtering.FetchOutcome | restframeworkclient/filtering.py:277-296 | nothing for a query known to be empty; the transport's error; with a limit, the first `limit` rows, loading only the pages they need; otherwise all pages, read lazily |
| Filtering.FirstRow | restframeworkclient/filtering.py:337-341 | the first row exactly when one exists; None otherwise; errors pass through |
| Filtering.SteppedRows | restframeworkclient/filtering.py:327-330 | `results[0:limit:step]`: row `i` is row `i * step` of the fetch's rows, below the limit clamped to the row count, and there are `ceil(end / step)` of them; fetch errors pass through, and a lazy result sliced with no limit is a type error |
| Filtering.StepSliceLength | restframeworkclient/utils.py:125-133 | a stepped slice has no more items than its range |
| Filtering.GetRoute | restframeworkclient/filtering.py:103-113 | a direct fetch exactly when the keys other than `select_related` are the primary key alone; otherwise a listing with `limit=1` |
| Filtering.GetCall | restframeworkclient/filtering.py:104-114 | a direct fetch goes to the item URL and sends parameters only when some remain; a search goes to the collection URL |
| Filtering.GetOutcome | restframeworkclient/filtering.py:114-124 | a count of 0 is DoesNotExist, a count of 2 or more is MultipleObjectsReturned, otherwise the first result; a direct fetch returns the record; transport errors pass through |
| Filtering.GetByPrimaryKey | restframeworkclient/filtering.py:95-110 | `get(pk=v)` fetches the item URL of `v`'s key, with no query parameters unless `select_related` is given |
| Filtering.Builder.constructor | restframeworkclient/filtering.py:42-45 | a new builder has the given parameters, an empty prefetch list of its own and no results |
| Filtering.Builder.Copy | restframeworkclient/filtering.py:47-50 | a fresh builder with the same model and parameters that shares the prefetch list |
| Filtering.Builder.Filter | restframeworkclient/filtering.py:52-59 | a fresh copy whose parameters are the old ones updated by the keywords; the receiver is unchanged |
| Filtering.Builder.Exclude | restframeworkclient/filtering.py:61-79 | more than one keyword is an invalid-argument error; otherwise a fresh copy with the `exclude__` filter added |
| Filtering.Builder.NoneQuery | restframeworkclient/filtering.py:87-93 | a fresh copy with `__none__` set |
| Filtering.Builder.OrderBy | restframeworkclient/filtering.py:223-233 | a fresh copy with `ordering` replaced by the joined fields |
| Filtering.Builder.SelectRelated | restframeworkclient/filtering.py:235-243 | a fresh copy whose `select_related` lists the old fields followed by the new ones |
| Filtering.Builder.PrefetchRelated | restframeworkclient/filtering.py:245-253 | a fresh copy; the shared prefetch list, and so the receiver's too, is extended by the fields |
| Filtering.Builder.FetchResults | restframeworkclient/filtering.py:277-296 | makes the listing request only when the query is not known to be empty, and returns the results `FetchOutcome` describes |
| Filtering.Builder.Results | restframeworkclient/filtering.py:300-307 | the first call fetches and stores the results; later calls return the stored results without a request |
| Filtering.Builder.ToList | restframeworkclient/filtering.py:346-347 | every row of the stored results, reading a lazy result to its end |
| Filtering.Builder.CachedRows | restframeworkclient/filtering.py:346-347 | iterating over results already fetched yields every row they stand for, reads a lazy result to its end and makes no request |
| Filtering.Builder.Len | restframeworkclient/filtering.py:300-353 | the number of rows of the stored results; on the first use, one listing request is made and the count is that of the answer's rows, or its error; later uses leave the client unchanged |
| Filtering.Builder.NonZero | restframeworkclient/filtering.py:300-344 | whether the stored results have a row, and a lazy result reads at most one; on the first use, one listing request is made and the truth value is whether the answer has a row, or its error; later uses leave the client unchanged |
| Filtering.Builder.CachedNonZero | restframeworkclient/filtering.py:343-344 | `bool` of results already fetched: whether they stand for a row, reading at most the first row of a lazy result |
| Filtering.MatchesRows | restframeworkclient/filtering.py:278-297 | stored results hold exactly the rows of the fetch they stand for |
| Filtering.Builder.GetItemIndex | restframeworkclient/filtering.py:332-341 | fetches one row at the shifted offset and returns it, or None when nothing comes back |
| Filtering.Builder.GetItemSlice | restframeworkclient/filtering.py:309-331 | without a step above one, a narrower query and no request; otherwise the stepped rows of the narrowed query's results |
| Filtering.Builder.FilteredResults | restframeworkclient/filtering.py:329 | `self.filter(**params)._results()` makes the narrowed query's request and returns the results its outcome describes |
| Filtering.Builder.FilteredSteppedRows | restframeworkclient/filtering.py:329-330 | the narrowed query's request, and the rows `[0:limit:step]` of its outcome |
| Filtering.StepResults | restframeworkclient/filtering.py:330 | on fetched results, `[0:limit:step]` is the stepped slice of the rows the fetch outcome describes; a lazy result without a limit is an error |
| Filtering.Builder.First | restframeworkclient/filtering.py:138-145 | the row at index 0 of `filter(limit=1)`, or None |
| Filtering.Builder.Last | restframeworkclient/filtering.py:147-163 | `first()` under the reversed ordering |
| Filtering.Builder.Exists | restframeworkclient/filtering.py:189-193 | whether `first()` finds a row |
| Filtering.Builder.Earliest | restframeworkclient/filtering.py:165-175 | `first()` ordered by the field or `get_latest_by`; no row is DoesNotExist |
| Filtering.Builder.Latest | restframeworkclient/filtering.py:177-187 | `last()` ordered by the field or `get_latest_by`; no row is DoesNotExist |
| Filtering.Builder.Get | restframeworkclient/filtering.py:95-124 | one request along the route of the merged, preprocessed parameters; its outcome is `GetOutcome` |
| Filtering.Builder.Count | restframeworkclient/filtering.py:195-203 | the `count` of a one-row listing; the none flag is written into the builder's own parameters |
| Filtering.LatestBy | restframeworkclient/filtering.py:169 | the given field, else `get_latest_by`, else a missing-attribute error |
| Filtering.Found | restframeworkclient/filtering.py:171-175 | no instance becomes the model's DoesNotExist; a found row is returned |
| Models.RenamePk | restframeworkclient/models.py:136-141 | `pk` is renamed to the primary-key name; other keys keep their values |
| Models.PlainAttrs | restframeworkclient/models.py:153-162 | the keyword arguments the class does not define keep their values in the tracked maps |
| Models.Target | restframeworkclient/fields.py:143-160 | a `<name>_id` key writes the reference `<name>` |
| Models.InitialAttrs | restframeworkclient/models.py:148-162 | both maps start as copies of the keywords; each class key is deleted and written through its descriptor; plain keys keep their values; a written field's baseline is its own keyword when given, else its `_id` keyword, and its value is one of the offered values; the written fields' cached instances are dropped |
| Models.InitStep | restframeworkclient/models.py:155-162 | deleting one more class key and writing it through its descriptor keeps the initialisation state |
| Models.InitIdBaseline | restframeworkclient/fields.py:157-159 | the `_id` setter finds the reference among the baseline's keys exactly when the keywords hold the reference, so the baseline is the reference's own keyword when given |
| Models.InitReferenceAndId | restframeworkclient/models.py:152-162 | with both `<name>` and `<name>_id` given, the baseline of `<name>` is its own keyword whatever the order, and its value is one of the two |
| Models.ChangesOf | restframeworkclient/models.py:273-275 | the changes are exactly the current attributes that differ from their original; a current attribute without an original is an error |
| Models.ChangesAfterWrite | restframeworkclient/fields.py:84-90 | after a descriptor write, the written key is changed exactly when it had an original that differs from the new value; other keys keep their status |
| Models.Outgoing | restframeworkclient/models.py:322-329 | dicts become JSON text, instances become their key, other values pass through |
| Models.PostprocessData | restframeworkclient/models.py:320-330 | the same keys, each value made fit to send |
| Models.PostprocessIdempotent | restframeworkclient/models.py:320-330 | post-processing twice equals post-processing once |
| Models.Restrict | restframeworkclient/models.py:291 | the changes limited to `update_fields` |
| Models.FirstMissing | restframeworkclient/models.py:294-295 | the first update field the response lacks |
| Models.Pick | restframeworkclient/models.py:294-295 | the response's values for the given fields |
| Models.Entity.constructor | restframeworkclient/models.py:135-146 | a new instance is not persisted and is initialised from the keywords with `pk` renamed |
| Models.Entity.SetInitialAttrs | restframeworkclient/models.py:148-162 | the maps are those `InitialAttrs` describes (a written field's baseline is its own keyword when given, else its `_id` keyword); the persisted flag is kept |
| Models.Entity.Pk | restframeworkclient/models.py:170-171 | the value of the primary-key attribute, or a missing-key error |
| Models.Entity.Changes | restframeworkclient/models.py:273-275 | defined exactly when every current attribute has an original, and then it is the differing attributes |
| Models.Entity.Equals | restframeworkclient/models.py:270-271 | instances of different models are unequal; otherwise equal exactly when the primary keys are |
| Models.Entity.SaveCall | restframeworkclient/models.py:277-299 | an unpersisted instance POSTs all its attributes to the collection; a persisted one PATCHes to its item URL exactly the attributes that differ from their baseline (those of them in `update_fields`, when any are named), each made fit to send; a missing primary key or baseline is that error |
| Models.Entity.Save | restframeworkclient/models.py:277-301 | the call `SaveCall` gives; afterwards the original map is the response and the instance is persisted; the current map is the response, so nothing is changed, except with `update_fields`, where only those fields are copied until one is missing |
| Models.CopyFields | restframeworkclient/models.py:294-295 | the fields up to the first one the response lacks are copied in order; that field is a missing-key error, and the ones before it stay copied |
| Models.Entity.Delete | restframeworkclient/models.py:303-308 | an unpersisted instance is an error with no request; otherwise DELETE on the item URL, with the answer returned as is |
| Models.Entity.RefreshFromDb | restframeworkclient/models.py:310-318 | an unpersisted instance is an error with no request; otherwise GET the item URL and re-initialise from the record |
| Models.FromServer | restframeworkclient/filtering.py:125-126 | an instance built from a server record is persisted and tied to its query |
| Models.GetEntity | restframeworkclient/filtering.py:95-127 | `Model.objects.get(**kwargs)` makes exactly the request `get` makes; its error is returned as is, and a single match becomes a fresh persisted instance initialised from the record, primary key renamed |
| Fields.FieldSet | restframeworkclient/fields.py:84-94 | the first write is the baseline; every write sets the current value; only this field's cached instance is dropped |
| Fields.IdSet | restframeworkclient/fields.py:156-160 | as a field write, but the cached instance is kept |
| Fields.FieldGet | restframeworkclient/fields.py:96-99 | the current value, or a missing-key error |
| Fields.IdGet | restframeworkclient/fields.py:148-154 | the primary key of an instance value, otherwise the raw value; never a fetch |
| Fields.FirstWriteWins | restframeworkclient/fields.py:85-86 | the first value written stays the baseline whatever follows; other keys are untouched |
| Fields.SetThenGet | restframeworkclient/fields.py:84-99 | writing a field and reading it back gives the value written |
| Fields.ReverseName | restframeworkclient/fields.py:136-141 | no reverse reference when `related_name` ends in `+`; otherwise `related_name`, or the lower-cased class name followed by `_set` |
| Fields.IdAccessorName | restframeworkclient/fields.py:143-146 | the accessor is the reference's name followed by `_id` |
| Fields.IdAccessorRouted | restframeworkclient/fields.py:143-146 | the accessor a reference adds is the key that instances route to the raw-key setter of that reference |
| Fields.Dereference | restframeworkclient/fields.py:115-131 | a cached instance is returned; an instance value as is; a dict becomes a persisted instance with no fetch; None gives None; any other value is fetched with `get(pk=…)` and cached |
| Fields.FetchReferent | restframeworkclient/fields.py:128-131 | one `get(pk=…)` on the target model, whose instance is cached under the field's name |
| Fields.Keep | restframeworkclient/fields.py:220-221 | the kept rows are exactly the rows that refer to the key: every kept row refers to it, and every referring row is kept |
| Fields.KeepAppend | restframeworkclient/fields.py:220-221 | rows are kept in the order they come in |
| Fields.KeepCounts | restframeworkclient/fields.py:220-221 | a referring row is kept as often as it occurs, and no other row is kept |
| Fields.Others | restframeworkclient/fields.py:220-221 | the rest holds no row that refers to any of the keys |
| Fields.KeepOthersSplit | restframeworkclient/fields.py:220-221 | each row goes either to the view of a key or to the rest |
| Fields.DemuxPartition | restframeworkclient/fields.py:207-222 | for distinct parent keys, the parents' views together with the rows that refer to no parent are a permutation of the batched result |
| Fields.DemuxFilter | restframeworkclient/fields.py:219-222 | the rows whose `<field>_id` is the parent's key; a row without the field is a missing-key error |
| Fields.Demux | restframeworkclient/fields.py:218-222 | with the parent's key, `DemuxFilter`; an empty batch is empty whatever the key; otherwise a missing key fails at the first row, after that row's field is read |
| Fields.PrimaryKeys | restframeworkclient/fields.py:212 | the primary key of each row in order, or an error when one lacks it |
| Fields.DemuxView.Results | restframeworkclient/fields.py:216-222 | the batched query is fetched once, by one listing request whose answer's rows are filtered for the parent, whose key is read at this point; later reads leave the client unchanged |
| Fields.ReverseParams | restframeworkclient/fields.py:197-199 | the declared filters, overridden by the given parameters |
| Fields.ReverseOne | restframeworkclient/fields.py:197-205 | `get(filters, field=pk)` on the referencing model, cached under the field's name |
| Fields.PrefetchBatch | restframeworkclient/fields.py:209-216 | on first use, one query with `field__in` set to the keys of every row of the list is stored on the list; later uses return the stored query; a row without a key is an error |
| Fields.ReverseMany | restframeworkclient/fields.py:206-227 | the instance's result list is fetched first (by one request on its first use); with prefetch on a non-empty list, one batched `field__in` query is created on first use, stored on the list, and viewed per parent without reading the parent's key, and that branch fails exactly when the batch is new and reading the rows' keys fails, with that error; otherwise the key is read and a fresh query has `field` equal to it |
| Fields.DirectQuery | restframeworkclient/fields.py:225-227 | a fresh query with the filters and `field` equal to the instance's key, or the error reading the key raises |
| Fields.FileUrl | restframeworkclient/fields.py:295-302 | the URL itself when its path starts with `/`, otherwise `/` followed by the URL |
| Fields.FileUrlBareName | restframeworkclient/fields.py:297-301 | a bare file name is served from the root, and fixing it twice changes nothing |
| Fields.FileUrlOf | restframeworkclient/fields.py:295-302 | the fixed URL of the stored text |
| Fields.AppLabel | restframeworkclient/fields.py:362-363 | the longest prefix of the value without `_`: it holds no `_` and is followed by `_` or the end of the text |
| Fields.ContentModel | restframeworkclient/fields.py:358-359 | an index error exactly when there is no `_`; otherwise the slice of the value that starts after the first `_`, holds no `_` and is followed by `_` or the end of the text |
| Fields.ContentModelSlice | restframeworkclient/fields.py:358-359 | the second piece of a split on `_` is the text after the first `_` up to the next one or the end |
| Fields.SplitHead | restframeworkclient/fields.py:358-363 | the first piece of a split is a prefix that runs to the end or to the first separator, and the other pieces split what follows that separator |
| Fields.SplitCount | restframeworkclient/fields.py:358-359 | a text splits into more than one piece exactly when it holds the separator |
| Fields.ContentTypeRoundTrip | restframeworkclient/fields.py:354-363 | `<app>_<model>` gives back both parts when neither holds `_` |

## Left out

- Real HTTP, the local REST framework bypass and logging (models.py:365-414) are not modelled. The transport is the oracle `server`, and the log records the calls that reach it.
- The middleware's thread-local request is not modelled. The request cache is the client's optional map, present while a request is active.
- Next-page requests are not modelled. A listing response carries the pages its `next` links lead to, and `PagesFetched` counts how many of them the lazy reader loads. Those requests appear neither in the client's log nor in its cache.
- `setattr_lazy` and `setattr_lazy_finish` (a locked global queue) are not modelled. Reverse-reference registration is only the naming rule of `ReverseName`.
- Model lookup by name or object reference is not modelled. A reference's target is passed as its `ModelMeta`, so an unresolvable name does not arise.
- The metaclass, `_init_fields`, `Manager`, `Meta` and the instance's `__getattribute__`/`__setattr__` are not modelled. They work by Python class and attribute reflection, which has no counterpart in Dafny; the model's attribute access goes through `Fields.FieldGet`, `Fields.IdGet`, `Fields.FieldSet` and `Fields.IdSet`.
- Date, time and datetime parsing is not modelled, because it goes through dateutil. The clock sentinels `datetime.now` and `timezone.now` in `_postprocess_data` and `_preprocess_filter_params` are left out too.
- `json.dumps` is not modelled as text. A dict sent to the server becomes the value `VJsonText` of its entries.
- URL parsing and encoding are not modelled. A URL is its path plus a parsed query, and `FileUrl` takes the path-parsing function as a parameter.
- `GenericRelationField` and `_get_model_by_content_type` are left out, because they search the unordered global set of models.
- methods.py and compatibility.py are left out.
- `get_or_create`, `new`, `create`, `add` and `all` are left out. They are thin combinations of `filter`, the constructor and `save`.
- The builder's `__repr__` is left out. Builder results are server records, not instances; the instance a record becomes is what `Models.FromServer` builds.
- Instances stored as attribute values are `VEntity(model, pk)` handles, so object identity and aliasing between instances are not modelled.
- Values are immutable, so the deep copies of `_set_initial_attrs`, `save` and `Field.__set__` are the identity. The promise that the current value never aliases the baseline holds by construction.
- Python's comparison between values of different types is modelled as structural equality of `Value`s.
- Negative indexes and slice bounds are left out; the source's own documentation says they are not supported. `Indexable`'s operations take natural numbers.
- Filtering.OffsetOf: an offset that is not an integer becomes a type error, where Python might still add or compare it.
- Filtering.LimitOf: a limit that is not an integer (or None) becomes a type error, where Python might still compare it.
- Filtering.Preprocess: when several keys normalise to one key (`x` and `x__pk`, or `pk` and the primary-key name), the key already in normal form wins, then `x__pk`. Python takes the last in dictionary order.
- Models.RenamePk: when both `pk` and the primary-key name are given, the primary-key name wins. Python takes the last in dictionary order.
- Models.InitialAttrs: class keys are applied in an unspecified order, as the source's dictionary order is. The baseline does not depend on that order; when a reference and its `_id` key are both given, the contract says only that the current value is one of the two, because which one wins depends on that order.
- Models.PlainAttrs: keys naming a reverse reference are dropped. In the source, once the reverse reference is registered, the assignment goes through `Field.__set__`: it writes the value under the referencing field's name (for example, `Customer(devices=[1, 2])` sets `_attrs['customer']`), keeps it as the baseline on the first write, and drops that name's cached instance. The model does not represent this write.
- Models.InClassDir: only declared fields and `_id` accessors count as names the class defines. In the source, `dir(self)` also holds the methods (`save`, `delete`, ...), `objects`, `_meta`, `DoesNotExist`, user methods and properties, and `_attrs`/`_original_attrs`. A record key with such a name leaves the tracked maps there, or raises AttributeError on a read-only property, where the model keeps it as a plain attribute.
- Models.IsFieldKey: each field's `field_name` is assumed to equal the attribute it is declared as.
- Filtering.LatestBy: a `get_latest_by` explicitly set to None is treated like a missing one.
- Transport.Decode: a response body whose shape does not fit the call (a non-listing for a list, a non-record for a save) becomes `MalformedResponse`, where Python fails with a KeyError or TypeError.
- Models.Entity.Save / Models.Entity.RefreshFromDb: when the answer is not a single record, the model returns `MalformedResponse` and leaves the instance unchanged. In the source the instance is changed before anything fails. An empty body (None) first overwrites `_original_attrs`: `save` assigns it directly, a `save` with `update_fields` assigns a copy, and `refresh_from_db` goes through `_set_initial_attrs`. The next step then raises a TypeError: assigning `_attrs` tests `'_attrs' in None` in `__setattr__`, or `json_[k]` indexes None. The instance keeps the overwritten baseline. A listing page, being a dict in Python, would be stored as the instance's attributes without error. The model does not represent a baseline that is not a record.
- Models.Outgoing / Filtering.GetValue: an instance value is the handle `VEntity(model, pk)`, which always carries a primary key, so reading its key never fails. In the source, `value.pk` on an instance without its primary-key attribute raises AttributeError (through `__getattribute__`), in `get_value` of filtering, in `_postprocess_data` and in `foo_id_getter` (`Fields.IdGet`). The model returns the carried key instead.
- Resources.PkText: only integers, text, booleans and None render exactly as `'%s'` renders them. Any other primary key renders as a placeholder, so composite keys are not distinguished in URLs.
- Fields.DemuxFilter: it reads the referencing field of the batched rows as records, not through instances. It assumes that field is a `Reference` of the referencing model.
- Fields.DemuxView.Results: the view's own parameters and its other builder operations are not modelled; only its rows are.
- Fields.PrimaryKeys: it assumes a row's primary key is not written through an `_id` accessor.
- Fields.PrefetchBatch: the keys are collected by reading the whole fetched result list at once. The source iterates it row by row; for an unlimited result that loads the further pages, whose requests are not modelled (see the next-page line above).
- Fields.FileUrlOf: it reads the instance the field is read on. In the source, `FileField.__get__` and `ContentTypeField.__get__` store the instance on the descriptor, which the class shares, so a field object taken from one instance reports another instance's value once that instance's attribute has been read. The model does not capture this sharing.
- Python 3 truthiness of a builder (through `__len__`, which reads every row) is not modelled. `Filtering.Builder.NonZero` follows `__nonzero__`, which reads only the first row; the truth value is the same.
