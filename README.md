# atmdb models and overlap utilities in Dafny

atmdb is an asynchronous client for The Movie Database (TMDb). This project
models two parts of it and proves properties of them:

- `atmdb/models.py`: the model classes `BaseModel`, `Movie` and `Person`:
  - identity, where two models are equal when they have the same class and equal ids;
  - hashing by id;
  - `repr` built from `JSON_MAPPING`;
  - membership through the `CONTAINS` rules;
  - decoding with `from_json`, including the nested credits that the `Movie` and
    `Person` overrides decode into a set of the other class.
- `atmdb/utils.py`: the overlap helpers:
  - `_overlap`: `set.intersection` of one attribute across several models, then
    one `get_*` call per element when a client is given;
  - `_find_overlap`: one `find_*` and one `get_*` per query, then the overlap of
    the details;
  - their four public wrappers.

Files:

- `wrappers.dfy` (`Wrappers`): `Option` and `Result`.
- `models.dfy` (`Models`):
  - Python values (`Value`) and model instances (`Entity`);
  - the key that Python `==` compares (`Key`, `KeyOf`), `hash`, `isinstance`;
  - `__eq__` together with the rule for reflected operands;
  - `getattr`, `JSON_MAPPING`, the base `from_json` mapping;
  - sets of models (`KeySet`, `NoDup`, `SetAdd`), `in` and `__contains__`.
- `model_decode.dfy` (`ModelDecode`): `from_json` in two forms.
  - `Decode` is what it returns.
  - `DecodeInPlace` is what it returns plus what it leaves in the caller's dict.
    The overrides store the decoded set into that dict.
  - The class `Dict` and the methods `FromJson`, `FromJsonNoWrite` and
    `DecodeTwice` run on a mutable dict object.
- `model_repr.dfy` (`ModelRepr`): `__repr__` and the Python `repr` of ints,
  strings, lists, dicts and sets, with round-trip lemmas for ints and strings.
- `utils.dfy` (`Utils`):
  - the client: an `Api` oracle plus a `Client` class that records every
    awaited call in `calls`;
  - `set.intersection` with CPython's rules:
    - the first argument must be a set, and no argument at all is a TypeError;
    - against another set, the smaller set is iterated;
    - the elements of any other iterable are hashed;
  - `_overlap` and `_find_overlap` as loops over the client, each proved
    against a specification function (`OverlapOutcome`, `Lookups`);
  - the examples of the test suite.

`client.py` and `core.py` are not part of this model. The client's HTTP calls
become the pure oracle `Api`: given a query or an id, it says what that call
returns. `await` becomes an ordinary sequential call.

## Model

| member | source | states |
|---|---|---|
| Models.HashableByKey | atmdb/models.py:33-34 | whether `hash` succeeds on a value is decided by the key that `==` compares: a list, dict or set, or a model whose id is one, is unhashable |
| Models.ModelHashIsIdHash | atmdb/models.py:33-34 | `hash(model)` is `hash(model.id_)`, including the TypeError for an unhashable id |
| Models.EqualValuesHashAlike | atmdb/models.py:30-34 | values that compare equal are both hashable or both not, and hash alike, so `__hash__` agrees with `__eq__` |
| Models.IdentityById | atmdb/models.py:30-31 | `a == b` on two models holds iff they have the same class and equal ids; no other field matters |
| Models.MovieNeverEqualsPerson | atmdb/models.py:30-31 | a Movie and a Person are never equal, whatever their ids, in either order |
| Models.DunderEqIsAsymmetric | atmdb/models.py:30-31 | `BaseModel.__eq__` accepts a Movie with the same id but a Movie's rejects the BaseModel; because the subclass's reflected `__eq__` is tried first, `==` is False both ways |
| Models.AttributesAreMapping | atmdb/models.py:15-19 | the attributes `__init__` sets are exactly the names in the class's `JSON_MAPPING` |
| Models.FromMapping | atmdb/models.py:54-56 | the base `from_json` gives an instance of `cls` whose every mapped attribute is `json.get(key)`, None for a missing key |
| Models.SetAdd | atmdb/models.py:85-88 | adding a model to a set adds its key, keeps the set free of equal models, and leaves the set unchanged when an equal model is already present |
| Models.ContainsFollowsRule | atmdb/models.py:21-28 | `item in model` is False without a CONTAINS rule; otherwise it is False for an item that is not an instance of the named class, and is the `in` test on the named attribute for one that is |
| Models.InSetById | atmdb/models.py:28 | in a set of credits, a model is found iff some member has its class and an equal id; an unhashable id raises TypeError |
| Models.SetKeyInSetExample | atmdb/models.py:28 | `set() in {BaseModel(1)}` is False, while `set() in {}` on a dict raises TypeError |
| Models.ContainsExamples | tests/test_models.py:55-64 | a star is in a movie whose cast lists it, a movie is in a person whose credits list it, and nothing is in a BaseModel |
| Models.Hash | atmdb/models.py:33-34 | `hash(v)` succeeds exactly on hashable values and otherwise raises TypeError |
| Models.DunderEq | atmdb/models.py:30-31 | `self.__eq__(other)` holds iff other is a model with an equal id and `isinstance(other, type(self))`: any model for a BaseModel, the same class otherwise |
| Models.ModelsEqual | atmdb/models.py:30-31 | `a == b` on two models implies the same class and equal ids |
| Models.Contains | atmdb/models.py:21-28 | `item in model` is False on a BaseModel and for an item that is not an instance of the class the CONTAINS rule names; its only error is a TypeError |
| Models.In | atmdb/models.py:28 | `x in coll` never fails on a list; on a dict it succeeds iff x is hashable; on a set it succeeds iff x is hashable or is itself a set, which the set retries as a frozenset and never finds among models; its only error is a TypeError |
| ModelDecode.Decode | atmdb/models.py:43-56 | a successful `from_json` returns an instance of the class it was called on |
| ModelDecode.DecodeEachSucceeds | atmdb/models.py:85-88 | the credits comprehension succeeds iff every item decodes to a model with a hashable id |
| ModelDecode.DecodeEachSpec | atmdb/models.py:85-88 | a successful comprehension holds one model per distinct (class, id) among the decoded items, each of them one of the decoded models, with no two equal; of several equal decoded models the set keeps the one from the earliest item |
| ModelDecode.DecodeEachShape | atmdb/models.py:85-88 | a successful comprehension extends what it started from, keeps it free of equal models, and adds exactly the keys of the decoded items |
| ModelDecode.DecodeEachOrigin | atmdb/models.py:86-87 | every model of a successful comprehension was already there or is the decode of one of the items |
| ModelDecode.DecodeEachFirst | atmdb/models.py:85-88 | each model a successful comprehension adds has a key not already present and is the one decoded from the earliest item with that key |
| ModelDecode.DecodeEach | atmdb/models.py:85-88 | the comprehension's result is at least as long as what it started from, plus at most one model per item (that the start is kept as a prefix is DecodeEachShape); its errors are those of `from_json`, AttributeError and TypeError |
| ModelDecode.Credits | atmdb/models.py:85-88 | the credits stored are None or a non-empty set (`or None`); decoding them raises only AttributeError or TypeError |
| ModelDecode.CreditsAbsent | atmdb/models.py:119-122 | None is stored exactly when the credits key is missing, or it holds a dict whose `cast` is missing or empty (`or None` turns an empty set into None) |
| ModelDecode.CreditsFailure | atmdb/models.py:119-122 | decoding the credits fails exactly when they are present but not a dict, or `cast` is a list with an item that does not decode to a hashable model, or `cast` is some other value that cannot be iterated as credits |
| ModelDecode.CreditsDecodedSet | atmdb/models.py:85-88 | credits that are not None come from a `cast` list and are a non-empty set, without equal members, of the other class, whose keys are those of the decoded items; each member is the model decoded from the earliest item with its (class, id) |
| ModelDecode.DecodedAttributes | atmdb/models.py:118-123 | `from_json` sets every mapped attribute to `json.get(key)`, except that a subclass's credits attribute holds the decoded credits; the base decode never fails on a dict, a subclass's fails exactly when its credits do |
| ModelDecode.DecodeNonDict | atmdb/models.py:54-56 | a value that is not a dict raises AttributeError (it has no `.get`) and is left as it was |
| ModelDecode.CreditsInPlaceFrame | atmdb/models.py:85-87 | before the final store, the recursive decodes change the caller's dict only under the key the credits are read from |
| ModelDecode.InPlaceAgrees | atmdb/models.py:84-89 | `from_json` that writes into the dict returns the same result as the pure decode |
| ModelDecode.CreditsInPlaceAgrees | atmdb/models.py:119-122 | the credits decoded while writing into the nested dicts are the pure decode's credits |
| ModelDecode.EachInPlaceAgrees | atmdb/models.py:86-87 | decoding each credit while writing into its dict gives the pure comprehension's outcome |
| ModelDecode.InPlaceState | atmdb/models.py:85-89 | after a successful `from_json`, the credits key holds the decoded set or None, the dict's key order is kept (a new key goes last), and no key other than the credits key and the one read from has changed; a BaseModel leaves the dict untouched |
| ModelDecode.DecodeInPlace | atmdb/models.py:84-89 | `from_json` as written leaves a non-dict unchanged with an AttributeError; a successful call returns an instance of the class it was called on; its errors are AttributeError and TypeError |
| ModelDecode.CreditsInPlace | atmdb/models.py:118-123 | the credits decoded while writing into the nested dicts are None or a non-empty set, the caller's value is still a dict, and the errors are AttributeError and TypeError |
| ModelDecode.DecodeEachInPlace | atmdb/models.py:86-87 | decoding each credit while writing into its dict returns one rewritten dict per remaining item and adds at most one model per item |
| ModelDecode.PersonFromJsonTwiceFails | atmdb/models.py:119-121 | a second `Person.from_json` on the dict the first one succeeded on raises AttributeError |
| ModelDecode.MovieFromJsonTwiceFails | atmdb/models.py:85-87 | a second `Movie.from_json` on the same dict raises AttributeError whenever its `cast` was a non-empty list |
| ModelDecode.Dict.Store | atmdb/models.py:85 | `json[key] = v` replaces the value of an existing key in place and appends a new key |
| ModelDecode.FromJson | atmdb/models.py:84-89 | `from_json` on a dict object returns the pure decode and leaves the dict as `DecodeInPlace` describes |
| ModelDecode.FromJsonNoWrite | atmdb/models.py:118-123 | the corrected `from_json` returns the same result without writing into the caller's dict |
| ModelDecode.DecodeTwice | atmdb/models.py:118-123 | with the corrected `from_json`, decoding the same dict twice gives the same result both times |
| ModelDecode.BaseModelFromJsonExample | tests/test_models.py:5-6 | `BaseModel.from_json(dict(id=1)) == BaseModel(id_=1)` |
| ModelDecode.MovieFromJsonExample | tests/test_models.py:19-30 | a movie's JSON with one cast member decodes to that title and the one-person set |
| ModelDecode.PersonFromJsonExample | tests/test_models.py:41-52 | a person's JSON with one credit decodes to that name and the one-movie set |
| ModelDecode.FirstOfEqualKeptExample | atmdb/models.py:85-88 | of two cast dicts with id 7 and names "a" and "b", the set holds the one person named "a" |
| ModelRepr.NatRepr | atmdb/models.py:39 | the repr of a natural number is non-empty decimal digits with no leading zero |
| ModelRepr.NatReprRoundTrip | atmdb/models.py:39 | reading back the digits of a natural number gives the number |
| ModelRepr.IntReprRoundTrip | atmdb/models.py:39 | `int(repr(n)) == n` for every int |
| ModelRepr.UnescapeEscape | atmdb/models.py:39 | every escape that `repr` writes into a string literal reads back to the original characters |
| ModelRepr.StrReprRoundTrip | atmdb/models.py:39 | `repr(s)` is quoted at both ends with the quote Python picks, and its body reads back as `s` |
| ModelRepr.ReprFollowsMapping | atmdb/models.py:36-41 | `repr(model)` is the class name and `attr=repr(getattr(model, attr))` for each `JSON_MAPPING` attribute in order, joined by `, ` |
| ModelRepr.ReprValue | atmdb/models.py:39 | `{!r}` of a value is non-empty; an int's repr reads back as the int, a string's is quoted at both ends with the quote Python picks and its body reads back as the string, and a model's starts with its class name and `(` |
| ModelRepr.Repr | atmdb/models.py:36-41 | `repr(model)` starts with the class name and `(` and ends with `)` |
| ModelRepr.ReprExample | tests/test_models.py:7 | `repr(BaseModel.from_json(dict(id=1))) == 'BaseModel(id_=1)'` |
| ModelRepr.StrReprQuoteExample | atmdb/models.py:39 | a string holding a single quote and no double quote is written in double quotes |
| ModelRepr.StrReprEscapeExample | atmdb/models.py:39 | a newline in a string is written as the escape `\n` |
| Utils.Client.Get | atmdb/utils.py:99 | `get_*(id_=id)` returns the oracle's detail for the id and appends that one call to the client's log |
| Utils.Client.Find | atmdb/utils.py:122 | `find_*(query)` returns the oracle's candidates and appends that one call to the client's log |
| Utils.Collections | atmdb/utils.py:94 | the arguments to `set.intersection` are each item's attribute, in item order; any item without the attribute makes the call an AttributeError |
| Utils.KeepIn | atmdb/utils.py:94 | iterating one set against another keeps exactly the models in both, without equal members, each taken from the iterated set |
| Utils.ListMatches | atmdb/utils.py:94 | intersecting with a list succeeds iff every element is hashable, and keeps exactly the models in both, each of them an element of the list |
| Utils.IntersectOne | atmdb/utils.py:94 | one step of `set.intersection` succeeds iff the argument is iterable with hashable elements (otherwise TypeError), and keeps exactly the models in both |
| Utils.IntersectRest | atmdb/utils.py:94 | the remaining steps of `set.intersection` succeed iff every later argument is iterable, and otherwise raise TypeError |
| Utils.IntersectRestSpec | atmdb/utils.py:94 | the remaining steps succeed iff every later argument is iterable; the result then holds exactly the keys in the running set and in every later argument |
| Utils.Intersection | atmdb/utils.py:94 | `set.intersection(*colls)` succeeds iff there is a first argument, it is a set and the rest are iterable; otherwise it raises TypeError |
| Utils.IntersectionSpec | atmdb/utils.py:94 | `set.intersection(*colls)` succeeds iff there is a first argument, it is a set and the rest are iterable; it then holds exactly the models found in every argument, with no two equal |
| Utils.IntersectionWithinEach | atmdb/utils.py:94 | every model of the intersection is in each of the sets it was taken from, and `in` on each such set finds it |
| Utils.FetchAll | atmdb/utils.py:97-100 | the results list holds the fetched detail of each element, in iteration order |
| Utils.GetCalls | atmdb/utils.py:98-99 | one `get_*(id_=item.id_)` call per element, in iteration order |
| Utils.OverlapOutcome | atmdb/utils.py:94-101 | `_overlap` fails iff the intersection does, and then calls nothing; without a resolver it returns the intersection itself and calls nothing; with one it returns a list of one result per element and one call per element |
| Utils.Overlap | atmdb/utils.py:94-101 | `_overlap` on a client returns `OverlapOutcome` and appends exactly its calls to the client's log |
| Utils.OverlapWithoutClient | atmdb/utils.py:94-96 | without a client or a get method, `_overlap` returns the intersection itself: the models in every item's attribute; it fails iff some item lacks the attribute or `set.intersection` rejects its arguments |
| Utils.OverlapWithClient | atmdb/utils.py:97-101 | with a client, `_overlap` returns one fetched detail per element of the intersection, in order, with one get call per element; on an error it makes no call |
| Utils.OneGetPerElement | atmdb/utils.py:98-100 | for a set of models of one class, no two get calls ask for equal ids |
| Utils.OverlappingMovies | atmdb/utils.py:17 | `overlapping_movies` is `_overlap` on `movie_credits` with `get_movie` |
| Utils.OverlappingActors | atmdb/utils.py:33 | `overlapping_actors` is `_overlap` on `cast` with `get_person` |
| Utils.LookupStep | atmdb/utils.py:121-126 | one pass of the loop: once an earlier query has raised, nothing changes; otherwise the pass makes at least one call |
| Utils.Lookups | atmdb/utils.py:120-126 | the loop's only error is a ValueError; on success it holds one detail per query and made two calls per query |
| Utils.LookUpOne | atmdb/utils.py:122-125 | one pass calls `find_*(query)`, and when there are candidates returns the detail of the first from `get_*(id_=…)`, logging exactly those calls |
| Utils.LookupsMiss | atmdb/utils.py:122-124 | a query without candidates ends the loop with `ValueError('no result found for ' + repr(query))` after its one search |
| Utils.LookupsHit | atmdb/utils.py:122-126 | a query with candidates appends the detail of its first candidate, after one search and one get |
| Utils.LookupsStopAtFailure | atmdb/utils.py:121-124 | once a query has failed, the later queries change neither the outcome nor the calls |
| Utils.LookUpAll | atmdb/utils.py:120-126 | the loop of `_find_overlap` returns `Lookups(queries)` and appends exactly its calls to the client's log |
| Utils.CallOverlapFunction | atmdb/utils.py:127 | `overlap_function(results, client)` is the overlap of the results with the client, with its calls |
| Utils.FindOverlap | atmdb/utils.py:104-127 | `_find_overlap` either fails with the lookup error after the lookup calls, or returns the overlap of the details after the lookup calls and then the overlap's calls |
| Utils.FirstMiss | atmdb/utils.py:121-124 | the first query without candidates, if any: none of the queries before it misses, and there is none exactly when every query has candidates |
| Utils.FirstHits | atmdb/utils.py:125-126 | one detail per query, that of its first candidate, in query order |
| Utils.HitCalls | atmdb/utils.py:122-125 | two calls per query |
| Utils.HitCallsSearch | atmdb/utils.py:121-122 | the queries searched are exactly the queries, once each and in order |
| Utils.LookupsSucceed | atmdb/utils.py:120-126 | when every query has candidates, the loop collects the detail of each query's first candidate, in query order, with one search and one get per query |
| Utils.LookupsFailFast | atmdb/utils.py:121-124 | when some query has no candidates, the loop fails with the ValueError naming the first such query, after one search and one get per earlier query and the search of that query |
| Utils.FailFastSearches | atmdb/utils.py:121-124 | on failure, the queries searched are exactly those up to and including the first one without candidates; later queries are never searched |
| Utils.FindOverlappingMovies | atmdb/utils.py:52-53 | `find_overlapping_movies` is `find_person` and `get_person` per name, then the overlap of the people's movie credits with its `get_movie` calls |
| Utils.FindOverlappingActors | atmdb/utils.py:73-74 | `find_overlapping_actors` is `find_movie` and `get_movie` per title, then the overlap of the movies' casts with its `get_person` calls |
| Utils.IntersectionExample | tests/test_utils.py:26-29 | the credits {1, 2}, {2, 3} and {2, 4} intersect in movie 2 alone |
| Utils.OverlappingMoviesExample | tests/test_utils.py:50-56 | the three people overlap in movie 2; with a client the result is the one fetched movie, and `get_movie(id_=2)` is the only call |

## Left out

- Floating-point values: JSON numbers are modelled as ints. NaN and its identity shortcut in `==` and `in` therefore do not arise.
- `atmdb/client.py` and `atmdb/core.py` are not part of this model: HTTP, URL building, caching and the service's JSON. The client is the oracle `Api` together with a log of the calls made.
- Asynchrony: each `await` is an ordinary call. The calls are made in program order and nothing runs concurrently.
- `find_*` results: the oracle always returns a list of candidates. A `None` or any other falsy non-list result from the service is not modelled.
- Hash numbers: `hash` yields the key that equal values share, not CPython's integer. `Models.Hash` therefore says when hashing fails and which values hash alike, but not the number.
- Set iteration order: a Python set is a sequence with no two equal members, and it is iterated in that stored order. CPython's hash-table order is not modelled, so the order of `_overlap`'s results list is the model's order.
- `BaseModel.__subclasses__()`: it becomes the fixed table `Movie`/`Person`, because that is what the module defines.
- `__init__` keyword checking: calling `Movie(...)` without `title`, or with an unknown keyword, raises TypeError in Python. The model builds instances directly from the datatype. `from_json` always passes every mapped keyword, so it never reaches that error.
- Aliasing of nested dicts: `DecodeInPlace` returns the caller's dict after the call by value. A nested dict shared between two places is not modelled as one object. `Dict` models only the top-level dict as an object.
- `repr` of strings: the escapes cover `\\`, the quote, `\n`, `\r`, `\t` and `\xhh` for ASCII control characters and DEL. Non-printable characters above ASCII, which CPython writes as `\x`, `\u` or `\U` escapes, are written as themselves.
- `repr` of a set is written in the stored order. `repr` of a bool, None, list and dict follows Python's format; only ints and strings have round-trip lemmas.
- frozenset, tuples and other iterables as `set.intersection` arguments: only the values that can reach it here (sets, lists, strings, dicts and non-iterables) are modelled.

## Findings

| source | as written | input that shows it | evidently intended | confidence | as-written member | corrected member |
|---|---|---|---|---|---|---|
| atmdb/models.py:119-123 | `Person.from_json` stores the decoded set (or None) into the caller's dict under `movie_credits`, the key it reads the credits from. `Movie.from_json` decodes each cast member with `Person.from_json`, which writes into that member's dict. | `d = {'id': 1, 'name': 'x', 'movie_credits': {'cast': []}}`; `Person.from_json(d)` succeeds, and a second `Person.from_json(d)` raises AttributeError (`None.get`). For Movie: any JSON whose `credits.cast` is a non-empty list fails on the second call. | decoding does not change its input, so the same parsed JSON can be decoded again with the same result | not executed | ModelDecode.PersonFromJsonTwiceFails, ModelDecode.MovieFromJsonTwiceFails | ModelDecode.FromJsonNoWrite, ModelDecode.DecodeTwice |
