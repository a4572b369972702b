/**
 * atmdb/utils.py: the overlap of one collection attribute across several
 * models (`set.intersection`), optionally resolved through the client one
 * detail fetch per element, and the find-then-overlap pipeline that maps each
 * query to the detail of its first search hit.
 *
 * The client is an oracle: `Api` says what each get/find call returns, and
 * the client object records every call it receives in `calls`.
 */
module Utils {
  import opened Wrappers
  import opened Models
  import ModelRepr

  // ---------------------------------------------------------------------
  // The client as an oracle with a call trace
  // ---------------------------------------------------------------------

  datatype GetMethod = GetMovie | GetPerson
  datatype FindMethod = FindMovie | FindPerson

  /** One awaited client call: `find_*(query)` or `get_*(id_=id)`. */
  datatype Call = FindCall(finder: FindMethod, query: string) | GetCall(getter: GetMethod, id: Value)

  /** What the TMDb service answers: a detail object per id, a list of candidates per query. */
  datatype Api = Api(movie: Value -> Value, person: Value -> Value,
                     findMovie: string -> seq<Entity>, findPerson: string -> seq<Entity>)

  function Fetch(api: Api, g: GetMethod, id: Value): Value
  {
    match g
    case GetMovie => api.movie(id)
    case GetPerson => api.person(id)
  }

  function Search(api: Api, f: FindMethod, query: string): seq<Entity>
  {
    match f
    case FindMovie => api.findMovie(query)
    case FindPerson => api.findPerson(query)
  }

  class Client {
    const api: Api
    /** Every call made on this client so far, oldest first. */
    var calls: seq<Call>

    constructor (api: Api)
      ensures this.api == api && calls == []
    {
      this.api := api;
      calls := [];
    }

    method Get(g: GetMethod, id: Value) returns (r: Value)
      modifies this
      ensures r == Fetch(api, g, id)
      ensures calls == old(calls) + [GetCall(g, id)]
    {
      r := Fetch(api, g, id);
      calls := calls + [GetCall(g, id)];
    }

    method Find(f: FindMethod, query: string) returns (r: seq<Entity>)
      modifies this
      ensures r == Search(api, f, query)
      ensures calls == old(calls) + [FindCall(f, query)]
    {
      r := Search(api, f, query);
      calls := calls + [FindCall(f, query)];
    }
  }

  // ---------------------------------------------------------------------
  // set.intersection
  // ---------------------------------------------------------------------

  /** `getattr(v, attr)`; None stands for AttributeError (only models have the collection attributes). */
  function Attr(v: Value, attr: string): Option<Value>
  {
    if v.PModel? then GetAttr(v.model, attr) else None
  }

  /** The argument tuple `*(getattr(item, attr) for item in items)`, evaluated in full before the call. */
  function Collections(items: seq<Value>, attr: string): (r: Result<seq<Value>, PyError>)
    ensures r.Success? <==> forall j :: 0 <= j < |items| ==> Attr(items[j], attr).Some?
    ensures r.Success? ==> (|r.value| == |items| &&
      forall j :: 0 <= j < |items| ==> r.value[j] == Attr(items[j], attr).value)
    ensures r.Failure? ==> r.error == AttributeError
  {
    if items == [] then Success([])
    else
      match Collections(items[..|items| - 1], attr)
      case Failure(e) => Failure(e)
      case Success(colls) =>
        match Attr(items[|items| - 1], attr)
        case None => Failure(AttributeError)
        case Some(c) => Success(colls + [c])
  }

  lemma KeySetSnoc(s: seq<Entity>)
    requires s != []
    ensures KeySet(s) == KeySet(s[..|s| - 1]) + {ModelKey(s[|s| - 1])}
  {
    var p := s[..|s| - 1];
    forall k | k in KeySet(s) ensures k in KeySet(p) + {ModelKey(s[|s| - 1])} {
      var i :| 0 <= i < |s| && ModelKey(s[i]) == k;
      if i < |p| { assert ModelKey(p[i]) == k; }
    }
    forall k | k in KeySet(p) ensures k in KeySet(s) {
      var i :| 0 <= i < |p| && ModelKey(p[i]) == k;
      assert ModelKey(s[i]) == k;
    }
  }

  /**
   * The members of `it` (a set being iterated) that are also in the set with
   * keys `lookup`, added one by one to a fresh result set.
   */
  function KeepIn(it: seq<Entity>, lookup: set<Key>): (r: seq<Entity>)
    ensures KeySet(r) == KeySet(it) * lookup
    ensures NoDup(r)
    ensures forall j :: 0 <= j < |r| ==> r[j] in it
  {
    if it == [] then []
    else
      var last := it[|it| - 1];
      var r := KeepIn(it[..|it| - 1], lookup);
      KeySetSnoc(it);
      if ModelKey(last) in lookup then SetAdd(r, last) else r
  }

  /** The model keys of the models in a list; other elements never equal a model. */
  function ListKeys(items: seq<Value>): set<Key>
  {
    set j | 0 <= j < |items| && items[j].PModel? :: ModelKey(items[j].model)
  }

  lemma ListKeysSnoc(items: seq<Value>)
    requires items != []
    ensures var last := items[|items| - 1];
      ListKeys(items) == ListKeys(items[..|items| - 1]) + (if last.PModel? then {ModelKey(last.model)} else {})
  {
    var p := items[..|items| - 1];
    forall k | k in ListKeys(items) ensures k in ListKeys(p) + (if items[|items| - 1].PModel? then {ModelKey(items[|items| - 1].model)} else {}) {
      var j :| 0 <= j < |items| && items[j].PModel? && ModelKey(items[j].model) == k;
      if j < |p| { assert p[j] == items[j]; }
    }
    forall k | k in ListKeys(p) ensures k in ListKeys(items) {
      var j :| 0 <= j < |p| && p[j].PModel? && ModelKey(p[j].model) == k;
      assert items[j] == p[j];
    }
  }

  /** Intersecting the set so with a list: each element is hashed, and kept when so holds an equal one. */
  function ListMatches(so: seq<Entity>, items: seq<Value>): (r: Result<seq<Entity>, PyError>)
    ensures r.Success? <==> forall j :: 0 <= j < |items| ==> Hashable(items[j])
    ensures r.Failure? ==> r.error == TypeError
    ensures r.Success? ==> KeySet(r.value) == ListKeys(items) * KeySet(so) && NoDup(r.value)
    ensures r.Success? ==> forall j :: 0 <= j < |r.value| ==> PModel(r.value[j]) in items
  {
    if items == [] then Success([])
    else
      var last := items[|items| - 1];
      match ListMatches(so, items[..|items| - 1])
      case Failure(e) => Failure(e)
      case Success(acc) =>
        ListKeysSnoc(items);
        if !Hashable(last) then Failure(TypeError)
        else if last.PModel? && ModelKey(last.model) in KeySet(so) then Success(SetAdd(acc, last.model))
        else Success(acc)
  }

  /** What `set.intersection` accepts after its first argument: a set, or an iterable of hashable elements. */
  predicate Iterable(v: Value)
  {
    match v
    case PSet(_) => true
    case PStr(_) => true
    case PDict(_, _) => true
    case PList(items) => forall j :: 0 <= j < |items| ==> Hashable(items[j])
    case _ => false
  }

  /** The keys of the models an iterable yields; strings and dicts yield strings, which never equal a model. */
  function ElemKeys(v: Value): set<Key>
  {
    match v
    case PSet(members) => KeySet(members)
    case PList(items) => ListKeys(items)
    case _ => {}
  }

  /**
   * One step of `set.intersection`: against a set, the smaller of the two is
   * iterated and its elements are the ones kept; any other iterable is
   * iterated and its elements are kept.
   */
  function IntersectOne(so: seq<Entity>, other: Value): (r: Result<seq<Entity>, PyError>)
    ensures r.Success? <==> Iterable(other)
    ensures r.Failure? ==> r.error == TypeError
    ensures r.Success? ==> KeySet(r.value) == KeySet(so) * ElemKeys(other) && NoDup(r.value)
  {
    match other
    case PSet(ms) => if |ms| > |so| then Success(KeepIn(so, KeySet(ms))) else Success(KeepIn(ms, KeySet(so)))
    case PList(items) => ListMatches(so, items)
    case PStr(_) => Success([])
    case PDict(_, _) => Success([])
    case _ => Failure(TypeError)
  }

  function IntersectRest(acc: seq<Entity>, colls: seq<Value>, i: nat): (r: Result<seq<Entity>, PyError>)
    requires i <= |colls|
    ensures r.Success? <==> AllIterable(colls, i)
    ensures r.Failure? ==> r.error == TypeError
    decreases |colls| - i
  {
    if i == |colls| then Success(acc)
    else
      match IntersectOne(acc, colls[i])
      case Failure(e) => Failure(e)
      case Success(acc') => IntersectRest(acc', colls, i + 1)
  }

  /** `set.intersection(*colls)`: no argument, or a first argument that is not a set, is a TypeError. */
  function Intersection(colls: seq<Value>): (r: Result<seq<Entity>, PyError>)
    ensures r.Success? <==> |colls| > 0 && colls[0].PSet? && AllIterable(colls, 1)
    ensures r.Failure? ==> r.error == TypeError
  {
    if |colls| == 0 || !colls[0].PSet? then Failure(TypeError)
    else IntersectRest(colls[0].members, colls, 1)
  }

  /** Every collection from index i on is iterable. */
  predicate AllIterable(colls: seq<Value>, i: nat)
  {
    forall j :: i <= j < |colls| ==> Iterable(colls[j])
  }

  /** The key is in every collection from index i on. */
  predicate InAll(k: Key, colls: seq<Value>, i: nat)
  {
    forall j :: i <= j < |colls| ==> k in ElemKeys(colls[j])
  }

  lemma {:induction false} IntersectRestSpec(acc: seq<Entity>, colls: seq<Value>, i: nat)
    requires i <= |colls|
    ensures IntersectRest(acc, colls, i).Success? <==> AllIterable(colls, i)
    ensures IntersectRest(acc, colls, i).Failure? ==> IntersectRest(acc, colls, i).error == TypeError
    ensures IntersectRest(acc, colls, i).Success? ==>
      var r := IntersectRest(acc, colls, i).value;
      (NoDup(acc) || i < |colls| ==> NoDup(r)) &&
      forall k :: k in KeySet(r) <==> k in KeySet(acc) && InAll(k, colls, i)
    decreases |colls| - i
  {
    if i < |colls| {
      var step := IntersectOne(acc, colls[i]);
      assert AllIterable(colls, i) <==> Iterable(colls[i]) && AllIterable(colls, i + 1);
      if step.Success? {
        IntersectRestSpec(step.value, colls, i + 1);
        var rest := IntersectRest(acc, colls, i);
        assert rest == IntersectRest(step.value, colls, i + 1);
        if rest.Success? {
          forall k ensures k in KeySet(rest.value) <==> k in KeySet(acc) && InAll(k, colls, i) {
            assert InAll(k, colls, i) <==> k in ElemKeys(colls[i]) && InAll(k, colls, i + 1);
          }
        }
      } else {
        assert IntersectRest(acc, colls, i) == Failure(step.error);
      }
    }
  }

  /**
   * `set.intersection(*colls)` succeeds iff there is a first argument, it is
   * a set and every later one is iterable; then it holds exactly the models
   * that are in every collection, each once.
   */
  lemma IntersectionSpec(colls: seq<Value>)
    ensures Intersection(colls).Success? <==>
      |colls| > 0 && colls[0].PSet? && forall j :: 1 <= j < |colls| ==> Iterable(colls[j])
    ensures Intersection(colls).Failure? ==> Intersection(colls).error == TypeError
    ensures Intersection(colls).Success? ==>
      var r := Intersection(colls).value;
      (NoDup(colls[0].members) || |colls| >= 2 ==> NoDup(r)) &&
      forall k :: k in KeySet(r) <==> forall j :: 0 <= j < |colls| ==> k in ElemKeys(colls[j])
  {
    if |colls| > 0 && colls[0].PSet? {
      IntersectRestSpec(colls[0].members, colls, 1);
      var r := Intersection(colls);
      if r.Success? {
        forall k ensures k in KeySet(r.value) <==> forall j :: 0 <= j < |colls| ==> k in ElemKeys(colls[j]) {
          if forall j :: 0 <= j < |colls| ==> k in ElemKeys(colls[j]) {
            assert k in ElemKeys(colls[0]);
          }
        }
      }
    }
  }

  /** Every element of the overlap is in each of the sets it was taken from. */
  lemma IntersectionWithinEach(colls: seq<Value>, m: Entity, j: nat)
    requires Intersection(colls).Success? && m in Intersection(colls).value
    requires j < |colls| && colls[j].PSet?
    ensures ModelKey(m) in KeySet(colls[j].members)
    ensures Hashable(m.id) ==> In(PModel(m), colls[j]) == Success(true)
  {
    IntersectionSpec(colls);
    var r := Intersection(colls).value;
    var i :| 0 <= i < |r| && r[i] == m;
    assert ModelKey(r[i]) in KeySet(r);
    assert KeyOf(PModel(m)) == KModel(KindOf(m), KeyOf(m.id));
  }

  // ---------------------------------------------------------------------
  // _overlap
  // ---------------------------------------------------------------------

  /** What `_overlap` returns: the set itself, or the list of resolved details. */
  datatype Overlapped = AsSet(members: seq<Entity>) | AsList(results: seq<Value>)

  /** `set.intersection(*(getattr(item, attr) for item in items))` */
  function Overlapping(items: seq<Value>, attr: string): Result<seq<Entity>, PyError>
  {
    match Collections(items, attr)
    case Failure(e) => Failure(e)
    case Success(colls) => Intersection(colls)
  }

  /** The details fetched for the elements of s, in the order they are iterated. */
  function FetchAll(api: Api, g: GetMethod, s: seq<Entity>): (r: seq<Value>)
    ensures |r| == |s|
    ensures forall j :: 0 <= j < |s| ==> r[j] == Fetch(api, g, s[j].id)
  {
    if s == [] then [] else FetchAll(api, g, s[..|s| - 1]) + [Fetch(api, g, s[|s| - 1].id)]
  }

  /** The calls fetching the details of the elements of s. */
  function GetCalls(g: GetMethod, s: seq<Entity>): (c: seq<Call>)
    ensures |c| == |s|
    ensures forall j :: 0 <= j < |s| ==> c[j] == GetCall(g, s[j].id)
  {
    if s == [] then [] else GetCalls(g, s[..|s| - 1]) + [GetCall(g, s[|s| - 1].id)]
  }

  /** The client and get method `_overlap` resolves with, when it has both. */
  function Resolver(client: Client?, g: Option<GetMethod>): Option<(Api, GetMethod)>
  {
    if client == null || g.None? then None else Some((client.api, g.value))
  }

  /** What `_overlap` returns, and the calls it makes on the client. */
  function OverlapOutcome(items: seq<Value>, attr: string, resolver: Option<(Api, GetMethod)>): (r: (Result<Overlapped, PyError>, seq<Call>))
    ensures r.0.Success? <==> Overlapping(items, attr).Success?
    ensures r.0.Failure? ==> r.1 == []
    ensures resolver.None? ==> r.1 == [] && (r.0.Success? ==> r.0.value == AsSet(Overlapping(items, attr).value))
    ensures resolver.Some? && r.0.Success? ==>
      r.0.value.AsList? && |r.0.value.results| == |r.1| == |Overlapping(items, attr).value|
  {
    match Overlapping(items, attr)
    case Failure(e) => (Failure(e), [])
    case Success(s) =>
      match resolver
      case None => (Success(AsSet(s)), [])
      case Some((api, g)) => (Success(AsList(FetchAll(api, g, s))), GetCalls(g, s))
  }

  /** `_overlap(items, attr, client, get_method)` */
  method Overlap(items: seq<Value>, attr: string, client: Client?, g: Option<GetMethod>) returns (r: Result<Overlapped, PyError>)
    modifies client
    ensures r == OverlapOutcome(items, attr, Resolver(client, g)).0
    ensures client != null ==> client.calls == old(client.calls) + OverlapOutcome(items, attr, Resolver(client, g)).1
  {
    var overlap := Overlapping(items, attr);
    if overlap.Failure? {
      return Failure(overlap.error);
    }
    var s := overlap.value;
    if client == null || g.None? {
      return Success(AsSet(s));
    }
    var results: seq<Value> := [];
    var i := 0;
    while i < |s|
      invariant 0 <= i <= |s|
      invariant results == FetchAll(client.api, g.value, s[..i])
      invariant client.calls == old(client.calls) + GetCalls(g.value, s[..i])
    {
      var result := client.Get(g.value, s[i].id);
      results := results + [result];
      assert s[..i + 1][..i] == s[..i];
      i := i + 1;
    }
    assert s[..i] == s;
    r := Success(AsList(results));
  }

  /**
   * Without a client, or without a get method, `_overlap` returns the
   * intersection itself and calls nothing; its errors are those of getattr
   * and `set.intersection`.
   */
  lemma OverlapWithoutClient(items: seq<Value>, attr: string)
    ensures OverlapOutcome(items, attr, None).1 == []
    ensures OverlapOutcome(items, attr, None).0.Success? ==>
      OverlapOutcome(items, attr, None).0.value.AsSet? &&
      var s := OverlapOutcome(items, attr, None).0.value.members;
      Collections(items, attr).Success? &&
      forall k :: k in KeySet(s) <==> forall j :: 0 <= j < |items| ==> k in ElemKeys(Attr(items[j], attr).value)
    ensures OverlapOutcome(items, attr, None).0.Failure? <==>
      (exists j :: 0 <= j < |items| && Attr(items[j], attr).None?) ||
      (Collections(items, attr).Success? && Intersection(Collections(items, attr).value).Failure?)
  {
    var c := Collections(items, attr);
    if c.Success? {
      IntersectionSpec(c.value);
    }
  }

  /**
   * With a client, `_overlap` returns one fetched detail per element of the
   * intersection, and calls `get` exactly once per element; on an error it
   * calls nothing.
   */
  lemma OverlapWithClient(items: seq<Value>, attr: string, api: Api, g: GetMethod)
    ensures var (r, calls) := OverlapOutcome(items, attr, Some((api, g)));
      (r.Failure? ==> calls == [] && r == OverlapOutcome(items, attr, None).0) &&
      (r.Success? ==>
        var s := OverlapOutcome(items, attr, None).0.value.members;
        r.value.AsList? && |r.value.results| == |s| && |calls| == |s| &&
        forall j :: 0 <= j < |s| ==> r.value.results[j] == Fetch(api, g, s[j].id) && calls[j] == GetCall(g, s[j].id))
  {
  }

  /**
   * When the overlap is a set of models of one class (as the credits sets
   * are), no two of the get calls ask for equal ids: `get` is called once
   * per element.
   */
  lemma {:induction false} OneGetPerElement(g: GetMethod, s: seq<Entity>, kind: Kind)
    requires NoDup(s) && forall j :: 0 <= j < |s| ==> KindOf(s[j]) == kind
    ensures forall i, j :: 0 <= i < j < |s| ==> !Equal(GetCalls(g, s)[i].id, GetCalls(g, s)[j].id)
  {
    forall i, j | 0 <= i < j < |s| ensures !Equal(GetCalls(g, s)[i].id, GetCalls(g, s)[j].id) {
      assert ModelKey(s[i]) != ModelKey(s[j]);
    }
  }

  /** `overlapping_movies(people, client)`: the overlap of the people's `movie_credits`, resolved with `get_movie`. */
  method OverlappingMovies(people: seq<Value>, client: Client?) returns (r: Result<Overlapped, PyError>)
    modifies client
    ensures r == OverlapOutcome(people, "movie_credits", Resolver(client, Some(GetMovie))).0
    ensures client != null ==> client.calls == old(client.calls) + OverlapOutcome(people, "movie_credits", Resolver(client, Some(GetMovie))).1
  {
    r := Overlap(people, "movie_credits", client, Some(GetMovie));
  }

  /** `overlapping_actors(movies, client)`: the overlap of the movies' `cast`, resolved with `get_person`. */
  method OverlappingActors(movies: seq<Value>, client: Client?) returns (r: Result<Overlapped, PyError>)
    modifies client
    ensures r == OverlapOutcome(movies, "cast", Resolver(client, Some(GetPerson))).0
    ensures client != null ==> client.calls == old(client.calls) + OverlapOutcome(movies, "cast", Resolver(client, Some(GetPerson))).1
  {
    r := Overlap(movies, "cast", client, Some(GetPerson));
  }

  // ---------------------------------------------------------------------
  // _find_overlap
  // ---------------------------------------------------------------------

  /** The overlap function `_find_overlap` is handed. */
  datatype OverlapFunction = OverlappingMoviesFn | OverlappingActorsFn

  function OverlapAttr(o: OverlapFunction): string
  {
    match o
    case OverlappingMoviesFn => "movie_credits"
    case OverlappingActorsFn => "cast"
  }

  function OverlapGetter(o: OverlapFunction): GetMethod
  {
    match o
    case OverlappingMoviesFn => GetMovie
    case OverlappingActorsFn => GetPerson
  }

  /** `'no result found for {!r}'.format(query)` */
  function NoResult(query: string): PyError
  {
    ValueError("no result found for " + ModelRepr.StrRepr(query))
  }

  /** The outcome of the loop of `_find_overlap` so far: the details collected, or the error that stopped it. */
  type Progress = (Result<seq<Value>, PyError>, seq<Call>)

  /**
   * One pass of the loop of `_find_overlap`: search the query; with no
   * candidates, stop with a ValueError; otherwise fetch the detail of the
   * first candidate and append it.
   */
  function LookupStep(api: Api, f: FindMethod, g: GetMethod, prev: Progress, q: string): (r: Progress)
    ensures prev.0.Failure? ==> r == prev
    ensures prev.0.Success? ==> |r.1| > |prev.1|
  {
    if prev.0.Failure? then prev
    else
      var candidates := Search(api, f, q);
      if candidates == [] then (Failure(NoResult(q)), prev.1 + [FindCall(f, q)])
      else (Success(prev.0.value + [Fetch(api, g, candidates[0].id)]), prev.1 + [FindCall(f, q), GetCall(g, candidates[0].id)])
  }

  /** The loop of `_find_overlap` over the queries: the details and the calls made. */
  function Lookups(api: Api, f: FindMethod, g: GetMethod, queries: seq<string>): (r: Progress)
    ensures r.0.Failure? ==> r.0.error.ValueError?
    ensures r.0.Success? ==> |r.0.value| == |queries| && |r.1| == 2 * |queries|
  {
    if queries == [] then (Success([]), [])
    else LookupStep(api, f, g, Lookups(api, f, g, queries[..|queries| - 1]), queries[|queries| - 1])
  }

  lemma LookupsPrefix(api: Api, f: FindMethod, g: GetMethod, queries: seq<string>, i: nat)
    requires i < |queries|
    ensures Lookups(api, f, g, queries[..i + 1]) == LookupStep(api, f, g, Lookups(api, f, g, queries[..i]), queries[i])
  {
    assert queries[..i + 1][..i] == queries[..i];
  }

  /** A query without candidates ends a successful prefix with its ValueError, after its one search. */
  lemma LookupsMiss(api: Api, f: FindMethod, g: GetMethod, queries: seq<string>, i: nat)
    requires i < |queries| && Lookups(api, f, g, queries[..i]).0.Success?
    requires Search(api, f, queries[i]) == []
    ensures Lookups(api, f, g, queries[..i + 1]) ==
      (Failure(NoResult(queries[i])), Lookups(api, f, g, queries[..i]).1 + [FindCall(f, queries[i])])
  {
    LookupsPrefix(api, f, g, queries, i);
  }

  /** A query with candidates extends a successful prefix by the detail of its first candidate, after a search and a get. */
  lemma LookupsHit(api: Api, f: FindMethod, g: GetMethod, queries: seq<string>, i: nat)
    requires i < |queries| && Lookups(api, f, g, queries[..i]).0.Success?
    requires Search(api, f, queries[i]) != []
    ensures var id := Search(api, f, queries[i])[0].id;
      Lookups(api, f, g, queries[..i + 1]) ==
      (Success(Lookups(api, f, g, queries[..i]).0.value + [Fetch(api, g, id)]),
       Lookups(api, f, g, queries[..i]).1 + [FindCall(f, queries[i]), GetCall(g, id)])
  {
    LookupsPrefix(api, f, g, queries, i);
  }

  /** Once a prefix of the queries has failed, the later queries change nothing. */
  lemma {:induction false} LookupsStopAtFailure(api: Api, f: FindMethod, g: GetMethod, queries: seq<string>, n: nat)
    requires n <= |queries| && Lookups(api, f, g, queries[..n]).0.Failure?
    ensures Lookups(api, f, g, queries) == Lookups(api, f, g, queries[..n])
    decreases |queries|
  {
    if n == |queries| {
      assert queries[..n] == queries;
    } else {
      var p := queries[..|queries| - 1];
      assert p[..n] == queries[..n];
      LookupsStopAtFailure(api, f, g, p, n);
    }
  }

  /** The body of the loop of `_find_overlap`: search the query and, when it has candidates, fetch the first. */
  method LookUpOne(client: Client, f: FindMethod, g: GetMethod, q: string) returns (r: Option<Value>)
    modifies client
    ensures Search(client.api, f, q) == [] ==> r.None? && client.calls == old(client.calls) + [FindCall(f, q)]
    ensures Search(client.api, f, q) != [] ==>
      var id := Search(client.api, f, q)[0].id;
      r == Some(Fetch(client.api, g, id)) && client.calls == old(client.calls) + [FindCall(f, q), GetCall(g, id)]
  {
    var candidates := client.Find(f, q);
    if candidates == [] {
      return None;
    }
    var result := client.Get(g, candidates[0].id);
    return Some(result);
  }

  /** The loop of `_find_overlap`: search each query and fetch its first candidate, or raise. */
  method LookUpAll(queries: seq<string>, client: Client, f: FindMethod, g: GetMethod) returns (r: Result<seq<Value>, PyError>)
    modifies client
    ensures r == Lookups(client.api, f, g, queries).0
    ensures client.calls == old(client.calls) + Lookups(client.api, f, g, queries).1
  {
    var results: seq<Value> := [];
    ghost var trace: seq<Call> := [];
    var i := 0;
    assert queries[..0] == [];
    while i < |queries|
      invariant 0 <= i <= |queries|
      invariant client.calls == old(client.calls) + trace
      invariant Lookups(client.api, f, g, queries[..i]) == (Success(results), trace)
    {
      var hit := LookUpOne(client, f, g, queries[i]);
      if hit.None? {
        LookupsMiss(client.api, f, g, queries, i);
        LookupsStopAtFailure(client.api, f, g, queries, i + 1);
        return Failure(NoResult(queries[i]));
      }
      LookupsHit(client.api, f, g, queries, i);
      results := results + [hit.value];
      trace := trace + [FindCall(f, queries[i]), GetCall(g, Search(client.api, f, queries[i])[0].id)];
      i := i + 1;
    }
    assert queries[..i] == queries;
    r := Success(results);
  }

  /** `overlap_function(results, client)` for the two overlap functions. */
  method CallOverlapFunction(o: OverlapFunction, results: seq<Value>, client: Client) returns (r: Result<Overlapped, PyError>)
    modifies client
    ensures r == OverlapOutcome(results, OverlapAttr(o), Some((client.api, OverlapGetter(o)))).0
    ensures client.calls == old(client.calls) + OverlapOutcome(results, OverlapAttr(o), Some((client.api, OverlapGetter(o)))).1
  {
    if o == OverlappingMoviesFn {
      r := OverlappingMovies(results, client);
    } else {
      r := OverlappingActors(results, client);
    }
  }

  /** `_find_overlap(queries, client, find_method, get_method, overlap_function)` */
  method FindOverlap(queries: seq<string>, client: Client, f: FindMethod, g: GetMethod, o: OverlapFunction)
    returns (r: Result<Overlapped, PyError>)
    modifies client
    ensures Lookups(client.api, f, g, queries).0.Failure? ==>
      r == Failure(Lookups(client.api, f, g, queries).0.error) && client.calls == old(client.calls) + Lookups(client.api, f, g, queries).1
    ensures Lookups(client.api, f, g, queries).0.Success? ==>
      var overlap := OverlapOutcome(Lookups(client.api, f, g, queries).0.value, OverlapAttr(o), Some((client.api, OverlapGetter(o))));
      r == overlap.0 && client.calls == old(client.calls) + Lookups(client.api, f, g, queries).1 + overlap.1
  {
    var looked := LookUpAll(queries, client, f, g);
    if looked.Failure? {
      return Failure(looked.error);
    }
    r := CallOverlapFunction(o, looked.value, client);
  }

  /** The queries searched, in the order of the calls. */
  function Searched(calls: seq<Call>): seq<string>
  {
    if calls == [] then []
    else Searched(calls[..|calls| - 1]) + (if calls[|calls| - 1].FindCall? then [calls[|calls| - 1].query] else [])
  }

  lemma {:induction false} SearchedAppend(a: seq<Call>, b: seq<Call>)
    ensures Searched(a + b) == Searched(a) + Searched(b)
    decreases |b|
  {
    if b != [] {
      var p := b[..|b| - 1];
      var last := b[|b| - 1];
      assert (a + b)[..|a + b| - 1] == a + p;
      assert (a + b)[|a + b| - 1] == last;
      SearchedAppend(a, p);
      var tail := if last.FindCall? then [last.query] else [];
      calc {
        Searched(a + b);
        Searched(a + p) + tail;
        Searched(a) + Searched(p) + tail;
        Searched(a) + (Searched(p) + tail);
        Searched(a) + Searched(b);
      }
    } else {
      assert a + b == a;
    }
  }

  /** The index of the first query without candidates, if any. */
  function FirstMiss(api: Api, f: FindMethod, queries: seq<string>): (k: Option<nat>)
    ensures k.Some? ==> (k.value < |queries| && Search(api, f, queries[k.value]) == [] &&
      forall j :: 0 <= j < k.value ==> Search(api, f, queries[j]) != [])
    ensures k.None? <==> forall j :: 0 <= j < |queries| ==> Search(api, f, queries[j]) != []
  {
    if queries == [] then None
    else
      var p := queries[..|queries| - 1];
      match FirstMiss(api, f, p)
      case Some(k) => Some(k)
      case None => if Search(api, f, queries[|queries| - 1]) == [] then Some(|queries| - 1) else None
  }

  /** The details of the first candidates of the queries, in query order. */
  function FirstHits(api: Api, f: FindMethod, g: GetMethod, queries: seq<string>): (r: seq<Value>)
    requires forall j :: 0 <= j < |queries| ==> Search(api, f, queries[j]) != []
    ensures |r| == |queries|
    ensures forall j :: 0 <= j < |queries| ==> r[j] == Fetch(api, g, Search(api, f, queries[j])[0].id)
  {
    if queries == [] then []
    else FirstHits(api, f, g, queries[..|queries| - 1]) + [Fetch(api, g, Search(api, f, queries[|queries| - 1])[0].id)]
  }

  /** A search and the get of its first candidate for each query, in query order. */
  function HitCalls(api: Api, f: FindMethod, g: GetMethod, queries: seq<string>): (c: seq<Call>)
    requires forall j :: 0 <= j < |queries| ==> Search(api, f, queries[j]) != []
    ensures |c| == 2 * |queries|
  {
    if queries == [] then []
    else
      var q := queries[|queries| - 1];
      HitCalls(api, f, g, queries[..|queries| - 1]) + [FindCall(f, q), GetCall(g, Search(api, f, q)[0].id)]
  }

  /** Each query is searched once, in order. */
  lemma {:induction false} HitCallsSearch(api: Api, f: FindMethod, g: GetMethod, queries: seq<string>)
    requires forall j :: 0 <= j < |queries| ==> Search(api, f, queries[j]) != []
    ensures Searched(HitCalls(api, f, g, queries)) == queries
  {
    if queries != [] {
      var p := queries[..|queries| - 1];
      var q := queries[|queries| - 1];
      var step := [FindCall(f, q), GetCall(g, Search(api, f, q)[0].id)];
      HitCallsSearch(api, f, g, p);
      SearchedAppend(HitCalls(api, f, g, p), step);
      assert Searched(step) == [q] by {
        assert step[..1] == [FindCall(f, q)];
        assert Searched([FindCall(f, q)]) == [q] by { assert [FindCall(f, q)][..0] == []; }
      }
      assert p + [q] == queries;
    }
  }

  /**
   * When every query has a candidate, `_find_overlap` collects the detail of
   * each query's first candidate, in query order, with one search and one get
   * per query.
   */
  lemma {:induction false} LookupsSucceed(api: Api, f: FindMethod, g: GetMethod, queries: seq<string>)
    requires FirstMiss(api, f, queries).None?
    ensures Lookups(api, f, g, queries).0 == Success(FirstHits(api, f, g, queries))
    ensures Lookups(api, f, g, queries).1 == HitCalls(api, f, g, queries)
  {
    if queries != [] {
      var p := queries[..|queries| - 1];
      assert FirstMiss(api, f, p).None?;
      LookupsSucceed(api, f, g, p);
    }
  }

  /**
   * When some query has no candidates, `_find_overlap` fails with the
   * ValueError naming the first such query; the queries before it were each
   * searched and fetched, and the queries after it are never searched.
   */
  lemma LookupsFailFast(api: Api, f: FindMethod, g: GetMethod, queries: seq<string>)
    requires FirstMiss(api, f, queries).Some?
    ensures var k := FirstMiss(api, f, queries).value;
      Lookups(api, f, g, queries).0 == Failure(NoResult(queries[k]))
    ensures var k := FirstMiss(api, f, queries).value;
      Lookups(api, f, g, queries).1 == HitCalls(api, f, g, queries[..k]) + [FindCall(f, queries[k])]
  {
    var k := FirstMiss(api, f, queries).value;
    assert FirstMiss(api, f, queries[..k]).None?;
    LookupsSucceed(api, f, g, queries[..k]);
    LookupsMiss(api, f, g, queries, k);
    LookupsStopAtFailure(api, f, g, queries, k + 1);
  }

  /** On a failed lookup, the queries searched are exactly those up to and including the one without candidates. */
  lemma FailFastSearches(api: Api, f: FindMethod, g: GetMethod, queries: seq<string>)
    requires FirstMiss(api, f, queries).Some?
    ensures var k := FirstMiss(api, f, queries).value;
      Searched(Lookups(api, f, g, queries).1) == queries[..k + 1]
  {
    var k := FirstMiss(api, f, queries).value;
    LookupsFailFast(api, f, g, queries);
    HitCallsSearch(api, f, g, queries[..k]);
    SearchedAppend(HitCalls(api, f, g, queries[..k]), [FindCall(f, queries[k])]);
    assert Searched([FindCall(f, queries[k])]) == [queries[k]] by { assert [FindCall(f, queries[k])][..0] == []; }
    assert queries[..k] + [queries[k]] == queries[..k + 1];
  }

  /** `find_overlapping_movies(names, client)`: people found by name, their movie credits overlapped. */
  method FindOverlappingMovies(names: seq<string>, client: Client) returns (r: Result<Overlapped, PyError>)
    modifies client
    ensures Lookups(client.api, FindPerson, GetPerson, names).0.Failure? ==>
      r == Failure(Lookups(client.api, FindPerson, GetPerson, names).0.error) && client.calls == old(client.calls) + Lookups(client.api, FindPerson, GetPerson, names).1
    ensures Lookups(client.api, FindPerson, GetPerson, names).0.Success? ==>
      var overlap := OverlapOutcome(Lookups(client.api, FindPerson, GetPerson, names).0.value, OverlapAttr(OverlappingMoviesFn), Some((client.api, OverlapGetter(OverlappingMoviesFn))));
      r == overlap.0 && client.calls == old(client.calls) + Lookups(client.api, FindPerson, GetPerson, names).1 + overlap.1
  {
    r := FindOverlap(names, client, FindPerson, GetPerson, OverlappingMoviesFn);
  }

  /** `find_overlapping_actors(titles, client)`: movies found by title, their casts overlapped. */
  method FindOverlappingActors(titles: seq<string>, client: Client) returns (r: Result<Overlapped, PyError>)
    modifies client
    ensures Lookups(client.api, FindMovie, GetMovie, titles).0.Failure? ==>
      r == Failure(Lookups(client.api, FindMovie, GetMovie, titles).0.error) && client.calls == old(client.calls) + Lookups(client.api, FindMovie, GetMovie, titles).1
    ensures Lookups(client.api, FindMovie, GetMovie, titles).0.Success? ==>
      var overlap := OverlapOutcome(Lookups(client.api, FindMovie, GetMovie, titles).0.value, OverlapAttr(OverlappingActorsFn), Some((client.api, OverlapGetter(OverlappingActorsFn))));
      r == overlap.0 && client.calls == old(client.calls) + Lookups(client.api, FindMovie, GetMovie, titles).1 + overlap.1
  {
    r := FindOverlap(titles, client, FindMovie, GetMovie, OverlappingActorsFn);
  }

  // ---------------------------------------------------------------------
  // The overlap examples of the test suite
  // ---------------------------------------------------------------------

  function TestMovie(id: int): Entity
  {
    Movie(PNone, PNone, PStr(""), PInt(id))
  }

  function TestPerson(id: int, credits: seq<Entity>): Value
  {
    PModel(Person(PSet(credits), PStr(""), PNone, PInt(id)))
  }

  /** The test suite's sets of credits {1, 2}, {2, 3} and {2, 4}. */
  function TestCredits(): seq<Value>
  {
    [PSet([TestMovie(1), TestMovie(2)]), PSet([TestMovie(2), TestMovie(3)]), PSet([TestMovie(2), TestMovie(4)])]
  }

  lemma IntersectionExample()
    ensures Intersection(TestCredits()) == Success([TestMovie(2)])
  {
    var m2 := TestMovie(2);
    IntersectFirstPair();
    IntersectSecondPair();
    assert IntersectRest([m2], TestCredits(), 3) == Success([m2]);
  }

  /** {1, 2} with {2, 3}: the sizes are equal, so the argument {2, 3} is iterated. */
  lemma IntersectFirstPair()
    ensures IntersectOne([TestMovie(1), TestMovie(2)], PSet([TestMovie(2), TestMovie(3)])) == Success([TestMovie(2)])
  {
    var m2 := TestMovie(2);
    var lookup := KeySet([TestMovie(1), m2]);
    assert ModelKey(m2) in lookup by {
      assert ModelKey([TestMovie(1), m2][1]) in lookup;
    }
    assert ModelKey(TestMovie(3)) !in lookup by {
      assert KeyOf(PInt(3)) != KeyOf(PInt(1)) && KeyOf(PInt(3)) != KeyOf(PInt(2));
    }
    KeepInSingle(m2, lookup);
    assert KeepIn([m2, TestMovie(3)], lookup) == KeepIn([m2], lookup) by {
      assert [m2, TestMovie(3)][..1] == [m2];
    }
  }

  /** {2} with {2, 4}: the argument is larger, so {2} is iterated. */
  lemma IntersectSecondPair()
    ensures IntersectOne([TestMovie(2)], PSet([TestMovie(2), TestMovie(4)])) == Success([TestMovie(2)])
  {
    var m2 := TestMovie(2);
    assert ModelKey(m2) in KeySet([m2, TestMovie(4)]) by {
      assert ModelKey([m2, TestMovie(4)][0]) in KeySet([m2, TestMovie(4)]);
    }
    KeepInSingle(m2, KeySet([m2, TestMovie(4)]));
  }

  /** Iterating a one-model set keeps that model exactly when its key is looked up. */
  lemma KeepInSingle(m: Entity, lookup: set<Key>)
    requires ModelKey(m) in lookup
    ensures KeepIn([m], lookup) == [m]
  {
    assert [m][..0] == [];
    assert KeepIn([], lookup) == [];
    assert ModelKey(m) !in KeySet([]);
  }

  /**
   * People with credits {1, 2}, {2, 3} and {2, 4} overlap in movie 2 alone;
   * with a client, get_movie(id_=2) is the one call.
   */
  lemma OverlappingMoviesExample(api: Api)
    ensures var people := [TestPerson(1, [TestMovie(1), TestMovie(2)]), TestPerson(2, [TestMovie(2), TestMovie(3)]),
                           TestPerson(2, [TestMovie(2), TestMovie(4)])];
      OverlapOutcome(people, "movie_credits", None) == (Success(AsSet([TestMovie(2)])), []) &&
      OverlapOutcome(people, "movie_credits", Some((api, GetMovie))) ==
        (Success(AsList([api.movie(PInt(2))])), [GetCall(GetMovie, PInt(2))])
  {
    var people := [TestPerson(1, [TestMovie(1), TestMovie(2)]), TestPerson(2, [TestMovie(2), TestMovie(3)]),
                   TestPerson(2, [TestMovie(2), TestMovie(4)])];
    assert Collections(people, "movie_credits") == Success(TestCredits()) by {
      forall j | 0 <= j < 3 ensures Attr(people[j], "movie_credits") == Some(TestCredits()[j]) {
      }
      assert Collections(people, "movie_credits").Success?;
      var c := Collections(people, "movie_credits").value;
      assert |c| == 3 && c[0] == TestCredits()[0] && c[1] == TestCredits()[1] && c[2] == TestCredits()[2];
      assert c == TestCredits();
    }
    IntersectionExample();
    assert FetchAll(api, GetMovie, [TestMovie(2)]) == [api.movie(PInt(2))];
    assert GetCalls(GetMovie, [TestMovie(2)]) == [GetCall(GetMovie, PInt(2))];
  }
}
