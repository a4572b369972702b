/**
 * `from_json` of atmdb/models.py: the base mapping, and the Movie and Person
 * overrides that decode nested credits into a set of the other class. `Decode`
 * is what from_json returns; `DecodeInPlace` also gives the caller's dict as
 * from_json leaves it, since the overrides write the decoded set into that dict
 * (and, through the recursive decodes, into the dicts nested under it).
 */
module ModelDecode {
  import opened Wrappers
  import opened Models

  /** The key a subclass reads its nested credits from (`credits` / `movie_credits`). */
  function SourceKey(k: Kind): string
    requires k != BaseKind
  {
    if k == MovieKind then "credits" else "movie_credits"
  }

  /** The key (and JSON_MAPPING attribute) the decoded set is written to (`cast` / `movie_credits`). */
  function WrittenKey(k: Kind): string
    requires k != BaseKind
  {
    if k == MovieKind then "cast" else "movie_credits"
  }

  /** The class the credits are decoded as: a movie's cast are people, a person's credits are movies. */
  function ElemKind(k: Kind): Kind
    requires k != BaseKind
  {
    if k == MovieKind then PersonKind else MovieKind
  }

  /** `{...} or None`: an empty set becomes None. */
  function CreditsSlot(members: seq<Entity>): Value
  {
    if members == [] then PNone else PSet(members)
  }

  /**
   * `for x in v: X.from_json(x)` for a value v that is not a list: an empty
   * str, dict or set yields nothing; a non-empty one yields a str or a model,
   * which has no `.get`; None, bools, ints and models are not iterable.
   */
  function IterateNonList(v: Value): Result<(), PyError>
  {
    match v
    case PStr(s) => if s == [] then Success(()) else Failure(AttributeError)
    case PDict(_, entries) => if entries == map[] then Success(()) else Failure(AttributeError)
    case PSet(members) => if members == [] then Success(()) else Failure(AttributeError)
    case _ => Failure(TypeError)
  }

  // ---------------------------------------------------------------------
  // What from_json returns
  // ---------------------------------------------------------------------

  /** `cls.from_json(json)` for the class of kind k. */
  function Decode(k: Kind, json: Value): (r: Result<Entity, PyError>)
    ensures r.Success? ==> KindOf(r.value) == k
    ensures r.Failure? ==> r.error == AttributeError || r.error == TypeError
    decreases json, 1
  {
    if !json.PDict? then Failure(AttributeError)
    else if k == BaseKind then Success(FromMapping(k, json))
    else
      match Credits(k, json)
      case Failure(e) => Failure(e)
      case Success(slot) => Success(FromMapping(k, DictStore(json, WrittenKey(k), slot)))
  }

  /** The value `json[WrittenKey(k)] = {...} or None` stores. */
  function Credits(k: Kind, json: Value): (r: Result<Value, PyError>)
    requires json.PDict? && k != BaseKind
    ensures r.Success? ==> r.value == PNone || (r.value.PSet? && r.value.members != [])
    ensures r.Failure? ==> r.error == AttributeError || r.error == TypeError
    decreases json, 0
  {
    var sk := SourceKey(k);
    if sk !in json.entries then Success(PNone)
    else
      var source := json.entries[sk];
      if !source.PDict? then Failure(AttributeError)
      else if "cast" !in source.entries then Success(PNone)
      else
        var cast := source.entries["cast"];
        if cast.PList? then
          match DecodeEach(ElemKind(k), cast.items, 0, [])
          case Failure(e) => Failure(e)
          case Success(members) => Success(CreditsSlot(members))
        else
          match IterateNonList(cast)
          case Failure(e) => Failure(e)
          case Success(_) => Success(PNone)
  }

  /** The set comprehension over items[i..], added to acc: each decoded model is hashed (by its id) before it is added. */
  function DecodeEach(k: Kind, items: seq<Value>, i: nat, acc: seq<Entity>): (r: Result<seq<Entity>, PyError>)
    requires i <= |items|
    ensures r.Success? ==> |acc| <= |r.value| <= |acc| + (|items| - i)
    ensures r.Failure? ==> r.error == AttributeError || r.error == TypeError
    decreases PList(items), |items| - i
  {
    if i == |items| then Success(acc)
    else
      match Decode(k, items[i])
      case Failure(e) => Failure(e)
      case Success(m) =>
        if Hashable(PModel(m)) then DecodeEach(k, items, i + 1, SetAdd(acc, m)) else Failure(TypeError)
  }

  // ---------------------------------------------------------------------
  // from_json as written: the result and the caller's dict afterwards
  // ---------------------------------------------------------------------

  /** `cls.from_json(json)` as written: what it returns, and the caller's dict after the call. */
  function DecodeInPlace(k: Kind, json: Value): (r: (Result<Entity, PyError>, Value))
    ensures !json.PDict? ==> r == (Failure(AttributeError), json)
    ensures r.0.Success? ==> KindOf(r.0.value) == k
    ensures r.0.Failure? ==> r.0.error == AttributeError || r.0.error == TypeError
    decreases json, 1
  {
    if !json.PDict? then (Failure(AttributeError), json)
    else if k == BaseKind then (Success(FromMapping(k, json)), json)
    else
      var (slot, json1) := CreditsInPlace(k, json);
      match slot
      case Failure(e) => (Failure(e), json1)
      case Success(s) =>
        var json2 := DictStore(json1, WrittenKey(k), s);
        (Success(FromMapping(k, json2)), json2)
  }

  /** Credits, together with the dict after the recursive decodes wrote into the dicts of the credits list. */
  function CreditsInPlace(k: Kind, json: Value): (r: (Result<Value, PyError>, Value))
    requires json.PDict? && k != BaseKind
    ensures r.1.PDict?
    ensures r.0.Success? ==> r.0.value == PNone || (r.0.value.PSet? && r.0.value.members != [])
    ensures r.0.Failure? ==> r.0.error == AttributeError || r.0.error == TypeError
    decreases json, 0
  {
    var sk := SourceKey(k);
    if sk !in json.entries then (Success(PNone), json)
    else
      var source := json.entries[sk];
      if !source.PDict? then (Failure(AttributeError), json)
      else if "cast" !in source.entries then (Success(PNone), json)
      else
        var cast := source.entries["cast"];
        if cast.PList? then
          var (res, items') := DecodeEachInPlace(ElemKind(k), cast.items, 0, []);
          var json1 := DictStore(json, sk, DictStore(source, "cast", PList(items')));
          match res
          case Failure(e) => (Failure(e), json1)
          case Success(members) => (Success(CreditsSlot(members)), json1)
        else
          match IterateNonList(cast)
          case Failure(e) => (Failure(e), json)
          case Success(_) => (Success(PNone), json)
  }

  /** DecodeEach, together with items[i..] as the recursive decodes left them. */
  function DecodeEachInPlace(k: Kind, items: seq<Value>, i: nat, acc: seq<Entity>): (r: (Result<seq<Entity>, PyError>, seq<Value>))
    requires i <= |items|
    ensures |r.1| == |items| - i
    ensures r.0.Success? ==> |acc| <= |r.0.value| <= |acc| + (|items| - i)
    ensures r.0.Failure? ==> r.0.error == AttributeError || r.0.error == TypeError
    decreases PList(items), |items| - i
  {
    if i == |items| then (Success(acc), [])
    else
      var (res, item') := DecodeInPlace(k, items[i]);
      match res
      case Failure(e) => (Failure(e), [item'] + items[i + 1..])
      case Success(m) =>
        if Hashable(PModel(m)) then
          var (res', rest) := DecodeEachInPlace(k, items, i + 1, SetAdd(acc, m));
          (res', [item'] + rest)
        else (Failure(TypeError), [item'] + items[i + 1..])
  }

  // ---------------------------------------------------------------------
  // Properties of the decoded value
  // ---------------------------------------------------------------------

  /** An item the set comprehension accepts: it decodes, and the model it gives is hashable. */
  predicate Decodes(k: Kind, v: Value)
  {
    Decode(k, v).Success? && Hashable(PModel(Decode(k, v).value))
  }

  /** The keys of the models items[i..] decode to. */
  function DecodedKeys(k: Kind, items: seq<Value>, i: nat): set<Key>
  {
    set j | i <= j < |items| && Decode(k, items[j]).Success? :: ModelKey(Decode(k, items[j]).value)
  }

  /** The set comprehension succeeds iff every item decodes to a hashable model. */
  lemma {:induction false} DecodeEachSucceeds(k: Kind, items: seq<Value>, i: nat, acc: seq<Entity>)
    requires i <= |items|
    ensures DecodeEach(k, items, i, acc).Success? <==> forall j :: i <= j < |items| ==> Decodes(k, items[j])
    decreases |items| - i
  {
    if i < |items| {
      var d := Decode(k, items[i]);
      if d.Success? && Hashable(PModel(d.value)) {
        assert DecodeEach(k, items, i, acc) == DecodeEach(k, items, i + 1, SetAdd(acc, d.value));
        DecodeEachSucceeds(k, items, i + 1, SetAdd(acc, d.value));
        assert Decodes(k, items[i]);
      } else {
        assert DecodeEach(k, items, i, acc).Failure?;
        assert !Decodes(k, items[i]);
      }
    }
  }

  lemma DecodedKeysStep(k: Kind, items: seq<Value>, i: nat)
    requires i < |items| && Decode(k, items[i]).Success?
    ensures DecodedKeys(k, items, i) == {ModelKey(Decode(k, items[i]).value)} + DecodedKeys(k, items, i + 1)
  {
    forall key | key in DecodedKeys(k, items, i)
      ensures key in {ModelKey(Decode(k, items[i]).value)} + DecodedKeys(k, items, i + 1)
    {
      var j :| i <= j < |items| && Decode(k, items[j]).Success? && key == ModelKey(Decode(k, items[j]).value);
      if j > i { assert key in DecodedKeys(k, items, i + 1); }
    }
  }

  /**
   * A successful set comprehension holds what acc held followed by one model
   * per distinct (class, id) among the decoded items that acc does not already
   * hold: of several equal decoded models, the one from the earliest item.
   */
  lemma DecodeEachSpec(k: Kind, items: seq<Value>, i: nat, acc: seq<Entity>)
    requires i <= |items| && DecodeEach(k, items, i, acc).Success?
    ensures var out := DecodeEach(k, items, i, acc).value;
      acc <= out &&
      (NoDup(acc) ==> NoDup(out)) &&
      KeySet(out) == KeySet(acc) + DecodedKeys(k, items, i) &&
      (forall x :: x in out ==> x in acc || exists j :: i <= j < |items| && Decode(k, items[j]) == Success(x)) &&
      forall p :: |acc| <= p < |out| ==> ModelKey(out[p]) !in KeySet(acc) && FirstDecoded(k, items, i, out[p])
  {
    DecodeEachShape(k, items, i, acc);
    DecodeEachOrigin(k, items, i, acc);
    DecodeEachFirst(k, items, i, acc);
  }

  /** The comprehension only appends to acc, keeps it free of equal models, and adds the decoded keys. */
  lemma {:induction false} DecodeEachShape(k: Kind, items: seq<Value>, i: nat, acc: seq<Entity>)
    requires i <= |items| && DecodeEach(k, items, i, acc).Success?
    ensures var out := DecodeEach(k, items, i, acc).value;
      acc <= out && (NoDup(acc) ==> NoDup(out)) && KeySet(out) == KeySet(acc) + DecodedKeys(k, items, i)
    decreases |items| - i
  {
    if i < |items| {
      var d := Decode(k, items[i]).value;
      var acc' := SetAdd(acc, d);
      assert DecodeEach(k, items, i, acc) == DecodeEach(k, items, i + 1, acc');
      DecodeEachShape(k, items, i + 1, acc');
      DecodedKeysStep(k, items, i);
    }
  }

  /** Every model the comprehension adds is one of the decoded items. */
  lemma {:induction false} DecodeEachOrigin(k: Kind, items: seq<Value>, i: nat, acc: seq<Entity>)
    requires i <= |items| && DecodeEach(k, items, i, acc).Success?
    ensures forall x :: x in DecodeEach(k, items, i, acc).value ==>
      x in acc || exists j :: i <= j < |items| && Decode(k, items[j]) == Success(x)
    decreases |items| - i
  {
    if i < |items| {
      var d := Decode(k, items[i]).value;
      var acc' := SetAdd(acc, d);
      var out := DecodeEach(k, items, i, acc).value;
      assert out == DecodeEach(k, items, i + 1, acc').value;
      DecodeEachOrigin(k, items, i + 1, acc');
      forall x | x in out ensures x in acc || exists j :: i <= j < |items| && Decode(k, items[j]) == Success(x) {
        if x in acc' {
          var p :| 0 <= p < |acc'| && acc'[p] == x;
          assert x in acc || x == d;
        } else {
          var j :| i + 1 <= j < |items| && Decode(k, items[j]) == Success(x);
        }
      }
    }
  }

  /** Each model added after acc is new to acc and comes from the earliest item decoding to a model equal to it. */
  lemma {:induction false} DecodeEachFirst(k: Kind, items: seq<Value>, i: nat, acc: seq<Entity>)
    requires i <= |items| && DecodeEach(k, items, i, acc).Success?
    ensures var out := DecodeEach(k, items, i, acc).value;
      forall p :: |acc| <= p < |out| ==> ModelKey(out[p]) !in KeySet(acc) && FirstDecoded(k, items, i, out[p])
    decreases |items| - i
  {
    if i < |items| {
      var d := Decode(k, items[i]).value;
      var acc' := SetAdd(acc, d);
      var out := DecodeEach(k, items, i, acc).value;
      assert out == DecodeEach(k, items, i + 1, acc').value;
      DecodeEachFirst(k, items, i + 1, acc');
      DecodeEachShape(k, items, i + 1, acc');
      forall p | |acc| <= p < |out| ensures ModelKey(out[p]) !in KeySet(acc) && FirstDecoded(k, items, i, out[p]) {
        if ModelKey(d) !in KeySet(acc) && p == |acc| {
          assert acc' == acc + [d] && out[p] == acc'[p];
          assert NoEarlierEqual(k, items, i, i, d);
        } else {
          assert p >= |acc'|;
          assert ModelKey(d) in KeySet(acc') && KeySet(acc) <= KeySet(acc');
          FirstDecodedStep(k, items, i, out[p]);
        }
      }
    }
  }

  /**
   * No item of items[i..j] decodes to a model equal to x: among several equal
   * decoded models, the set comprehension keeps the one added first.
   */
  predicate NoEarlierEqual(k: Kind, items: seq<Value>, i: nat, j: nat, x: Entity)
  {
    forall j' :: i <= j' < j && j' < |items| ==>
      Decode(k, items[j']).Success? && ModelKey(Decode(k, items[j']).value) != ModelKey(x)
  }

  /** x is decoded from an item of items[i..], and no earlier item of items[i..] decodes to a model equal to it. */
  predicate FirstDecoded(k: Kind, items: seq<Value>, i: nat, x: Entity)
  {
    exists j :: i <= j < |items| && Decode(k, items[j]) == Success(x) && NoEarlierEqual(k, items, i, j, x)
  }

  lemma FirstDecodedStep(k: Kind, items: seq<Value>, i: nat, x: Entity)
    requires i < |items| && Decode(k, items[i]).Success?
    requires ModelKey(Decode(k, items[i]).value) != ModelKey(x)
    requires FirstDecoded(k, items, i + 1, x)
    ensures FirstDecoded(k, items, i, x)
  {
    var j :| i + 1 <= j < |items| && Decode(k, items[j]) == Success(x) && NoEarlierEqual(k, items, i + 1, j, x);
    assert NoEarlierEqual(k, items, i, j, x);
  }

  /** The value at `json[SourceKey(k)]['cast']`, when both lookups find their key in a dict. */
  function CastOf(k: Kind, json: Value): Option<Value>
    requires json.PDict? && k != BaseKind
  {
    var sk := SourceKey(k);
    if sk in json.entries && json.entries[sk].PDict? && "cast" in json.entries[sk].entries
    then Some(json.entries[sk].entries["cast"])
    else None
  }

  /** A value the comprehension's `for` yields nothing from: an empty list, str, dict or set. */
  predicate EmptyIterable(v: Value)
  {
    v == PList([]) || IterateNonList(v).Success?
  }

  /**
   * Movie.from_json and Person.from_json store None, not an empty set, when
   * the credits or their `cast` are missing or empty.
   */
  lemma CreditsAbsent(k: Kind, json: Value)
    requires json.PDict? && k != BaseKind
    ensures Credits(k, json) == Success(PNone) <==>
      SourceKey(k) !in json.entries ||
      (json.entries[SourceKey(k)].PDict? && (CastOf(k, json).None? || EmptyIterable(CastOf(k, json).value)))
  {
    var c := CastOf(k, json);
    if c.Some? && c.value.PList? && c.value.items != [] {
      var items := c.value.items;
      var res := DecodeEach(ElemKind(k), items, 0, []);
      if res.Success? {
        DecodeEachSpec(ElemKind(k), items, 0, []);
        DecodeEachSucceeds(ElemKind(k), items, 0, []);
        assert ModelKey(Decode(ElemKind(k), items[0]).value) in DecodedKeys(ElemKind(k), items, 0);
      }
    }
  }

  /**
   * The credits fail exactly when they are present but not a dict, or their
   * `cast` is a list with an item that does not decode to a hashable model,
   * or a `cast` that is not a list cannot be iterated.
   */
  lemma CreditsFailure(k: Kind, json: Value)
    requires json.PDict? && k != BaseKind
    ensures Credits(k, json).Failure? <==>
      SourceKey(k) in json.entries &&
      (!json.entries[SourceKey(k)].PDict? ||
       (CastOf(k, json).Some? &&
        var cast := CastOf(k, json).value;
        if cast.PList? then exists j :: 0 <= j < |cast.items| && !Decodes(ElemKind(k), cast.items[j])
        else IterateNonList(cast).Failure?))
  {
    var c := CastOf(k, json);
    if c.Some? && c.value.PList? {
      DecodeEachSucceeds(ElemKind(k), c.value.items, 0, []);
    }
  }

  /**
   * Credits that are not None are a non-empty set of the other class holding
   * one model per distinct (class, id) of the decoded items: of several equal
   * decoded models, the one from the earliest item.
   */
  lemma CreditsDecodedSet(k: Kind, json: Value)
    requires json.PDict? && k != BaseKind
    ensures Credits(k, json).Success? && Credits(k, json).value != PNone ==>
      CastOf(k, json).Some? && CastOf(k, json).value.PList? &&
      var items := CastOf(k, json).value.items;
      var members := Credits(k, json).value.members;
      Credits(k, json).value.PSet? && members != [] && NoDup(members) &&
      KeySet(members) == DecodedKeys(ElemKind(k), items, 0) &&
      (forall x :: x in members ==> KindOf(x) == ElemKind(k) && exists j :: 0 <= j < |items| && Decode(ElemKind(k), items[j]) == Success(x)) &&
      forall p :: 0 <= p < |members| ==> FirstDecoded(ElemKind(k), items, 0, members[p])
  {
    var c := CastOf(k, json);
    if c.Some? && c.value.PList? {
      var items := c.value.items;
      var res := DecodeEach(ElemKind(k), items, 0, []);
      if res.Success? {
        DecodeEachSpec(ElemKind(k), items, 0, []);
        forall x | x in res.value ensures KindOf(x) == ElemKind(k) {
          var j :| 0 <= j < |items| && Decode(ElemKind(k), items[j]) == Success(x);
        }
      }
    }
  }

  /**
   * from_json sets every JSON_MAPPING attribute to `json.get(key)` (None for a
   * missing key), except that a subclass's credits attribute holds the decoded
   * set; the base decode never fails on a dict, a subclass's fails exactly
   * when its credits do.
   */
  lemma DecodedAttributes(k: Kind, json: Value)
    requires json.PDict?
    ensures k == BaseKind ==> Decode(k, json) == Success(BaseModel(DictGet(json, "id", PNone)))
    ensures k != BaseKind ==> (Decode(k, json).Success? <==> Credits(k, json).Success?)
    ensures Decode(k, json).Success? ==>
      forall i :: 0 <= i < |JsonMapping(k)| ==>
        GetAttr(Decode(k, json).value, JsonMapping(k)[i].0) ==
          Some(if k != BaseKind && JsonMapping(k)[i].1 == WrittenKey(k) then Credits(k, json).value
               else DictGet(json, JsonMapping(k)[i].1, PNone))
  {
  }

  /** A non-dict is rejected: `.get` is missing on it. */
  lemma DecodeNonDict(k: Kind, json: Value)
    requires !json.PDict?
    ensures Decode(k, json) == Failure(AttributeError)
    ensures DecodeInPlace(k, json) == (Failure(AttributeError), json)
  {
  }

  // ---------------------------------------------------------------------
  // Properties of the in-place decode
  // ---------------------------------------------------------------------

  /** Before the final write, the recursive decodes change the dict only under SourceKey(k). */
  lemma CreditsInPlaceFrame(k: Kind, json: Value)
    requires json.PDict? && k != BaseKind
    ensures var after := CreditsInPlace(k, json).1;
      after.order == json.order && after.entries.Keys == json.entries.Keys &&
      forall key :: key in json.entries && key != SourceKey(k) ==> after.entries[key] == json.entries[key]
  {
  }

  lemma {:induction false} InPlaceAgrees(k: Kind, json: Value)
    ensures DecodeInPlace(k, json).0 == Decode(k, json)
    decreases json, 1
  {
    if json.PDict? && k != BaseKind {
      CreditsInPlaceAgrees(k, json);
      CreditsInPlaceFrame(k, json);
    }
  }

  lemma {:induction false} CreditsInPlaceAgrees(k: Kind, json: Value)
    requires json.PDict? && k != BaseKind
    ensures CreditsInPlace(k, json).0 == Credits(k, json)
    decreases json, 0
  {
    var sk := SourceKey(k);
    if sk in json.entries {
      var source := json.entries[sk];
      if source.PDict? && "cast" in source.entries {
        var cast := source.entries["cast"];
        if cast.PList? {
          EachInPlaceAgrees(ElemKind(k), cast.items, 0, []);
        }
      }
    }
  }

  lemma {:induction false} EachInPlaceAgrees(k: Kind, items: seq<Value>, i: nat, acc: seq<Entity>)
    requires i <= |items|
    ensures DecodeEachInPlace(k, items, i, acc).0 == DecodeEach(k, items, i, acc)
    decreases PList(items), |items| - i
  {
    if i < |items| {
      InPlaceAgrees(k, items[i]);
      var d := Decode(k, items[i]);
      if d.Success? && Hashable(PModel(d.value)) {
        EachInPlaceAgrees(k, items, i + 1, SetAdd(acc, d.value));
      }
    }
  }

  /**
   * What a successful from_json leaves in the caller's dict: the credits key
   * holds the decoded set or None (never a dict), and no key other than it and
   * the one the credits were read from has changed. For Person the two are the
   * same key, `movie_credits`; for Movie they are `cast` and `credits`.
   */
  lemma InPlaceState(k: Kind, json: Value)
    requires json.PDict?
    ensures k == BaseKind ==> DecodeInPlace(k, json).1 == json
    ensures k != BaseKind && DecodeInPlace(k, json).0.Success? ==>
      var after := DecodeInPlace(k, json).1;
      after.PDict? &&
      after.entries.Keys == json.entries.Keys + {WrittenKey(k)} &&
      after.order == (if WrittenKey(k) in json.entries then json.order else json.order + [WrittenKey(k)]) &&
      Credits(k, json).Success? && after.entries[WrittenKey(k)] == Credits(k, json).value &&
      (after.entries[WrittenKey(k)] == PNone || after.entries[WrittenKey(k)].PSet?) &&
      forall key :: key in json.entries && key != WrittenKey(k) && key != SourceKey(k) ==>
        after.entries[key] == json.entries[key]
  {
    if k != BaseKind {
      CreditsInPlaceFrame(k, json);
      CreditsInPlaceAgrees(k, json);
    }
  }

  // ---------------------------------------------------------------------
  // Decoding the same dict twice
  // ---------------------------------------------------------------------

  /**
   * Person.from_json stores None or a set under `movie_credits`, the key it
   * reads its credits from, so a second from_json on the same dict calls
   * `.get` on that value and raises AttributeError.
   */
  lemma PersonFromJsonTwiceFails(json: Value)
    requires json.PDict? && DecodeInPlace(PersonKind, json).0.Success?
    ensures DecodeInPlace(PersonKind, DecodeInPlace(PersonKind, json).1).0 == Failure(AttributeError)
  {
    InPlaceState(PersonKind, json);
    var after := DecodeInPlace(PersonKind, json).1;
    assert "movie_credits" in after.entries && !after.entries["movie_credits"].PDict?;
    assert CreditsInPlace(PersonKind, after).0 == Failure(AttributeError);
  }

  /**
   * Movie.from_json decodes each cast member with Person.from_json, which
   * writes `movie_credits` into that member's dict; a second Movie.from_json
   * on the same dict then fails on the first member with AttributeError.
   */
  lemma MovieFromJsonTwiceFails(json: Value)
    requires json.PDict? && DecodeInPlace(MovieKind, json).0.Success?
    requires CastOf(MovieKind, json).Some? && CastOf(MovieKind, json).value.PList?
    requires CastOf(MovieKind, json).value.items != []
    ensures DecodeInPlace(MovieKind, DecodeInPlace(MovieKind, json).1).0 == Failure(AttributeError)
  {
    var source := json.entries["credits"];
    var items := source.entries["cast"].items;
    var each := DecodeEachInPlace(PersonKind, items, 0, []);
    var after := DecodeInPlace(MovieKind, json).1;
    assert after == DictStore(CreditsInPlace(MovieKind, json).1, "cast", CreditsInPlace(MovieKind, json).0.value);
    assert CreditsInPlace(MovieKind, json).1 == DictStore(json, "credits", DictStore(source, "cast", PList(each.1)));
    FirstItemDecodedTwice(items, each.1);
    InPlaceAgrees(MovieKind, after);
    CreditsFailOnCast(MovieKind, after, each.1);
  }

  /** After DecodeEachInPlace succeeds on Person dicts, the first of them no longer decodes. */
  lemma FirstItemDecodedTwice(items: seq<Value>, items': seq<Value>)
    requires items != [] && DecodeEachInPlace(PersonKind, items, 0, []).0.Success?
    requires items' == DecodeEachInPlace(PersonKind, items, 0, []).1
    ensures items' != [] && Decode(PersonKind, items'[0]) == Failure(AttributeError)
  {
    var first := DecodeInPlace(PersonKind, items[0]);
    assert first.0.Success? && items'[0] == first.1;
    InPlaceState(PersonKind, items[0]);
    InPlaceAgrees(PersonKind, first.1);
  }

  /** A cast list whose first item fails to decode makes the whole decode fail. */
  lemma CreditsFailOnCast(k: Kind, json: Value, items: seq<Value>)
    requires json.PDict? && k != BaseKind && items != []
    requires SourceKey(k) in json.entries && json.entries[SourceKey(k)].PDict?
    requires "cast" in json.entries[SourceKey(k)].entries
    requires json.entries[SourceKey(k)].entries["cast"] == PList(items)
    requires Decode(ElemKind(k), items[0]) == Failure(AttributeError)
    ensures Decode(k, json) == Failure(AttributeError)
  {
    assert DecodeEach(ElemKind(k), items, 0, []) == Failure(AttributeError);
  }

  /** A dict object the caller owns and hands to from_json. */
  class Dict {
    var order: seq<string>
    var entries: map<string, Value>

    function AsValue(): (v: Value)
      reads this
      ensures v.PDict?
    {
      PDict(order, entries)
    }

    constructor (d: Value)
      requires d.PDict?
      ensures AsValue() == d
    {
      order := d.order;
      entries := d.entries;
    }

    /** `self[key] = v` */
    method Store(key: string, v: Value)
      modifies this
      ensures AsValue() == DictStore(old(AsValue()), key, v)
    {
      if key !in entries {
        order := order + [key];
      }
      entries := entries[key := v];
    }
  }

  /**
   * `cls.from_json(json)` on a dict the caller keeps: a subclass writes the
   * decoded credits into the dict, then the base mapping reads it back.
   */
  method FromJson(k: Kind, json: Dict) returns (r: Result<Entity, PyError>)
    modifies json
    ensures r == Decode(k, old(json.AsValue()))
    ensures json.AsValue() == DecodeInPlace(k, old(json.AsValue())).1
  {
    InPlaceAgrees(k, json.AsValue());
    if k == BaseKind {
      r := Success(FromMapping(k, json.AsValue()));
      return;
    }
    var (slot, nested) := CreditsInPlace(k, json.AsValue());
    // the recursive decodes have written into the dicts nested under SourceKey(k)
    json.order, json.entries := nested.order, nested.entries;
    if slot.Failure? {
      r := Failure(slot.error);
      return;
    }
    json.Store(WrittenKey(k), slot.value);
    r := Success(FromMapping(k, json.AsValue()));
  }

  /**
   * from_json with the decoded set handed to the model instead of written
   * into the caller's dict. It returns what from_json returns and leaves the
   * dict as it was.
   */
  method FromJsonNoWrite(k: Kind, json: Dict) returns (r: Result<Entity, PyError>)
    ensures r == Decode(k, json.AsValue())
  {
    r := Decode(k, json.AsValue());
  }

  /** Without the write, decoding the same dict twice gives the same outcome both times. */
  method DecodeTwice(k: Kind, json: Dict) returns (first: Result<Entity, PyError>, second: Result<Entity, PyError>)
    ensures first == second
    ensures first == Decode(k, json.AsValue())
  {
    first := FromJsonNoWrite(k, json);
    second := FromJsonNoWrite(k, json);
  }

  // ---------------------------------------------------------------------
  // The decoding examples of the test suite
  // ---------------------------------------------------------------------

  lemma BaseModelFromJsonExample()
    ensures Decode(BaseKind, PDict(["id"], map["id" := PInt(1)])) == Success(BaseModel(PInt(1)))
  {
  }

  lemma MovieFromJsonExample(title: string, name: string)
    ensures var person := PDict(["name", "id"], map["name" := PStr(name), "id" := PInt(1)]);
      var json := PDict(["id", "original_title", "credits"],
        map["id" := PInt(1), "original_title" := PStr(title), "credits" := PDict(["cast"], map["cast" := PList([person])])]);
      Decode(MovieKind, json) == Success(Movie(PSet([Person(PNone, PStr(name), PNone, PInt(1))]), PNone, PStr(title), PInt(1)))
  {
    var person := PDict(["name", "id"], map["name" := PStr(name), "id" := PInt(1)]);
    var m := Person(PNone, PStr(name), PNone, PInt(1));
    assert Decode(PersonKind, person) == Success(m);
    assert Hashable(PModel(m));
    assert SetAdd([], m) == [m];
    assert DecodeEach(PersonKind, [person], 1, [m]) == Success([m]);
    assert DecodeEach(PersonKind, [person], 0, []) == Success([m]);
  }

  lemma PersonFromJsonExample(name: string, title: string)
    ensures var movie := PDict(["original_title", "id"], map["original_title" := PStr(title), "id" := PInt(1)]);
      var json := PDict(["id", "name", "movie_credits"],
        map["id" := PInt(1), "name" := PStr(name), "movie_credits" := PDict(["cast"], map["cast" := PList([movie])])]);
      Decode(PersonKind, json) == Success(Person(PSet([Movie(PNone, PNone, PStr(title), PInt(1))]), PStr(name), PNone, PInt(1)))
  {
    var movie := PDict(["original_title", "id"], map["original_title" := PStr(title), "id" := PInt(1)]);
    var m := Movie(PNone, PNone, PStr(title), PInt(1));
    assert Decode(MovieKind, movie) == Success(m);
    assert Hashable(PModel(m));
    assert SetAdd([], m) == [m];
    assert DecodeEach(MovieKind, [movie], 1, [m]) == Success([m]);
    assert DecodeEach(MovieKind, [movie], 0, []) == Success([m]);
  }

  /** Of two cast entries with the same id, the credits set keeps the model decoded from the first. */
  lemma FirstOfEqualKeptExample()
    ensures var a := PDict(["name", "id"], map["name" := PStr("a"), "id" := PInt(7)]);
      var b := PDict(["name", "id"], map["name" := PStr("b"), "id" := PInt(7)]);
      DecodeEach(PersonKind, [a, b], 0, []) == Success([Person(PNone, PStr("a"), PNone, PInt(7))])
  {
    var a := PDict(["name", "id"], map["name" := PStr("a"), "id" := PInt(7)]);
    var b := PDict(["name", "id"], map["name" := PStr("b"), "id" := PInt(7)]);
    var pa := Person(PNone, PStr("a"), PNone, PInt(7));
    var pb := Person(PNone, PStr("b"), PNone, PInt(7));
    assert Decode(PersonKind, a) == Success(pa);
    assert Decode(PersonKind, b) == Success(pb);
    assert Hashable(PModel(pa)) && Hashable(PModel(pb));
    assert SetAdd([], pa) == [pa];
    assert ModelKey(pb) == ModelKey([pa][0]);
    assert SetAdd([pa], pb) == [pa];
    assert DecodeEach(PersonKind, [a, b], 2, [pa]) == Success([pa]);
    assert DecodeEach(PersonKind, [a, b], 1, [pa]) == Success([pa]);
  }
}
