/**
 * The model classes of atmdb/models.py (BaseModel, Movie, Person) and the Python
 * values they are built from and compared with: identity by class and id,
 * hashing by id, attribute lookup, the JSON_MAPPING tables and `in`.
 */
module Models {
  import opened Wrappers

  /** The three model classes; Movie and Person are the subclasses of BaseModel. */
  datatype Kind = BaseKind | MovieKind | PersonKind

  /** The Python exceptions the core can raise. */
  datatype PyError = TypeError | AttributeError | ValueError(message: string)

  /**
   * A Python value as the core meets it: what `json.loads` produces (floats
   * aside), the sets of models that `from_json` stores back into its dict, and
   * model instances. A dict keeps its keys' insertion order in `order`. A
   * set's members are taken to be pairwise unequal, as they are in Python:
   * every set the model builds is proved free of equal members, and a set
   * written out by hand is assumed to be.
   */
  datatype Value =
    | PNone
    | PBool(b: bool)
    | PInt(i: int)
    | PStr(s: string)
    | PList(items: seq<Value>)
    | PDict(order: seq<string>, entries: map<string, Value>)
    | PSet(members: seq<Entity>)
    | PModel(model: Entity)

  /**
   * A model instance. The fields are listed in JSON_MAPPING order and may hold
   * any value, because `__init__` stores whatever it is given.
   */
  datatype Entity =
    | BaseModel(id: Value)
    | Movie(cast: Value, poster: Value, title: Value, id: Value)
    | Person(movieCredits: Value, name: Value, profile: Value, id: Value)

  function KindOf(e: Entity): Kind
  {
    match e
    case BaseModel(_) => BaseKind
    case Movie(_, _, _, _) => MovieKind
    case Person(_, _, _, _) => PersonKind
  }

  // ---------------------------------------------------------------------
  // Equality and hashing
  // ---------------------------------------------------------------------

  /**
   * What Python's `==` looks at in a value: bools compare as the ints 0 and 1,
   * dicts and sets compare without regard to order, and a model (by
   * `BaseModel.__eq__`) is its class and its id.
   */
  datatype Key =
    | KNone
    | KInt(i: int)
    | KStr(s: string)
    | KList(items: seq<Key>)
    | KDict(entries: map<string, Key>)
    | KSet(members: set<Key>)
    | KModel(kind: Kind, id: Key)

  function KeyOf(v: Value): Key
    decreases v, 1
  {
    match v
    case PNone => KNone
    case PBool(b) => KInt(if b then 1 else 0)
    case PInt(i) => KInt(i)
    case PStr(s) => KStr(s)
    case PList(items) => KList(seq(|items|, i requires 0 <= i < |items| => KeyOf(items[i])))
    case PDict(_, entries) => KDict(map k | k in entries :: KeyOf(entries[k]))
    case PSet(members) => KSet(set i | 0 <= i < |members| :: ModelKey(members[i]))
    case PModel(e) => ModelKey(e)
  }

  function ModelKey(e: Entity): Key
    decreases e, 0
  {
    KModel(KindOf(e), KeyOf(e.id))
  }

  /** Python's `a == b`. */
  predicate Equal(a: Value, b: Value)
  {
    KeyOf(a) == KeyOf(b)
  }

  /** Whether `hash(v)` succeeds: lists, dicts and sets are unhashable, a model hashes its id. */
  predicate Hashable(v: Value)
    decreases v
  {
    match v
    case PList(_) => false
    case PDict(_, _) => false
    case PSet(_) => false
    case PModel(e) => Hashable(e.id)
    case _ => true
  }

  function HashKey(k: Key): Key
  {
    match k
    case KModel(_, id) => HashKey(id)
    case _ => k
  }

  /**
   * `hash(v)`: a TypeError for an unhashable value; otherwise a stand-in for
   * the number CPython computes, in which every model is replaced by its id
   * (`BaseModel.__hash__` returns `hash(self.id_)`).
   */
  function Hash(v: Value): (r: Result<Key, PyError>)
    ensures r.Success? <==> Hashable(v)
    ensures r.Failure? ==> r.error == TypeError
  {
    if Hashable(v) then Success(HashKey(KeyOf(v))) else Failure(TypeError)
  }

  /** The hashability of a value is decided by its key. */
  predicate KeyHashable(k: Key)
  {
    match k
    case KList(_) => false
    case KDict(_) => false
    case KSet(_) => false
    case KModel(_, id) => KeyHashable(id)
    case _ => true
  }

  lemma {:induction false} HashableByKey(v: Value)
    ensures Hashable(v) == KeyHashable(KeyOf(v))
    decreases v
  {
    match v
    case PModel(e) => HashableByKey(e.id);
    case _ =>
  }

  /** A model's hash is its id's hash, whether or not the id is hashable. */
  lemma ModelHashIsIdHash(e: Entity)
    ensures Hash(PModel(e)) == Hash(e.id)
  {
    assert KeyOf(PModel(e)) == KModel(KindOf(e), KeyOf(e.id));
  }

  /** Equal values are both hashable or both unhashable, and hash alike. */
  lemma EqualValuesHashAlike(a: Value, b: Value)
    requires Equal(a, b)
    ensures Hashable(a) <==> Hashable(b)
    ensures Hash(a) == Hash(b)
  {
    HashableByKey(a);
    HashableByKey(b);
  }

  /** `issubclass(sub, cls)` among the model classes. */
  predicate IsSubclass(sub: Kind, cls: Kind)
  {
    sub == cls || cls == BaseKind
  }

  /** `isinstance(v, cls)` for a model class `cls`. */
  predicate IsInstance(v: Value, cls: Kind)
  {
    v.PModel? && IsSubclass(KindOf(v.model), cls)
  }

  /** `self.__eq__(other)`: other is an instance of type(self) and the ids are equal. */
  predicate DunderEq(self: Entity, other: Value): (r: bool)
    ensures r <==> (other.PModel? && KeyOf(self.id) == KeyOf(other.model.id) &&
      (KindOf(self) == BaseKind || KindOf(other.model) == KindOf(self)))
  {
    IsInstance(other, KindOf(self)) && Equal(self.id, other.model.id)
  }

  /**
   * What `a == b` evaluates to on two models: Python calls the right
   * operand's `__eq__` first when its class is a proper subclass of the
   * left operand's, and otherwise the left operand's.
   */
  predicate ModelsEqual(a: Entity, b: Entity): (r: bool)
    ensures r ==> KindOf(a) == KindOf(b) && Equal(a.id, b.id)
  {
    if KindOf(a) != KindOf(b) && IsSubclass(KindOf(b), KindOf(a)) then DunderEq(b, PModel(a))
    else DunderEq(a, PModel(b))
  }

  /** Two models are equal iff they are of the same class and their ids are equal; every other field is ignored. */
  lemma IdentityById(a: Entity, b: Entity)
    ensures ModelsEqual(a, b) <==> KindOf(a) == KindOf(b) && Equal(a.id, b.id)
    ensures ModelsEqual(a, b) <==> Equal(PModel(a), PModel(b))
  {
    assert KeyOf(PModel(a)) == KModel(KindOf(a), KeyOf(a.id));
    assert KeyOf(PModel(b)) == KModel(KindOf(b), KeyOf(b.id));
  }

  /** A movie never equals a person, whatever their ids. */
  lemma MovieNeverEqualsPerson(m: Entity, p: Entity)
    requires m.Movie? && p.Person?
    ensures !ModelsEqual(m, p) && !ModelsEqual(p, m)
  {
  }

  /**
   * `BaseModel.__eq__` itself is not symmetric: a BaseModel's `__eq__` accepts a
   * Movie with the same id, a Movie's rejects the BaseModel; the `==`
   * operator is False both ways.
   */
  lemma DunderEqIsAsymmetric(id: Value)
    ensures DunderEq(BaseModel(id), PModel(Movie(PNone, PNone, PNone, id)))
    ensures !DunderEq(Movie(PNone, PNone, PNone, id), PModel(BaseModel(id)))
    ensures !ModelsEqual(BaseModel(id), Movie(PNone, PNone, PNone, id))
    ensures !ModelsEqual(Movie(PNone, PNone, PNone, id), BaseModel(id))
  {
  }

  // ---------------------------------------------------------------------
  // Dicts
  // ---------------------------------------------------------------------

  /** `d.get(key, default)` */
  function DictGet(d: Value, key: string, default: Value): Value
    requires d.PDict?
  {
    if key in d.entries then d.entries[key] else default
  }

  /** `d[key] = v`: an existing key keeps its place, a new one goes last. */
  function DictStore(d: Value, key: string, v: Value): Value
    requires d.PDict?
  {
    PDict(if key in d.entries then d.order else d.order + [key], d.entries[key := v])
  }

  // ---------------------------------------------------------------------
  // Attributes and JSON_MAPPING
  // ---------------------------------------------------------------------

  /** JSON_MAPPING of each class: (attribute, JSON key) pairs, in declaration order. */
  function JsonMapping(k: Kind): seq<(string, string)>
  {
    match k
    case BaseKind => [("id_", "id")]
    case MovieKind => [("cast", "cast"), ("poster", "poster"), ("title", "original_title"), ("id_", "id")]
    case PersonKind => [("movie_credits", "movie_credits"), ("name", "name"), ("profile", "profile"), ("id_", "id")]
  }

  function ClassName(k: Kind): string
  {
    match k
    case BaseKind => "BaseModel"
    case MovieKind => "Movie"
    case PersonKind => "Person"
  }

  /** `getattr(e, attr)` for the instance attributes `__init__` sets; None stands for AttributeError. */
  function GetAttr(e: Entity, attr: string): Option<Value>
  {
    if attr == "id_" then Some(e.id)
    else match e
      case BaseModel(_) => None
      case Movie(cast, poster, title, _) =>
        if attr == "cast" then Some(cast)
        else if attr == "poster" then Some(poster)
        else if attr == "title" then Some(title)
        else None
      case Person(credits, name, profile, _) =>
        if attr == "movie_credits" then Some(credits)
        else if attr == "name" then Some(name)
        else if attr == "profile" then Some(profile)
        else None
  }

  /** The attributes `__init__` sets are exactly those JSON_MAPPING names. */
  lemma AttributesAreMapping(e: Entity, attr: string)
    ensures GetAttr(e, attr).Some? <==>
      exists i :: 0 <= i < |JsonMapping(KindOf(e))| && JsonMapping(KindOf(e))[i].0 == attr
  {
    var m := JsonMapping(KindOf(e));
    if GetAttr(e, attr).Some? {
      match e
      case BaseModel(_) => assert m[0].0 == attr;
      case Movie(_, _, _, _) =>
        if attr == "cast" { assert m[0].0 == attr; }
        else if attr == "poster" { assert m[1].0 == attr; }
        else if attr == "title" { assert m[2].0 == attr; }
        else { assert m[3].0 == attr; }
      case Person(_, _, _, _) =>
        if attr == "movie_credits" { assert m[0].0 == attr; }
        else if attr == "name" { assert m[1].0 == attr; }
        else if attr == "profile" { assert m[2].0 == attr; }
        else { assert m[3].0 == attr; }
    }
  }

  /**
   * The base `from_json` on a dict: `cls(**{attr: json.get(key) for attr, key
   * in cls.JSON_MAPPING.items()})`. Every attribute is read from its mapped
   * key, and a missing key gives None, never an error.
   */
  function FromMapping(k: Kind, json: Value): (e: Entity)
    requires json.PDict?
    ensures KindOf(e) == k
    ensures forall i :: 0 <= i < |JsonMapping(k)| ==>
      GetAttr(e, JsonMapping(k)[i].0) == Some(DictGet(json, JsonMapping(k)[i].1, PNone))
  {
    match k
    case BaseKind => BaseModel(DictGet(json, "id", PNone))
    case MovieKind =>
      Movie(DictGet(json, "cast", PNone), DictGet(json, "poster", PNone),
            DictGet(json, "original_title", PNone), DictGet(json, "id", PNone))
    case PersonKind =>
      Person(DictGet(json, "movie_credits", PNone), DictGet(json, "name", PNone),
             DictGet(json, "profile", PNone), DictGet(json, "id", PNone))
  }

  // ---------------------------------------------------------------------
  // Sets of models
  // ---------------------------------------------------------------------

  /** What a Python set holding these models holds, up to which of several equal objects it keeps. */
  function KeySet(ms: seq<Entity>): set<Key>
  {
    set i | 0 <= i < |ms| :: ModelKey(ms[i])
  }

  /** No two of the models are equal: the shape of every Python set of models. */
  predicate NoDup(ms: seq<Entity>)
  {
    forall i, j :: 0 <= i < j < |ms| ==> ModelKey(ms[i]) != ModelKey(ms[j])
  }

  /** `s.add(m)` for a hashable m: an element equal to m that is already there stays. */
  function SetAdd(s: seq<Entity>, m: Entity): (r: seq<Entity>)
    ensures KeySet(r) == KeySet(s) + {ModelKey(m)}
    ensures NoDup(s) ==> NoDup(r)
    ensures forall i :: 0 <= i < |r| ==> r[i] in s || r[i] == m
    ensures ModelKey(m) in KeySet(s) ==> r == s
    ensures ModelKey(m) !in KeySet(s) ==> r == s + [m]
  {
    if ModelKey(m) in KeySet(s) then s
    else
      var r := s + [m];
      assert KeySet(r) == KeySet(s) + {ModelKey(m)} by {
        forall k | k in KeySet(r) ensures k in KeySet(s) + {ModelKey(m)} {
          var i :| 0 <= i < |r| && ModelKey(r[i]) == k;
          if i < |s| { assert ModelKey(s[i]) == k; }
        }
        forall k | k in KeySet(s) ensures k in KeySet(r) {
          var i :| 0 <= i < |s| && ModelKey(s[i]) == k;
          assert ModelKey(r[i]) == k;
        }
        assert ModelKey(r[|s|]) == ModelKey(m);
      }
      r
  }

  // ---------------------------------------------------------------------
  // Membership: `item in model`
  // ---------------------------------------------------------------------

  /** CONTAINS of each class: the attribute searched and the class an item must be an instance of. */
  function ContainsRule(k: Kind): Option<(string, Kind)>
  {
    match k
    case BaseKind => None
    case MovieKind => Some(("cast", PersonKind))
    case PersonKind => Some(("movie_credits", MovieKind))
  }

  /** `BaseModel.__contains__(self, item)` */
  function Contains(self: Entity, item: Value): (r: Result<bool, PyError>)
    ensures KindOf(self) == BaseKind ==> r == Success(false)
    ensures ContainsRule(KindOf(self)).Some? && !IsInstance(item, ContainsRule(KindOf(self)).value.1) ==> r == Success(false)
    ensures r.Failure? ==> r.error == TypeError
    decreases self, 0
  {
    match self
    case BaseModel(_) => Success(false)
    case Movie(cast, _, _, _) => if IsInstance(item, PersonKind) then In(item, cast) else Success(false)
    case Person(credits, _, _, _) => if IsInstance(item, MovieKind) then In(item, credits) else Success(false)
  }

  /** `t in s` for two strings. */
  predicate IsSubstring(t: string, s: string)
  {
    exists i :: 0 <= i <= |s| && t <= s[i..]
  }

  /**
   * `x in coll`: a list compares x with each element; a set or dict first
   * hashes x, except that a set retries an unhashable set x as a frozenset,
   * which equals no model; a string accepts only a string; a model delegates
   * to its `__contains__`; None, bools and ints are not containers.
   */
  function In(x: Value, coll: Value): (r: Result<bool, PyError>)
    ensures r.Failure? ==> r.error == TypeError
    ensures coll.PList? ==> r.Success?
    ensures coll.PSet? ==> (r.Success? <==> Hashable(x) || x.PSet?)
    ensures coll.PSet? && x.PSet? ==> r == Success(false)
    ensures coll.PDict? ==> (r.Success? <==> Hashable(x))
    decreases coll, 1
  {
    match coll
    case PList(items) => Success(exists i :: 0 <= i < |items| && Equal(x, items[i]))
    case PSet(members) =>
      if x.PSet? then Success(false)
      else if Hashable(x) then Success(KeyOf(x) in KeySet(members)) else Failure(TypeError)
    case PDict(_, entries) => if Hashable(x) then Success(x.PStr? && x.s in entries) else Failure(TypeError)
    case PStr(s) => if x.PStr? then Success(IsSubstring(x.s, s)) else Failure(TypeError)
    case PModel(e) => Contains(e, x)
    case _ => Failure(TypeError)
  }

  /**
   * `item in model` is True iff the class has a CONTAINS rule, item is an
   * instance of the class it names and item is in the named attribute; on a
   * BaseModel it is always False. Anything that is not an instance of that
   * class is rejected before the attribute is looked at.
   */
  lemma ContainsFollowsRule(self: Entity, item: Value)
    ensures ContainsRule(KindOf(self)).None? ==> Contains(self, item) == Success(false)
    ensures ContainsRule(KindOf(self)).Some? ==>
      var (attr, cls) := ContainsRule(KindOf(self)).value;
      GetAttr(self, attr).Some? &&
      Contains(self, item) == if IsInstance(item, cls) then In(item, GetAttr(self, attr).value) else Success(false)
  {
  }

  /** `set() in {BaseModel(1)}` is False: the set key is retried as a frozenset, not a TypeError, while a dict rejects it. */
  lemma SetKeyInSetExample()
    ensures In(PSet([]), PSet([BaseModel(PInt(1))])) == Success(false)
    ensures In(PSet([]), PDict([], map[])) == Failure(TypeError)
  {
  }

  /**
   * In a set of models (decoded credits), a model is found iff some member
   * has its class and an equal id; a model with an unhashable id is a TypeError.
   */
  lemma InSetById(x: Entity, members: seq<Entity>)
    ensures In(PModel(x), PSet(members)) ==
      if Hashable(x.id) then
        Success(exists i :: 0 <= i < |members| && KindOf(members[i]) == KindOf(x) && Equal(members[i].id, x.id))
      else Failure(TypeError)
  {
    if Hashable(x.id) {
      if KeyOf(PModel(x)) in KeySet(members) {
        var i :| 0 <= i < |members| && ModelKey(members[i]) == KeyOf(PModel(x));
        assert KeyOf(PModel(x)) == KModel(KindOf(x), KeyOf(x.id));
        assert KindOf(members[i]) == KindOf(x) && Equal(members[i].id, x.id);
      }
      if exists i :: 0 <= i < |members| && KindOf(members[i]) == KindOf(x) && Equal(members[i].id, x.id) {
        var i :| 0 <= i < |members| && KindOf(members[i]) == KindOf(x) && Equal(members[i].id, x.id);
        assert KeyOf(PModel(x)) == KModel(KindOf(x), KeyOf(x.id));
        assert ModelKey(members[i]) == KeyOf(PModel(x));
      }
    }
  }

  /** The two membership examples of the test suite: a star in a movie's cast list, a movie in a person's credits list. */
  lemma ContainsExamples()
    ensures var star := Person(PNone, PStr(""), PNone, PInt(2));
      Contains(Movie(PList([PModel(star)]), PNone, PStr(""), PInt(1)), PModel(star)) == Success(true)
    ensures var movie := Movie(PNone, PNone, PStr(""), PInt(1));
      Contains(Person(PList([PModel(movie)]), PStr(""), PNone, PInt(2)), PModel(movie)) == Success(true)
    ensures Contains(BaseModel(PInt(1)), PModel(BaseModel(PInt(1)))) == Success(false)
  {
    var star := Person(PNone, PStr(""), PNone, PInt(2));
    assert Equal(PModel(star), [PModel(star)][0]);
    var movie := Movie(PNone, PNone, PStr(""), PInt(1));
    assert Equal(PModel(movie), [PModel(movie)][0]);
  }
}
