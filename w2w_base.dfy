/** `W2WBaseClass`: the generic record behind Employee, Shift, Position and Category.
    A record is its class and its `__dict__`; the schema field lists, which the source reads
    from JSON files when the modules load, are a parameter (`Schemas`). */
module W2WBase {
  import opened Wrappers
  import opened Text
  import opened PyValues
  import opened Dicts

  /** The four record classes, and any other Python class (for `isinstance` tests). */
  datatype ClassName = Employee | Shift | Position | Category | Other(name: string)

  predicate IsRecordClass(c: ClassName) { !c.Other? }

  /** `cls.__name__`. */
  function ClassText(c: ClassName): string
  {
    match c
    case Employee => "Employee"
    case Shift => "Shift"
    case Position => "Position"
    case Category => "Category"
    case Other(n) => n
  }

  /** A Python object: its class and its attribute dictionary `__dict__`. */
  datatype Obj = Obj(cls: ClassName, attrs: Dict)

  /** The `FIELDS` list of each record class. */
  datatype Schemas = Schemas(employee: seq<string>, shift: seq<string>, position: seq<string>, category: seq<string>)

  function Fields(s: Schemas, c: ClassName): seq<string>
    requires IsRecordClass(c)
  {
    match c
    case Employee => s.employee
    case Shift => s.shift
    case Position => s.position
    case Category => s.category
  }

  /** `getattr(o, name)`: AttributeError when `name` is not in `o.__dict__`. */
  function Attr(o: Obj, name: string): (r: Result<Value, Error>)
    ensures r.Ok? <==> name in Keys(o.attrs)
    ensures r.Ok? ==> Get(o.attrs, name) == Some(r.value)
    ensures r.Err? ==> r.error == AttributeError(ClassText(o.cls), name)
  {
    match Get(o.attrs, name)
    case Some(v) => Ok(v)
    case None => Err(AttributeError(ClassText(o.cls), name))
  }

  function Defaults(fields: seq<string>): (d: Dict)
    ensures Keys(d) == fields
    ensures forall i :: 0 <= i < |d| ==> d[i].1 == PyNone
  {
    seq(|fields|, i requires 0 <= i < |fields| => (fields[i], PyNone))
  }

  /** The data descriptors every instance of a plain class carries. `setattr` with one of these
      names goes through the descriptor instead of storing into `__dict__`. */
  predicate IsSlotName(k: string)
  {
    k == "__class__" || k == "__dict__" || k == "__weakref__"
  }

  predicate HasSlotName(names: seq<string>)
  {
    "__class__" in names || "__dict__" in names || "__weakref__" in names
  }

  /** `type(v).__name__` of a scalar, as error messages show it. */
  function TypeName(v: Value): string
  {
    match v
    case PyNone => "NoneType"
    case PyBool(_) => "bool"
    case PyInt(_) => "int"
    case PyStr(_) => "str"
  }

  /** What `setattr(o, k, v)` raises on a record of class `cls` when `v` is a scalar: `__class__`
      wants a class and `__dict__` a dict (TypeError), `__weakref__` is read-only
      (AttributeError); any other name is stored in `__dict__` and nothing is raised. */
  function SetAttrError(cls: ClassName, k: string, v: Value): (r: Option<Error>)
    ensures r.None? <==> !IsSlotName(k)
    ensures r.Some? ==> (r.value.AttributeError? <==> k == "__weakref__")
    ensures r.Some? ==> r.value.TypeError? || r.value == AttributeError(ClassText(cls), k)
  {
    if k == "__class__" then Some(TypeError("__class__ must be set to a class, not '" + TypeName(v) + "' object"))
    else if k == "__dict__" then Some(TypeError("__dict__ must be set to a dictionary, not a '" + TypeName(v) + "'"))
    else if k == "__weakref__" then Some(AttributeError(ClassText(cls), k))
    else None
  }

  /** The error that leaves the first loop of `__init__`, `setattr(self, field, None)` for each
      schema field, which is not guarded: the first field's error, if any. */
  function FieldsError(cls: ClassName, fields: seq<string>): (r: Option<Error>)
    ensures r.None? <==> !HasSlotName(fields)
  {
    if fields == [] then None
    else
      var n := |fields| - 1;
      assert fields == fields[..n] + [fields[n]];
      var e := FieldsError(cls, fields[..n]);
      if e.Some? then e else SetAttrError(cls, fields[n], PyNone)
  }

  /** The error that leaves the second loop: the first keyword whose `setattr` raises
      TypeError. The loop catches AttributeError, so `__weakref__` does not stop it. */
  function KwargsError(cls: ClassName, kwargs: Dict): (r: Option<Error>)
    ensures r.None? <==> "__class__" !in Keys(kwargs) && "__dict__" !in Keys(kwargs)
    ensures r.Some? ==> r.value.TypeError?
  {
    if kwargs == [] then None
    else
      var n := |kwargs| - 1;
      assert Keys(kwargs) == Keys(kwargs[..n]) + [kwargs[n].0];
      var e := KwargsError(cls, kwargs[..n]);
      if e.Some? then e else Raised(SetAttrError(cls, kwargs[n].0, kwargs[n].1))
  }

  /** The part of a `setattr` error that the second loop lets through. */
  function Raised(e: Option<Error>): Option<Error>
  {
    if e.Some? && e.value.TypeError? then e else None
  }

  /** The keyword arguments that reach `__dict__`: the second loop prints the AttributeError of
      a descriptor name and goes on without storing it. */
  function Stored(kwargs: Dict): (r: Dict)
    ensures forall k :: k in Keys(r) <==> k in Keys(kwargs) && !IsSlotName(k)
    ensures forall k :: Lookup(r, k) == if IsSlotName(k) then None else Lookup(kwargs, k)
  {
    if kwargs == [] then []
    else
      var n := |kwargs| - 1;
      assert Keys(kwargs) == Keys(kwargs[..n]) + [kwargs[n].0];
      var p := Stored(kwargs[..n]);
      if IsSlotName(kwargs[n].0) then p
      else
        var r := p + [kwargs[n]];
        assert r[..|r| - 1] == p;
        assert Keys(r) == Keys(p) + [kwargs[n].0];
        r
  }

  /** The `__dict__` left by `W2WBaseClass.__init__(fields, **kwargs)` when it returns: every
      field set to None, then every stored keyword argument set in order. */
  function InitAttrs(fields: seq<string>, kwargs: Dict): (r: Dict)
    ensures UniqueKeys(r)
  {
    SetAllUnique([], Defaults(fields));
    SetAllUnique(SetAll([], Defaults(fields)), Stored(kwargs));
    SetAll(SetAll([], Defaults(fields)), Stored(kwargs))
  }

  /** The outcome of `W2WBaseClass.__init__(fields, **kwargs)` on a record of class `cls`. */
  function InitResult(cls: ClassName, fields: seq<string>, kwargs: Dict): (r: Result<Obj, Error>)
    ensures r.Err? <==> HasSlotName(fields) || "__class__" in Keys(kwargs) || "__dict__" in Keys(kwargs)
    ensures r.Err? && !HasSlotName(fields) ==> r.error.TypeError?
    ensures r.Ok? ==> r.value == Obj(cls, InitAttrs(fields, kwargs))
  {
    match FieldsError(cls, fields)
    case Some(e) => Err(e)
    case None =>
      match KwargsError(cls, kwargs)
      case Some(e) => Err(e)
      case None => Ok(Obj(cls, InitAttrs(fields, kwargs)))
  }

  /** `W2WBaseClass.__init__`: the two `setattr` loops. The first stops at the first error; the
      second stops at a TypeError and skips, after printing it, an attribute whose `setattr`
      raises AttributeError. */
  method Initialize(cls: ClassName, fields: seq<string>, kwargs: Dict) returns (r: Result<Obj, Error>)
    ensures r == InitResult(cls, fields, kwargs)
    ensures r.Ok? ==> r.value.cls == cls && Built(fields, kwargs, r.value.attrs)
  {
    var attrs: Dict := [];
    for i := 0 to |fields|
      invariant attrs == SetAll([], Defaults(fields)[..i])
      invariant FieldsError(cls, fields[..i]).None?
    {
      FieldStep(cls, fields, i);
      var e := SetAttrError(cls, fields[i], PyNone);
      if e.Some? {
        FieldsErrorPrefix(cls, fields, i + 1);
        return Err(e.value);
      }
      attrs := Set(attrs, fields[i], PyNone);
    }
    assert Defaults(fields)[..|fields|] == Defaults(fields);
    assert fields[..|fields|] == fields;
    var defaults := attrs;
    for i := 0 to |kwargs|
      invariant attrs == SetAll(defaults, Stored(kwargs[..i]))
      invariant KwargsError(cls, kwargs[..i]).None?
    {
      KwargStep(cls, kwargs, defaults, i);
      var e := SetAttrError(cls, kwargs[i].0, kwargs[i].1);
      if e.Some? && e.value.TypeError? {
        KwargsErrorPrefix(cls, kwargs, i + 1);
        return Err(e.value);
      }
      if e.None? {
        attrs := Set(attrs, kwargs[i].0, kwargs[i].1);
      }
    }
    assert kwargs[..|kwargs|] == kwargs;
    InitFacts(fields, kwargs);
    r := Ok(Obj(cls, attrs));
  }

  /** One turn of the first loop: `setattr(self, fields[i], None)`. */
  lemma FieldStep(cls: ClassName, fields: seq<string>, i: nat)
    requires i < |fields| && FieldsError(cls, fields[..i]).None?
    ensures FieldsError(cls, fields[..i + 1]) == SetAttrError(cls, fields[i], PyNone)
    ensures SetAll([], Defaults(fields)[..i + 1]) == Set(SetAll([], Defaults(fields)[..i]), fields[i], PyNone)
  {
    assert Defaults(fields)[..i + 1][..i] == Defaults(fields)[..i];
    assert fields[..i + 1][..i] == fields[..i];
  }

  /** One turn of the second loop: `setattr(self, key, value)` for the `i`-th keyword. */
  lemma KwargStep(cls: ClassName, kwargs: Dict, d: Dict, i: nat)
    requires i < |kwargs| && KwargsError(cls, kwargs[..i]).None?
    ensures KwargsError(cls, kwargs[..i + 1]) == Raised(SetAttrError(cls, kwargs[i].0, kwargs[i].1))
    ensures SetAll(d, Stored(kwargs[..i + 1])) ==
      if IsSlotName(kwargs[i].0) then SetAll(d, Stored(kwargs[..i]))
      else Set(SetAll(d, Stored(kwargs[..i])), kwargs[i].0, kwargs[i].1)
  {
    assert kwargs[..i + 1][..i] == kwargs[..i];
    if !IsSlotName(kwargs[i].0) {
      var p := Stored(kwargs[..i]);
      assert Stored(kwargs[..i + 1]) == p + [kwargs[i]];
      assert (p + [kwargs[i]])[..|p|] == p;
    }
  }


  /** What construction promises of the `__dict__` it leaves: no key twice; a schema field that
      no keyword names is None; every keyword other than a descriptor name holds its value; no
      descriptor name is stored. */
  ghost predicate Built(fields: seq<string>, kwargs: Dict, attrs: Dict)
  {
    && UniqueKeys(attrs)
    && (forall f :: f in fields && f !in Keys(kwargs) ==> Get(attrs, f) == Some(PyNone))
    && (UniqueKeys(kwargs) ==>
          forall i :: 0 <= i < |kwargs| && !IsSlotName(kwargs[i].0) ==> Get(attrs, kwargs[i].0) == Some(kwargs[i].1))
    && (forall k :: IsSlotName(k) ==> Get(attrs, k).None?)
  }

  /** The dict `__init__` leaves, when it returns, is `Built`. */
  lemma InitFacts(fields: seq<string>, kwargs: Dict)
    requires !HasSlotName(fields)
    ensures Built(fields, kwargs, InitAttrs(fields, kwargs))
  {
    forall f | f in fields && f !in Keys(kwargs) ensures Get(InitAttrs(fields, kwargs), f) == Some(PyNone) {
      InitDefaultsNone(fields, kwargs, f);
    }
    forall i | 0 <= i < |kwargs| && !IsSlotName(kwargs[i].0) && UniqueKeys(kwargs)
      ensures Get(InitAttrs(fields, kwargs), kwargs[i].0) == Some(kwargs[i].1)
    {
      InitKwargsStored(fields, kwargs, i);
    }
    forall k | IsSlotName(k) ensures Get(InitAttrs(fields, kwargs), k).None? {
      InitStoresNoSlot(fields, kwargs, k);
    }
  }

  /** Once the first loop has raised, the later fields do not matter. */
  lemma {:induction false} FieldsErrorPrefix(cls: ClassName, fields: seq<string>, i: nat)
    requires i <= |fields| && FieldsError(cls, fields[..i]).Some?
    ensures FieldsError(cls, fields) == FieldsError(cls, fields[..i])
  {
    var j := i;
    while j < |fields|
      invariant i <= j <= |fields|
      invariant FieldsError(cls, fields[..j]) == FieldsError(cls, fields[..i])
    {
      FieldsErrorKept(cls, fields, j);
      j := j + 1;
    }
    assert fields[..j] == fields;
  }

  /** A field after the first error leaves that error in place. */
  lemma FieldsErrorKept(cls: ClassName, fields: seq<string>, j: nat)
    requires j < |fields| && FieldsError(cls, fields[..j]).Some?
    ensures FieldsError(cls, fields[..j + 1]) == FieldsError(cls, fields[..j])
  {
    assert fields[..j + 1][..j] == fields[..j];
  }

  /** Once the second loop has raised, the later keywords do not matter. */
  lemma {:induction false} KwargsErrorPrefix(cls: ClassName, kwargs: Dict, i: nat)
    requires i <= |kwargs| && KwargsError(cls, kwargs[..i]).Some?
    ensures KwargsError(cls, kwargs) == KwargsError(cls, kwargs[..i])
  {
    var j := i;
    while j < |kwargs|
      invariant i <= j <= |kwargs|
      invariant KwargsError(cls, kwargs[..j]) == KwargsError(cls, kwargs[..i])
    {
      KwargsErrorKept(cls, kwargs, j);
      j := j + 1;
    }
    assert kwargs[..j] == kwargs;
  }

  /** A keyword after the first TypeError leaves that error in place. */
  lemma KwargsErrorKept(cls: ClassName, kwargs: Dict, j: nat)
    requires j < |kwargs| && KwargsError(cls, kwargs[..j]).Some?
    ensures KwargsError(cls, kwargs[..j + 1]) == KwargsError(cls, kwargs[..j])
  {
    assert kwargs[..j + 1][..j] == kwargs[..j];
  }

  /** A schema field that no keyword argument names is None after construction. */
  lemma InitDefaultsNone(fields: seq<string>, kwargs: Dict, f: string)
    requires f in fields && f !in Keys(kwargs)
    ensures Get(InitAttrs(fields, kwargs), f) == Some(PyNone)
  {
    var d := Defaults(fields);
    SetAllGet(SetAll([], d), Stored(kwargs), f);
    LookupAbsent(kwargs, f);
    SetAllGet([], d, f);
    LookupAllNone(d, f);
  }

  lemma {:induction false} LookupAbsent(kvs: Dict, k: string)
    requires k !in Keys(kvs)
    ensures Lookup(kvs, k).None?
  {
    if kvs != [] {
      assert Keys(kvs[..|kvs| - 1]) == Keys(kvs)[..|kvs| - 1];
      LookupAbsent(kvs[..|kvs| - 1], k);
    }
  }

  lemma {:induction false} LookupAllNone(d: Dict, k: string)
    requires k in Keys(d)
    requires forall i :: 0 <= i < |d| ==> d[i].1 == PyNone
    ensures Lookup(d, k) == Some(PyNone)
  {
    var n := |d| - 1;
    if d[n].0 != k {
      assert Keys(d) == Keys(d[..n]) + [d[n].0];
      LookupAllNone(d[..n], k);
    }
  }

  /** Every keyword argument other than a descriptor name is stored under its own name,
      overriding the None default, whether or not its name is a schema field. */
  lemma InitKwargsStored(fields: seq<string>, kwargs: Dict, i: nat)
    requires UniqueKeys(kwargs) && i < |kwargs| && !IsSlotName(kwargs[i].0)
    ensures Get(InitAttrs(fields, kwargs), kwargs[i].0) == Some(kwargs[i].1)
  {
    SetAllGet(SetAll([], Defaults(fields)), Stored(kwargs), kwargs[i].0);
    LookupUnique(kwargs, kwargs[i].0);
  }

  /** Nothing but the schema fields and the keyword names becomes an attribute. */
  lemma InitNoOtherAttrs(fields: seq<string>, kwargs: Dict, k: string)
    requires k !in fields && k !in Keys(kwargs)
    ensures Get(InitAttrs(fields, kwargs), k).None?
  {
    InitOrder(fields, kwargs);
  }

  /** A descriptor name never lands in `__dict__`: as a field it makes `__init__` raise, and as a
      keyword it raises or is skipped. */
  lemma InitStoresNoSlot(fields: seq<string>, kwargs: Dict, k: string)
    requires IsSlotName(k) && !HasSlotName(fields)
    ensures Get(InitAttrs(fields, kwargs), k).None?
  {
    InitOrder(fields, kwargs);
  }

  /** Attribute insertion order, which `__repr__` shows: the schema fields first (a repeated
      field keeps its first place), then the stored keyword names that are not schema fields. */
  lemma InitOrder(fields: seq<string>, kwargs: Dict)
    ensures Keys(InitAttrs(fields, kwargs)) == AppendNew(AppendNew([], fields), Keys(Stored(kwargs)))
  {
    SetAllKeys([], Defaults(fields));
    SetAllKeys(SetAll([], Defaults(fields)), Stored(kwargs));
  }

  /** A keyword name with which construction raises TypeError whatever the schema. */
  predicate RejectedKeyword(names: seq<string>)
  {
    "self" in names || "fields" in names || "__class__" in names || "__dict__" in names
  }

  /** `Employee(**kwargs)` (and likewise the other three): the subclass `__init__(self, **kwargs)`
      hands its `FIELDS` to the base as `fields`, so a keyword named `self` or `fields` collides
      with a declared parameter and Python raises TypeError before any attribute is set; then
      `__init__` runs. */
  function New(cls: ClassName, schemas: Schemas, kwargs: Dict): (r: Result<Obj, Error>)
    requires IsRecordClass(cls)
    ensures r.Err? <==> RejectedKeyword(Keys(kwargs)) || HasSlotName(Fields(schemas, cls))
    ensures r.Err? && !HasSlotName(Fields(schemas, cls)) ==> r.error.TypeError?
    ensures r.Ok? ==> r.value.cls == cls && r.value.attrs == InitAttrs(Fields(schemas, cls), kwargs)
  {
    if "self" in Keys(kwargs) then
      Err(TypeError(ClassText(cls) + ".__init__() got multiple values for argument 'self'"))
    else if "fields" in Keys(kwargs) then
      Err(TypeError("W2WBaseClass.__init__() got multiple values for argument 'fields'"))
    else
      InitResult(cls, Fields(schemas, cls), kwargs)
  }

  function LowerPairs(json: Dict): (r: Dict)
    ensures |r| == |json|
    ensures forall i :: 0 <= i < |json| ==> r[i] == (Lower(json[i].0), json[i].1)
  {
    seq(|json|, i requires 0 <= i < |json| => (Lower(json[i].0), json[i].1))
  }

  /** `{key.lower(): value for key, value in json_data.items()}`: when two keys lower to the same
      name the later value wins and the earlier position is kept. */
  function LowerKeys(json: Dict): (r: Dict)
    ensures UniqueKeys(r)
    ensures forall k :: Get(r, k) == Lookup(LowerPairs(json), k)
  {
    var r := SetAll([], LowerPairs(json));
    SetAllUnique([], LowerPairs(json));
    forall k ensures Get(r, k) == Lookup(LowerPairs(json), k) {
      SetAllGet([], LowerPairs(json), k);
    }
    r
  }

  /** `cls.from_json(json_data)` for a decoded dict or None. */
  function FromJson(cls: ClassName, schemas: Schemas, json: Option<Dict>): (r: Result<Option<Obj>, Error>)
    requires IsRecordClass(cls)
    ensures json.None? ==> r == Ok(None)
    ensures json.Some? ==> (r.Err? <==> RejectedKeyword(Keys(LowerKeys(json.value))) || HasSlotName(Fields(schemas, cls)))
    ensures r.Ok? && json.Some? ==> r.value == Some(Obj(cls, InitAttrs(Fields(schemas, cls), LowerKeys(json.value))))
  {
    match json
    case None => Ok(None)
    case Some(d) =>
      match New(cls, schemas, LowerKeys(d))
      case Ok(o) => Ok(Some(o))
      case Err(e) => Err(e)
  }

  /** With colliding keys the value of the last one (in the dict's order) wins. */
  lemma FromJsonLaterKeyWins(cls: ClassName, schemas: Schemas, json: Dict, i: nat)
    requires IsRecordClass(cls) && i < |json| && !IsSlotName(Lower(json[i].0))
    requires forall j :: i < j < |json| ==> Lower(json[j].0) != Lower(json[i].0)
    requires FromJson(cls, schemas, Some(json)).Ok?
    ensures FromJson(cls, schemas, Some(json)).value.Some?
    ensures Get(FromJson(cls, schemas, Some(json)).value.value.attrs, Lower(json[i].0)) == Some(json[i].1)
  {
    var lk := Lower(json[i].0);
    var kw := LowerKeys(json);
    var base := SetAll([], Defaults(Fields(schemas, cls)));
    assert New(cls, schemas, kw).Ok?;
    var o := New(cls, schemas, kw).value;
    assert o.attrs == SetAll(base, Stored(kw));
    LookupLastMatch(LowerPairs(json), lk, i);
    assert Get(kw, lk) == Some(json[i].1);
    LookupUnique(kw, lk);
    SetAllGet(base, Stored(kw), lk);
  }

  /** Case-insensitive key folding: the attribute `k.lower()` holds `json[k]`, provided no other
      key of the JSON object lowers to the same name. */
  lemma FromJsonFoldsKeys(cls: ClassName, schemas: Schemas, json: Dict, i: nat)
    requires IsRecordClass(cls) && i < |json| && !IsSlotName(Lower(json[i].0))
    requires forall j :: 0 <= j < |json| && j != i ==> Lower(json[j].0) != Lower(json[i].0)
    requires FromJson(cls, schemas, Some(json)).Ok?
    ensures FromJson(cls, schemas, Some(json)).value.Some?
    ensures Get(FromJson(cls, schemas, Some(json)).value.value.attrs, Lower(json[i].0)) == Some(json[i].1)
  {
    FromJsonLaterKeyWins(cls, schemas, json, i);
  }

  lemma {:induction false} LookupLastMatch(kvs: Dict, k: string, i: nat)
    requires i < |kvs| && kvs[i].0 == k
    requires forall j :: i < j < |kvs| ==> kvs[j].0 != k
    ensures Lookup(kvs, k) == Some(kvs[i].1)
  {
    if i < |kvs| - 1 {
      LookupLastMatch(kvs[..|kvs| - 1], k, i);
    }
  }

  /** A schema field that the JSON object does not mention, in any case, is None. */
  lemma FromJsonMissingFieldIsNone(cls: ClassName, schemas: Schemas, json: Dict, f: string)
    requires IsRecordClass(cls) && f in Fields(schemas, cls)
    requires forall j :: 0 <= j < |json| ==> Lower(json[j].0) != f
    requires FromJson(cls, schemas, Some(json)).Ok?
    ensures FromJson(cls, schemas, Some(json)).value.Some?
    ensures Get(FromJson(cls, schemas, Some(json)).value.value.attrs, f) == Some(PyNone)
  {
    var lk := LowerKeys(json);
    LookupAbsent(LowerPairs(json), f);
    assert f !in Keys(lk);
    InitDefaultsNone(Fields(schemas, cls), lk, f);
  }

  /** `from_json({"__CLASS__": None})` raises: the key lowers to `__class__`, whose descriptor
      wants a class. */
  lemma FromJsonDunderClassRaises(cls: ClassName, schemas: Schemas, json: Dict)
    requires IsRecordClass(cls) && !HasSlotName(Fields(schemas, cls))
    requires json == [("__CLASS__", PyNone)]
    ensures FromJson(cls, schemas, Some(json)).Err?
    ensures FromJson(cls, schemas, Some(json)).error.TypeError?
  {
    LowerDunder("__CLASS__", "__class__");
    assert Lookup(LowerPairs(json), "__class__") == Some(PyNone);
  }

  /** `from_json({"__WEAKREF__": 1})` builds a record without that attribute: `setattr` raises
      AttributeError, which `__init__` catches and prints. */
  lemma FromJsonWeakrefSkipped(cls: ClassName, schemas: Schemas, json: Dict)
    requires IsRecordClass(cls) && !HasSlotName(Fields(schemas, cls))
    requires json == [("__WEAKREF__", PyInt(1))]
    ensures FromJson(cls, schemas, Some(json)).Ok?
    ensures FromJson(cls, schemas, Some(json)).value.Some?
    ensures Get(FromJson(cls, schemas, Some(json)).value.value.attrs, "__weakref__").None?
  {
    LowerDunder("__WEAKREF__", "__weakref__");
    var lowered := LowerPairs(json);
    assert lowered == [("__weakref__", PyInt(1))];
    CopyIsIdentity(lowered);
    WeakrefOnly(LowerKeys(json));
    InitStoresNoSlot(Fields(schemas, cls), LowerKeys(json), "__weakref__");
  }

  lemma WeakrefOnly(kw: Dict)
    requires kw == [("__weakref__", PyInt(1))]
    ensures !RejectedKeyword(Keys(kw))
  {
    assert Keys(kw) == ["__weakref__"];
    assert |"__weakref__"| == 11 && |"self"| == 4 && |"fields"| == 6 && |"__class__"| == 9 && |"__dict__"| == 8;
  }

  lemma LowerDunder(s: string, t: string)
    requires (s == "__CLASS__" && t == "__class__") || (s == "__WEAKREF__" && t == "__weakref__")
    ensures Lower(s) == t
  {
  }

  /** Lower-casing is idempotent: on a JSON object whose keys are already lower case,
      `from_json` builds exactly the record that the constructor builds from it. */
  lemma FromJsonOnLowercase(cls: ClassName, schemas: Schemas, json: Dict)
    requires IsRecordClass(cls) && UniqueKeys(json)
    requires forall j :: 0 <= j < |json| ==> IsLower(json[j].0)
    ensures FromJson(cls, schemas, Some(json)) == match New(cls, schemas, json)
                                                  case Ok(o) => Ok(Some(o))
                                                  case Err(e) => Err(e)
  {
    assert LowerPairs(json) == json;
    CopyIsIdentity(json);
  }

  function EntryText(e: (string, Value)): string
  {
    e.0 + "=" + Str(e.1)
  }

  /** `__repr__`: the class name, then `key=value` for every attribute in insertion order. */
  function Repr(o: Obj): (r: string)
    ensures |r| >= |ClassText(o.cls)| + 2
    ensures r[..|ClassText(o.cls)| + 1] == ClassText(o.cls) + "("
    ensures r[|r| - 1] == ')'
  {
    var r := ClassText(o.cls) + "(" + Join(", ", seq(|o.attrs|, i requires 0 <= i < |o.attrs| => EntryText(o.attrs[i]))) + ")";
    assert r[..|ClassText(o.cls)| + 1] == ClassText(o.cls) + "(";
    r
  }

  /** `name=value` for an attribute `o` has. */
  function AttrText(o: Obj, name: string): (r: string)
    requires name in Keys(o.attrs)
    ensures r == name + "=" + Str(Attr(o, name).value)
  {
    name + "=" + Str(Get(o.attrs, name).value)
  }

  function AttrTexts(o: Obj, names: seq<string>): (r: seq<string>)
    requires forall i :: 0 <= i < |names| ==> names[i] in Keys(o.attrs)
    ensures |r| == |names| && forall i :: 0 <= i < |names| ==> r[i] == AttrText(o, names[i])
  {
    seq(|names|, i requires 0 <= i < |names| => AttrText(o, names[i]))
  }

  /** The repr of an object lists `name=value` for each of its attributes, in insertion order. */
  lemma ReprInOrder(o: Obj)
    requires UniqueKeys(o.attrs)
    ensures Repr(o) == ClassText(o.cls) + "(" + Join(", ", AttrTexts(o, Keys(o.attrs))) + ")"
  {
    var a := seq(|o.attrs|, i requires 0 <= i < |o.attrs| => EntryText(o.attrs[i]));
    var b := AttrTexts(o, Keys(o.attrs));
    forall i | 0 <= i < |o.attrs| ensures a[i] == b[i] {
      assert Get(o.attrs, o.attrs[i].0) == Some(o.attrs[i].1);
    }
    assert a == b;
  }

  /** The repr of a freshly built record lists the schema fields first, in schema order and with
      their values, then the extra keyword attributes. */
  lemma ReprOfNew(cls: ClassName, schemas: Schemas, kwargs: Dict)
    requires IsRecordClass(cls) && New(cls, schemas, kwargs).Ok?
    ensures var o := New(cls, schemas, kwargs).value;
            var names := AppendNew(AppendNew([], Fields(schemas, cls)), Keys(Stored(kwargs)));
            (forall i :: 0 <= i < |names| ==> names[i] in Keys(o.attrs))
            && Repr(o) == ClassText(cls) + "(" + Join(", ", AttrTexts(o, names)) + ")"
  {
    var o := New(cls, schemas, kwargs).value;
    InitOrder(Fields(schemas, cls), kwargs);
    ReprInOrder(o);
  }

  /** The body shared by the four `__eq__` methods: `isinstance(other, C)` and then
      `self.f == other.f` for the class's identifier attribute `f`. */
  function IdentityEq(self: Obj, other: Obj, f: string): (r: Result<bool, Error>)
    ensures other.cls != self.cls ==> r == Ok(false)
    ensures r.Err? <==> other.cls == self.cls && (f !in Keys(self.attrs) || f !in Keys(other.attrs))
    ensures r.Err? ==> r.error.AttributeError? && r.error.name == f
  {
    if other.cls != self.cls then Ok(false)
    else
      match Attr(self, f)
      case Err(e) => Err(e)
      case Ok(a) =>
        match Attr(other, f)
        case Err(e) => Err(e)
        case Ok(b) => Ok(Eq(a, b))
  }

  /** The body shared by the four `__hash__` methods: `hash(self.f)`. */
  function IdentityHash(self: Obj, f: string, env: HashEnv): (r: Result<int, Error>)
    ensures r.Ok? <==> f in Keys(self.attrs)
    ensures r.Ok? ==> r.value == Hash(Get(self.attrs, f).value, env)
    ensures r.Err? ==> r.error == AttributeError(ClassText(self.cls), f)
  {
    match Attr(self, f)
    case Err(e) => Err(e)
    case Ok(a) => Ok(Hash(a, env))
  }

  /** Two objects are identity-equal exactly when they have the same class and equal identifiers;
      an object of another class is never equal, whatever its attributes. */
  lemma IdentityEqIff(self: Obj, other: Obj, f: string)
    ensures IdentityEq(self, other, f) == Ok(true) <==>
      other.cls == self.cls && f in Keys(self.attrs) && f in Keys(other.attrs)
      && Eq(Get(self.attrs, f).value, Get(other.attrs, f).value)
    ensures other.cls != self.cls ==> IdentityEq(self, other, f) == Ok(false)
  {
  }

  /** Identity equality is an equivalence relation on the objects that carry the identifier,
      and it is symmetric even in which error it raises. */
  lemma IdentityEqEquivalence(a: Obj, b: Obj, c: Obj, f: string)
    ensures f in Keys(a.attrs) ==> IdentityEq(a, a, f) == Ok(true)
    ensures IdentityEq(a, b, f) == IdentityEq(b, a, f)
    ensures IdentityEq(a, b, f) == Ok(true) && IdentityEq(b, c, f) == Ok(true) ==> IdentityEq(a, c, f) == Ok(true)
  {
    if f in Keys(a.attrs) && f in Keys(b.attrs) && f in Keys(c.attrs) {
      EqIsEquivalence(Get(a.attrs, f).value, Get(b.attrs, f).value, Get(c.attrs, f).value);
    }
    if f in Keys(a.attrs) && f in Keys(b.attrs) {
      EqIsEquivalence(Get(a.attrs, f).value, Get(b.attrs, f).value, Get(b.attrs, f).value);
    }
  }

  /** The hash agrees with identity equality: equal objects hash equally. */
  lemma IdentityHashRespectsEq(a: Obj, b: Obj, f: string, env: HashEnv)
    requires IdentityEq(a, b, f) == Ok(true)
    ensures IdentityHash(a, f, env).Ok? && IdentityHash(a, f, env) == IdentityHash(b, f, env)
  {
    HashRespectsEq(Get(a.attrs, f).value, Get(b.attrs, f).value, env);
  }
}
