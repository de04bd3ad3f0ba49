/** `Category`: a W2W record whose identity is `category_id` and whose `str` is
    `name (id)`. */
module CategoryRecord {
  import opened Wrappers
  import opened Text
  import opened PyValues
  import opened Dicts
  import opened W2WBase

  const IdField := "category_id"

  /** `Category.__eq__`. */
  function Eq(self: Obj, other: Obj): (r: Result<bool, Error>)
    requires self.cls == Category
    ensures other.cls != Category ==> r == Ok(false)
    ensures r.Err? <==> other.cls == Category && (IdField !in Keys(self.attrs) || IdField !in Keys(other.attrs))
    ensures r.Err? ==> r.error == AttributeError("Category", IdField)
  {
    IdentityEq(self, other, IdField)
  }

  /** `Category.__hash__`. */
  function Hash(self: Obj, env: HashEnv): (r: Result<int, Error>)
    requires self.cls == Category
    ensures r.Ok? <==> IdField in Keys(self.attrs)
    ensures r.Ok? ==> r.value == PyValues.Hash(Get(self.attrs, IdField).value, env)
    ensures r.Err? ==> r.error == AttributeError("Category", IdField)
  {
    IdentityHash(self, IdField, env)
  }

  /** `Category.__str__`: `f"{self.category_name} ({self.category_id})"`. */
  function Str(self: Obj): (r: Result<string, Error>)
    requires self.cls == Category
    ensures r.Ok? <==> "category_name" in Keys(self.attrs) && "category_id" in Keys(self.attrs)
    ensures r.Err? ==> r.error == AttributeError("Category", if "category_name" in Keys(self.attrs) then "category_id" else "category_name")
  {
    match Attr(self, "category_name")
    case Err(e) => Err(e)
    case Ok(name) =>
      match Attr(self, "category_id")
      case Err(e) => Err(e)
      case Ok(id) => Ok(PyValues.Str(name) + " (" + PyValues.Str(id) + ")")
  }

  /** A Category equals exactly the Categorys with an equal `category_id`, and never an object of
      another class, even one carrying the same identifier. */
  lemma EqIffSameId(self: Obj, other: Obj)
    requires self.cls == Category
    ensures Eq(self, other) == Ok(true) <==>
      other.cls == Category && IdField in Keys(self.attrs) && IdField in Keys(other.attrs)
      && PyValues.Eq(Get(self.attrs, IdField).value, Get(other.attrs, IdField).value)
    ensures other.cls != Category ==> Eq(self, other) == Ok(false)
  {
    IdentityEqIff(self, other, IdField);
  }

  /** Category equality is reflexive, symmetric and transitive. */
  lemma EqIsEquivalence(a: Obj, b: Obj, c: Obj)
    requires a.cls == Category && b.cls == Category && c.cls == Category
    ensures IdField in Keys(a.attrs) ==> Eq(a, a) == Ok(true)
    ensures Eq(a, b) == Eq(b, a)
    ensures Eq(a, b) == Ok(true) && Eq(b, c) == Ok(true) ==> Eq(a, c) == Ok(true)
  {
    IdentityEqEquivalence(a, b, c, IdField);
  }

  /** Equal categorys have equal hashes. */
  lemma HashRespectsEq(a: Obj, b: Obj, env: HashEnv)
    requires a.cls == Category && b.cls == Category && Eq(a, b) == Ok(true)
    ensures Hash(a, env).Ok? && Hash(a, env) == Hash(b, env)
  {
    IdentityHashRespectsEq(a, b, IdField, env);
  }

  /** With both attributes present, `str` is the f-string's text built from their values. */
  lemma StrValue(o: Obj, name: Value, id: Value)
    requires o.cls == Category
    requires Attr(o, "category_name") == Ok(name) && Attr(o, "category_id") == Ok(id)
    ensures Str(o) == Ok(PyValues.Str(name) + " (" + PyValues.Str(id) + ")")
  {
  }

  /** The `str` of a category decoded from JSON is its name followed by its identifier in
      parentheses, taken from the last keys that lower to the attribute
      names, whatever their case. */
  lemma StrFromJson(schemas: Schemas, json: Dict, i: nat, j: nat, name: Value, id: Value)
    requires i < |json| && j < |json|
    requires Lower(json[i].0) == "category_name" && json[i].1 == name
    requires Lower(json[j].0) == "category_id" && json[j].1 == id
    requires forall k :: i < k < |json| ==> Lower(json[k].0) != "category_name"
    requires forall k :: j < k < |json| ==> Lower(json[k].0) != "category_id"
    requires FromJson(Category, schemas, Some(json)).Ok?
    ensures FromJson(Category, schemas, Some(json)).value.Some?
    ensures Str(FromJson(Category, schemas, Some(json)).value.value) == Ok(PyValues.Str(name) + " (" + PyValues.Str(id) + ")")
  {
    FromJsonLaterKeyWins(Category, schemas, json, i);
    FromJsonLaterKeyWins(Category, schemas, json, j);
    StrValue(FromJson(Category, schemas, Some(json)).value.value, name, id);
  }
}
