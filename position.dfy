/** `Position`: a W2W record whose identity is `position_id` and whose `str` is
    `name (id)`. */
module PositionRecord {
  import opened Wrappers
  import opened Text
  import opened PyValues
  import opened Dicts
  import opened W2WBase

  const IdField := "position_id"

  /** `Position.__eq__`. */
  function Eq(self: Obj, other: Obj): (r: Result<bool, Error>)
    requires self.cls == Position
    ensures other.cls != Position ==> r == Ok(false)
    ensures r.Err? <==> other.cls == Position && (IdField !in Keys(self.attrs) || IdField !in Keys(other.attrs))
    ensures r.Err? ==> r.error == AttributeError("Position", IdField)
  {
    IdentityEq(self, other, IdField)
  }

  /** `Position.__hash__`. */
  function Hash(self: Obj, env: HashEnv): (r: Result<int, Error>)
    requires self.cls == Position
    ensures r.Ok? <==> IdField in Keys(self.attrs)
    ensures r.Ok? ==> r.value == PyValues.Hash(Get(self.attrs, IdField).value, env)
    ensures r.Err? ==> r.error == AttributeError("Position", IdField)
  {
    IdentityHash(self, IdField, env)
  }

  /** `Position.__str__`: `f"{self.position_name} ({self.position_id})"`. */
  function Str(self: Obj): (r: Result<string, Error>)
    requires self.cls == Position
    ensures r.Ok? <==> "position_name" in Keys(self.attrs) && "position_id" in Keys(self.attrs)
    ensures r.Err? ==> r.error == AttributeError("Position", if "position_name" in Keys(self.attrs) then "position_id" else "position_name")
  {
    match Attr(self, "position_name")
    case Err(e) => Err(e)
    case Ok(name) =>
      match Attr(self, "position_id")
      case Err(e) => Err(e)
      case Ok(id) => Ok(PyValues.Str(name) + " (" + PyValues.Str(id) + ")")
  }

  /** A Position equals exactly the Positions with an equal `position_id`, and never an object of
      another class, even one carrying the same identifier. */
  lemma EqIffSameId(self: Obj, other: Obj)
    requires self.cls == Position
    ensures Eq(self, other) == Ok(true) <==>
      other.cls == Position && IdField in Keys(self.attrs) && IdField in Keys(other.attrs)
      && PyValues.Eq(Get(self.attrs, IdField).value, Get(other.attrs, IdField).value)
    ensures other.cls != Position ==> Eq(self, other) == Ok(false)
  {
    IdentityEqIff(self, other, IdField);
  }

  /** Position equality is reflexive, symmetric and transitive. */
  lemma EqIsEquivalence(a: Obj, b: Obj, c: Obj)
    requires a.cls == Position && b.cls == Position && c.cls == Position
    ensures IdField in Keys(a.attrs) ==> Eq(a, a) == Ok(true)
    ensures Eq(a, b) == Eq(b, a)
    ensures Eq(a, b) == Ok(true) && Eq(b, c) == Ok(true) ==> Eq(a, c) == Ok(true)
  {
    IdentityEqEquivalence(a, b, c, IdField);
  }

  /** Equal positions have equal hashes. */
  lemma HashRespectsEq(a: Obj, b: Obj, env: HashEnv)
    requires a.cls == Position && b.cls == Position && Eq(a, b) == Ok(true)
    ensures Hash(a, env).Ok? && Hash(a, env) == Hash(b, env)
  {
    IdentityHashRespectsEq(a, b, IdField, env);
  }

  /** With both attributes present, `str` is the f-string's text built from their values. */
  lemma StrValue(o: Obj, name: Value, id: Value)
    requires o.cls == Position
    requires Attr(o, "position_name") == Ok(name) && Attr(o, "position_id") == Ok(id)
    ensures Str(o) == Ok(PyValues.Str(name) + " (" + PyValues.Str(id) + ")")
  {
  }

  /** The `str` of a position decoded from JSON is its name followed by its identifier in
      parentheses, taken from the last keys that lower to the attribute
      names, whatever their case. */
  lemma StrFromJson(schemas: Schemas, json: Dict, i: nat, j: nat, name: Value, id: Value)
    requires i < |json| && j < |json|
    requires Lower(json[i].0) == "position_name" && json[i].1 == name
    requires Lower(json[j].0) == "position_id" && json[j].1 == id
    requires forall k :: i < k < |json| ==> Lower(json[k].0) != "position_name"
    requires forall k :: j < k < |json| ==> Lower(json[k].0) != "position_id"
    requires FromJson(Position, schemas, Some(json)).Ok?
    ensures FromJson(Position, schemas, Some(json)).value.Some?
    ensures Str(FromJson(Position, schemas, Some(json)).value.value) == Ok(PyValues.Str(name) + " (" + PyValues.Str(id) + ")")
  {
    FromJsonLaterKeyWins(Position, schemas, json, i);
    FromJsonLaterKeyWins(Position, schemas, json, j);
    StrValue(FromJson(Position, schemas, Some(json)).value.value, name, id);
  }
}
