/** `Employee`: a W2W record whose identity is `w2w_employee_id` and whose `str` is the
    employee's full name. */
module EmployeeRecord {
  import opened Wrappers
  import opened Text
  import opened PyValues
  import opened Dicts
  import opened W2WBase

  const IdField := "w2w_employee_id"

  /** `Employee.__eq__`. */
  function Eq(self: Obj, other: Obj): (r: Result<bool, Error>)
    requires self.cls == Employee
    ensures other.cls != Employee ==> r == Ok(false)
    ensures r.Err? <==> other.cls == Employee && (IdField !in Keys(self.attrs) || IdField !in Keys(other.attrs))
    ensures r.Err? ==> r.error == AttributeError("Employee", IdField)
  {
    IdentityEq(self, other, IdField)
  }

  /** `Employee.__hash__`. */
  function Hash(self: Obj, env: HashEnv): (r: Result<int, Error>)
    requires self.cls == Employee
    ensures r.Ok? <==> IdField in Keys(self.attrs)
    ensures r.Ok? ==> r.value == PyValues.Hash(Get(self.attrs, IdField).value, env)
    ensures r.Err? ==> r.error == AttributeError("Employee", IdField)
  {
    IdentityHash(self, IdField, env)
  }

  /** `Employee.__str__`: `f"{self.first_name} {self.last_name}"`. */
  function Str(self: Obj): (r: Result<string, Error>)
    requires self.cls == Employee
    ensures r.Ok? <==> "first_name" in Keys(self.attrs) && "last_name" in Keys(self.attrs)
    ensures r.Err? ==> r.error == AttributeError("Employee", if "first_name" in Keys(self.attrs) then "last_name" else "first_name")
  {
    match Attr(self, "first_name")
    case Err(e) => Err(e)
    case Ok(first) =>
      match Attr(self, "last_name")
      case Err(e) => Err(e)
      case Ok(last) => Ok(PyValues.Str(first) + " " + PyValues.Str(last))
  }

  /** An Employee equals exactly the Employees with an equal `w2w_employee_id`, and never an object
      of another class, even one carrying the same identifier. */
  lemma EqIffSameId(self: Obj, other: Obj)
    requires self.cls == Employee
    ensures Eq(self, other) == Ok(true) <==>
      other.cls == Employee && IdField in Keys(self.attrs) && IdField in Keys(other.attrs)
      && PyValues.Eq(Get(self.attrs, IdField).value, Get(other.attrs, IdField).value)
    ensures other.cls != Employee ==> Eq(self, other) == Ok(false)
  {
    IdentityEqIff(self, other, IdField);
  }

  /** Employee equality is reflexive, symmetric and transitive. */
  lemma EqIsEquivalence(a: Obj, b: Obj, c: Obj)
    requires a.cls == Employee && b.cls == Employee && c.cls == Employee
    ensures IdField in Keys(a.attrs) ==> Eq(a, a) == Ok(true)
    ensures Eq(a, b) == Eq(b, a)
    ensures Eq(a, b) == Ok(true) && Eq(b, c) == Ok(true) ==> Eq(a, c) == Ok(true)
  {
    IdentityEqEquivalence(a, b, c, IdField);
  }

  /** Equal employees have equal hashes. */
  lemma HashRespectsEq(a: Obj, b: Obj, env: HashEnv)
    requires a.cls == Employee && b.cls == Employee && Eq(a, b) == Ok(true)
    ensures Hash(a, env).Ok? && Hash(a, env) == Hash(b, env)
  {
    IdentityHashRespectsEq(a, b, IdField, env);
  }

  /** With both attributes present, `str` is the f-string's text built from their values. */
  lemma StrValue(o: Obj, first: Value, last: Value)
    requires o.cls == Employee
    requires Attr(o, "first_name") == Ok(first) && Attr(o, "last_name") == Ok(last)
    ensures Str(o) == Ok(PyValues.Str(first) + " " + PyValues.Str(last))
  {
  }

  /** The `str` of an employee decoded from JSON is its first and last name, each as its
      f-string text, taken from the last keys that lower to the attribute
      names, whatever their case. */
  lemma StrFromJson(schemas: Schemas, json: Dict, i: nat, j: nat, first: Value, last: Value)
    requires i < |json| && j < |json|
    requires Lower(json[i].0) == "first_name" && json[i].1 == first
    requires Lower(json[j].0) == "last_name" && json[j].1 == last
    requires forall k :: i < k < |json| ==> Lower(json[k].0) != "first_name"
    requires forall k :: j < k < |json| ==> Lower(json[k].0) != "last_name"
    requires FromJson(Employee, schemas, Some(json)).Ok?
    ensures FromJson(Employee, schemas, Some(json)).value.Some?
    ensures Str(FromJson(Employee, schemas, Some(json)).value.value) == Ok(PyValues.Str(first) + " " + PyValues.Str(last))
  {
    FromJsonLaterKeyWins(Employee, schemas, json, i);
    FromJsonLaterKeyWins(Employee, schemas, json, j);
    StrValue(FromJson(Employee, schemas, Some(json)).value.value, first, last);
  }
}
