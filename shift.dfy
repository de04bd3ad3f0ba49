/** `Shift`: a W2W record whose identity is `shift_id` and whose `str` names the employee and
    the start and end of the shift. */
module ShiftRecord {
  import opened Wrappers
  import opened Text
  import opened PyValues
  import opened Dicts
  import opened W2WBase

  const IdField := "shift_id"

  /** The attributes `__str__` reads, in the order the f-string reads them. */
  const StrFields: seq<string> := ["first_name", "last_name", "start_date", "start_time", "end_date", "end_time"]

  /** `Shift.__eq__`. */
  function Eq(self: Obj, other: Obj): (r: Result<bool, Error>)
    requires self.cls == Shift
    ensures other.cls != Shift ==> r == Ok(false)
    ensures r.Err? <==> other.cls == Shift && (IdField !in Keys(self.attrs) || IdField !in Keys(other.attrs))
    ensures r.Err? ==> r.error == AttributeError("Shift", IdField)
  {
    IdentityEq(self, other, IdField)
  }

  /** `Shift.__hash__`. */
  function Hash(self: Obj, env: HashEnv): (r: Result<int, Error>)
    requires self.cls == Shift
    ensures r.Ok? <==> IdField in Keys(self.attrs)
    ensures r.Ok? ==> r.value == PyValues.Hash(Get(self.attrs, IdField).value, env)
    ensures r.Err? ==> r.error == AttributeError("Shift", IdField)
  {
    IdentityHash(self, IdField, env)
  }

  /** `Shift.__str__`:
      `f"{first_name} {last_name} - {start_date} {start_time} to {end_date} {end_time}"`. */
  function Str(self: Obj): (r: Result<string, Error>)
    requires self.cls == Shift
    ensures r.Err? ==> r.error.AttributeError? && r.error.owner == "Shift" && r.error.name in StrFields
    ensures r.Err? ==> r.error.name !in Keys(self.attrs)
  {
    match Attr(self, "first_name")
    case Err(e) => Err(e)
    case Ok(first) =>
      match Attr(self, "last_name")
      case Err(e) => Err(e)
      case Ok(last) =>
        match Attr(self, "start_date")
        case Err(e) => Err(e)
        case Ok(startDate) =>
          match Attr(self, "start_time")
          case Err(e) => Err(e)
          case Ok(startTime) =>
            match Attr(self, "end_date")
            case Err(e) => Err(e)
            case Ok(endDate) =>
              match Attr(self, "end_time")
              case Err(e) => Err(e)
              case Ok(endTime) =>
                Ok(PyValues.Str(first) + " " + PyValues.Str(last) + " - "
                   + PyValues.Str(startDate) + " " + PyValues.Str(startTime) + " to "
                   + PyValues.Str(endDate) + " " + PyValues.Str(endTime))
  }

  /** A Shift equals exactly the Shifts with an equal `shift_id`, and never an object of another
      class, even one carrying the same identifier. */
  lemma EqIffSameId(self: Obj, other: Obj)
    requires self.cls == Shift
    ensures Eq(self, other) == Ok(true) <==>
      other.cls == Shift && IdField in Keys(self.attrs) && IdField in Keys(other.attrs)
      && PyValues.Eq(Get(self.attrs, IdField).value, Get(other.attrs, IdField).value)
    ensures other.cls != Shift ==> Eq(self, other) == Ok(false)
  {
    IdentityEqIff(self, other, IdField);
  }

  /** Shift equality is reflexive, symmetric and transitive. */
  lemma EqIsEquivalence(a: Obj, b: Obj, c: Obj)
    requires a.cls == Shift && b.cls == Shift && c.cls == Shift
    ensures IdField in Keys(a.attrs) ==> Eq(a, a) == Ok(true)
    ensures Eq(a, b) == Eq(b, a)
    ensures Eq(a, b) == Ok(true) && Eq(b, c) == Ok(true) ==> Eq(a, c) == Ok(true)
  {
    IdentityEqEquivalence(a, b, c, IdField);
  }

  /** Equal shifts have equal hashes. */
  lemma HashRespectsEq(a: Obj, b: Obj, env: HashEnv)
    requires a.cls == Shift && b.cls == Shift && Eq(a, b) == Ok(true)
    ensures Hash(a, env).Ok? && Hash(a, env) == Hash(b, env)
  {
    IdentityHashRespectsEq(a, b, IdField, env);
  }

  /** `str` reads only its six attributes: shifts that agree on them print alike, and a shift
      lacking one of them raises AttributeError. */
  lemma StrReadsOnlyItsFields(a: Obj, b: Obj)
    requires a.cls == Shift && b.cls == Shift
    requires forall i :: 0 <= i < |StrFields| ==> Get(a.attrs, StrFields[i]) == Get(b.attrs, StrFields[i])
    ensures Str(a) == Str(b)
    ensures Str(a).Err? <==> exists i :: 0 <= i < |StrFields| && StrFields[i] !in Keys(a.attrs)
  {
    SameAttrs(a, b);
    StrErrIffMissing(a);
  }

  lemma SameAttrs(a: Obj, b: Obj)
    requires a.cls == Shift && b.cls == Shift
    requires forall i :: 0 <= i < |StrFields| ==> Get(a.attrs, StrFields[i]) == Get(b.attrs, StrFields[i])
    ensures Str(a) == Str(b)
  {
    AttrsAgree(a, b, StrFields[0]);
    AttrsAgree(a, b, StrFields[1]);
    AttrsAgree(a, b, StrFields[2]);
    AttrsAgree(a, b, StrFields[3]);
    AttrsAgree(a, b, StrFields[4]);
    AttrsAgree(a, b, StrFields[5]);
  }

  lemma AttrsAgree(a: Obj, b: Obj, k: string)
    requires a.cls == b.cls && Get(a.attrs, k) == Get(b.attrs, k)
    ensures Attr(a, k) == Attr(b, k)
  {
  }

  /** `str` raises exactly when one of its six attributes is missing. */
  lemma StrErrIffMissing(a: Obj)
    requires a.cls == Shift
    ensures Str(a).Err? <==> exists i :: 0 <= i < |StrFields| && StrFields[i] !in Keys(a.attrs)
  {
    if forall i :: 0 <= i < |StrFields| ==> StrFields[i] in Keys(a.attrs) {
      assert Attr(a, "first_name").Ok? by { assert StrFields[0] == "first_name"; }
      assert Attr(a, "last_name").Ok? by { assert StrFields[1] == "last_name"; }
      assert Attr(a, "start_date").Ok? by { assert StrFields[2] == "start_date"; }
      assert Attr(a, "start_time").Ok? by { assert StrFields[3] == "start_time"; }
      assert Attr(a, "end_date").Ok? by { assert StrFields[4] == "end_date"; }
      assert Attr(a, "end_time").Ok? by { assert StrFields[5] == "end_time"; }
    } else {
      var i :| 0 <= i < |StrFields| && StrFields[i] !in Keys(a.attrs);
      assert Attr(a, StrFields[i]).Err?;
    }
  }

  /** With all six attributes present, `str` is the f-string's text: the names, a dash, the start
      and, after "to", the end. */
  lemma StrValue(o: Obj, first: Value, last: Value, startDate: Value, startTime: Value, endDate: Value, endTime: Value)
    requires o.cls == Shift
    requires Attr(o, "first_name") == Ok(first) && Attr(o, "last_name") == Ok(last)
    requires Attr(o, "start_date") == Ok(startDate) && Attr(o, "start_time") == Ok(startTime)
    requires Attr(o, "end_date") == Ok(endDate) && Attr(o, "end_time") == Ok(endTime)
    ensures Str(o) == Ok(PyValues.Str(first) + " " + PyValues.Str(last) + " - "
                         + PyValues.Str(startDate) + " " + PyValues.Str(startTime) + " to "
                         + PyValues.Str(endDate) + " " + PyValues.Str(endTime))
  {
  }

  /** The `str` of a shift decoded from JSON: `vals[n]` is the value of the last key that lowers
      to `StrFields[n]`, found at `idx[n]`, whatever the case of the JSON keys. */
  lemma StrFromJson(schemas: Schemas, json: Dict, idx: seq<nat>, vals: seq<Value>)
    requires |idx| == |StrFields| && |vals| == |StrFields|
    requires forall n :: 0 <= n < |StrFields| ==>
      idx[n] < |json| && Lower(json[idx[n]].0) == StrFields[n] && json[idx[n]].1 == vals[n]
    requires forall n, k :: 0 <= n < |StrFields| && idx[n] < k < |json| ==> Lower(json[k].0) != StrFields[n]
    requires FromJson(Shift, schemas, Some(json)).Ok?
    ensures FromJson(Shift, schemas, Some(json)).value.Some?
    ensures Str(FromJson(Shift, schemas, Some(json)).value.value)
            == Ok(PyValues.Str(vals[0]) + " " + PyValues.Str(vals[1]) + " - "
                  + PyValues.Str(vals[2]) + " " + PyValues.Str(vals[3]) + " to "
                  + PyValues.Str(vals[4]) + " " + PyValues.Str(vals[5]))
  {
    var o := FromJson(Shift, schemas, Some(json)).value.value;
    forall n | 0 <= n < |StrFields| ensures Attr(o, StrFields[n]) == Ok(vals[n]) {
      StrFieldIsPlain(StrFields[n]);
      FromJsonLaterKeyWins(Shift, schemas, json, idx[n]);
    }
    StrFieldNames();
    StrValue(o, vals[0], vals[1], vals[2], vals[3], vals[4], vals[5]);
  }

  lemma StrFieldNames()
    ensures StrFields[0] == "first_name" && StrFields[1] == "last_name"
    ensures StrFields[2] == "start_date" && StrFields[3] == "start_time"
    ensures StrFields[4] == "end_date" && StrFields[5] == "end_time"
  {
  }

  /** None of the six attributes is a descriptor name. */
  lemma StrFieldIsPlain(k: string)
    requires k in StrFields
    ensures !IsSlotName(k)
  {
    assert |"__class__"| == 9 && |"__dict__"| == 8 && |"__weakref__"| == 11;
    assert forall i :: 0 <= i < |StrFields| ==> StrFields[i][0] != '_';
  }

  /** A shift built with no keyword arguments from a schema listing the six attributes prints
      every one of them as None. */
  lemma StrOfEmptyShift(schemas: Schemas)
    requires forall i :: 0 <= i < |StrFields| ==> StrFields[i] in schemas.shift
    requires !HasSlotName(schemas.shift)
    ensures New(Shift, schemas, []).Ok?
    ensures Str(New(Shift, schemas, []).value) == Ok("None None - None None to None None")
  {
    var o := New(Shift, schemas, []).value;
    assert Keys([]) == [];
    forall i | 0 <= i < |StrFields| ensures Attr(o, StrFields[i]) == Ok(PyNone) {
      InitDefaultsNone(schemas.shift, [], StrFields[i]);
    }
    StrOfNoneFields(o);
    AllNoneText();
  }

  /** A shift whose six attributes are all None prints `None` in each place. */
  lemma StrOfNoneFields(o: Obj)
    requires o.cls == Shift
    requires forall i :: 0 <= i < |StrFields| ==> Attr(o, StrFields[i]) == Ok(PyNone)
    ensures var n := PyValues.Str(PyNone);
            Str(o) == Ok(n + " " + n + " - " + n + " " + n + " to " + n + " " + n)
  {
    assert Attr(o, "first_name") == Ok(PyNone) by { assert StrFields[0] == "first_name"; }
    assert Attr(o, "last_name") == Ok(PyNone) by { assert StrFields[1] == "last_name"; }
    assert Attr(o, "start_date") == Ok(PyNone) by { assert StrFields[2] == "start_date"; }
    assert Attr(o, "start_time") == Ok(PyNone) by { assert StrFields[3] == "start_time"; }
    assert Attr(o, "end_date") == Ok(PyNone) by { assert StrFields[4] == "end_date"; }
    assert Attr(o, "end_time") == Ok(PyNone) by { assert StrFields[5] == "end_time"; }
  }

  lemma AllNoneText()
    ensures var n := PyValues.Str(PyNone);
            n + " " + n + " - " + n + " " + n + " to " + n + " " + n == "None None - None None to None None"
  {
  }
}
