/** The Python values a W2W record attribute can hold, with Python's `==`, `hash()` and `str()`
    on them, and the exceptions the modelled code raises. */
module PyValues {
  import opened Wrappers
  import opened Text

  /** JSON scalars as Python holds them after decoding: None, bool, int and str. */
  datatype Value = PyNone | PyBool(b: bool) | PyInt(i: int) | PyStr(s: string)

  /** The exceptions raised by the modelled code. */
  datatype Error =
    | ValueError(message: string)
    | KeyError(key: string)
    | AttributeError(owner: string, name: string)
    | TypeError(message: string)
    | JsonDecodeError
      /** `strptime`'s ValueError: the text does not match `%Y-%m-%d`, or characters remain after it. */
    | DateFormatError(text: string)
      /** `strptime`'s ValueError: the fields parsed but name no calendar date (day 31 of April, year 0). */
    | DateRangeError(year: int, month: int, day: int)

  /** `bool` is a subclass of `int` in Python, so `True == 1` and `False == 0`. */
  function Numeric(v: Value): (n: Option<int>)
    ensures n.Some? <==> (v.PyBool? || v.PyInt?)
    ensures v.PyBool? ==> n == Some(if v.b then 1 else 0)
    ensures v.PyInt? ==> n == Some(v.i)
  {
    match v
    case PyBool(b) => Some(if b then 1 else 0)
    case PyInt(i) => Some(i)
    case _ => None
  }

  /** Python's `a == b` on the values above. */
  predicate Eq(a: Value, b: Value)
    ensures a == b ==> Eq(a, b)
    ensures a.PyNone? || a.PyStr? ==> (Eq(a, b) <==> a == b)
    ensures a.PyBool? && b.PyInt? ==> (Eq(a, b) <==> b.i == if a.b then 1 else 0)
    ensures a.PyInt? && b.PyInt? ==> (Eq(a, b) <==> a.i == b.i)
  {
    if Numeric(a).Some? && Numeric(b).Some? then Numeric(a) == Numeric(b) else a == b
  }

  lemma EqIsEquivalence(a: Value, b: Value, c: Value)
    ensures Eq(a, a)
    ensures Eq(a, b) <==> Eq(b, a)
    ensures Eq(a, b) && Eq(b, c) ==> Eq(a, c)
  {
  }

  /** On 64-bit CPython integers hash modulo the Mersenne prime 2^61 - 1. */
  const HashModulus: int := 0x1FFF_FFFF_FFFF_FFFF

  /** CPython's `hash(int)`: the residue keeps the sign of the number, and -1 (the C-level
      error marker) is replaced by -2. */
  function IntHash(i: int): (h: int)
    ensures h != -1
    ensures -HashModulus < h < HashModulus
    ensures 0 <= i < HashModulus ==> h == i
    ensures -HashModulus < i < -1 ==> h == i
  {
    var r := if i >= 0 then i % HashModulus else -((-i) % HashModulus);
    if r == -1 then -2 else r
  }

  /** The parts of `hash()` that depend on the process: `hash(None)` and the salted string hash
      (PYTHONHASHSEED). */
  datatype HashEnv = HashEnv(noneHash: int, strHash: string -> int)

  /** Python's `hash(v)`. */
  function Hash(v: Value, env: HashEnv): (h: int)
    ensures v.PyNone? ==> h == env.noneHash
    ensures v.PyStr? ==> h == env.strHash(v.s)
    ensures Numeric(v).Some? ==> h == IntHash(Numeric(v).value) && h != -1
    ensures Numeric(v).Some? && 0 <= Numeric(v).value < HashModulus ==> h == Numeric(v).value
  {
    match v
    case PyNone => env.noneHash
    case PyBool(b) => IntHash(if b then 1 else 0)
    case PyInt(i) => IntHash(i)
    case PyStr(s) => env.strHash(s)
  }

  /** Python's contract between `==` and `hash`: equal values hash equally (so `hash(True) ==
      hash(1)`). */
  lemma HashRespectsEq(a: Value, b: Value, env: HashEnv)
    requires Eq(a, b)
    ensures Hash(a, env) == Hash(b, env)
  {
    if Numeric(a).Some? && Numeric(b).Some? {
      assert Hash(a, env) == IntHash(Numeric(a).value);
      assert Hash(b, env) == IntHash(Numeric(b).value);
    }
  }

  /** Python's `str(v)`, which is also what an f-string placeholder `{v}` produces. */
  function Str(v: Value): (r: string)
    ensures v.PyStr? ==> r == v.s
    ensures v.PyNone? ==> r == "None"
    ensures v.PyBool? ==> r == if v.b then "True" else "False"
    ensures v.PyInt? && v.i >= 0 ==> AllDigits(r) && DigitsValue(r) == v.i
    ensures v.PyInt? && v.i < 0 ==> |r| >= 1 && r[0] == '-' && AllDigits(r[1..]) && DigitsValue(r[1..]) == -v.i
  {
    match v
    case PyNone => "None"
    case PyBool(b) => if b then "True" else "False"
    case PyInt(i) => IntText(i)
    case PyStr(s) => s
  }
}
