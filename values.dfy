/** Shared value types of the export: the loosely typed values found in the
    per-point directive dictionaries, Python's truthiness rules over them, and
    the exceptions that abort an export or an import. */
module Values {

  datatype Option<+T> = None | Some(value: T)

  /** The Python exceptions the modelled code can raise. */
  datatype Error =
    | KeyError        // a dictionary lookup with a missing key
    | TypeError       // float() or int() of None
    | IndexError      // a list or string index out of range
    | ValueError      // int()/float()/datetime()/strftime() rejected its input
    | NameError       // a local variable read before it was ever bound
    | EvalError       // eval() of an empty or malformed directive text
    | ZeroDivision    // float division by zero
    | MathDomain      // math.sqrt of a negative number

  /** Which reading of a defect in the code an operation follows: the code
      as written, or the behaviour its authors evidently intended. The
      defects are `transtokmlhex` on alphas 10 to 15, the output dispatch
      on paths with more than one dot, and the import's handling of
      fractional seconds. */
  datatype Reading = AsWritten | Intended

  datatype Result<+T> = Ok(value: T) | Err(error: Error) {
    predicate IsFailure() { Err? }
    function PropagateFailure<U>(): Result<U> requires Err? { Err(error) }
    function Extract(): T requires Ok? { value }
  }

  /** A value stored in a directive dictionary: None, a number or a string. */
  datatype Value = VNone | VNum(num: real) | VStr(str: string)

  /** Python truthiness: None, zero and the empty string are false. */
  predicate Truthy(v: Value) {
    match v
    case VNone => false
    case VNum(x) => x != 0.0
    case VStr(s) => s != ""
  }

  /** `d[k]` on a Python dict. */
  function Get<K, V>(d: map<K, V>, k: K): (r: Result<V>)
    ensures r.Ok? <==> k in d
    ensures r.Ok? ==> r.value == d[k]
  {
    if k in d then Ok(d[k]) else Err(KeyError)
  }

  /** `bool(d[k])`, raising KeyError when the key is missing. */
  function TruthyAt<K>(d: map<K, Value>, k: K): (r: Result<bool>)
    ensures r.Ok? <==> k in d
    ensures r.Ok? ==> (r.value <==> Truthy(d[k]))
  {
    var v :- Get(d, k);
    Ok(Truthy(v))
  }

  /** `d[k1] and d[k2] and ...` evaluated left to right with short-circuit:
      a missing key raises only if every key before it was truthy. */
  function AllTruthy<K>(d: map<K, Value>, ks: seq<K>): (r: Result<bool>)
    ensures r.Ok? && r.value <==> forall i :: 0 <= i < |ks| ==> ks[i] in d && Truthy(d[ks[i]])
    ensures r.Ok? && r.value ==> forall k :: k in ks ==> k in d && Truthy(d[k])
    ensures r.Err? ==> exists i :: 0 <= i < |ks| && ks[i] !in d
  {
    if ks == [] then Ok(true)
    else if ks[0] !in d then Err(KeyError)
    else if !Truthy(d[ks[0]]) then Ok(false)
    else
      var rest := AllTruthy(d, ks[1..]);
      assert forall i :: 1 <= i < |ks| ==> ks[i] == ks[1..][i - 1];
      rest
  }

  /** `d[k1] or d[k2] or ...` evaluated left to right with short-circuit:
      a missing key raises only if every key before it was falsy. */
  function AnyTruthy<K>(d: map<K, Value>, ks: seq<K>): (r: Result<bool>)
    ensures r.Ok? && r.value <==> exists i :: 0 <= i < |ks| && (forall j :: 0 <= j <= i ==> ks[j] in d) && Truthy(d[ks[i]])
    ensures r.Ok? && !r.value ==> forall i :: 0 <= i < |ks| ==> ks[i] in d && !Truthy(d[ks[i]])
    ensures r.Ok? && !r.value ==> forall k :: k in ks ==> k in d && !Truthy(d[k])
    ensures r.Err? ==> exists i :: 0 <= i < |ks| && ks[i] !in d
  {
    if ks == [] then Ok(false)
    else if ks[0] !in d then Err(KeyError)
    else if Truthy(d[ks[0]]) then Ok(true)
    else
      var rest := AnyTruthy(d, ks[1..]);
      assert forall i :: 1 <= i < |ks| ==> ks[i] == ks[1..][i - 1];
      rest
  }

  /** Python's `x % 360` on floats: the floor-based remainder, in [0, 360). */
  function Mod360(x: real): (r: real)
    ensures 0.0 <= r < 360.0
    ensures ((x - r) / 360.0).Floor as real == (x - r) / 360.0  // differs by whole turns
  {
    var k := (x / 360.0).Floor;
    x - 360.0 * k as real
  }

  /** The remainder is the only value in [0, 360) a whole number of turns
      away from `x`. */
  lemma Mod360Unique(x: real, r: real, k: int)
    requires 0.0 <= r < 360.0 && x - r == 360.0 * k as real
    ensures Mod360(x) == r
  {
    assert k as real <= x / 360.0 < k as real + 1.0;
    assert (x / 360.0).Floor == k;
  }

  /** Reducing before adding a turn changes nothing. */
  lemma Mod360Shift(x: real, d: real)
    ensures Mod360(Mod360(x) + d) == Mod360(x + d)
  {
    var a := (x / 360.0).Floor;
    var m := Mod360(x);
    var b := ((m + d) / 360.0).Floor;
    assert m == x - 360.0 * a as real;
    assert Mod360(m + d) == m + d - 360.0 * b as real;
    Mod360Unique(x + d, Mod360(m + d), a + b);
  }

  /** A whole turn more or less does not change the remainder. */
  lemma Mod360Turn(x: real)
    ensures Mod360(x + 360.0) == Mod360(x) && Mod360(x - 360.0) == Mod360(x)
  {
    var k := (x / 360.0).Floor;
    Mod360Unique(x + 360.0, Mod360(x), k + 1);
    Mod360Unique(x - 360.0, Mod360(x), k - 1);
  }

  /** `int(x)` on a float: truncation toward zero. */
  function Trunc(x: real): (r: int)
    ensures x >= 0.0 ==> r as real <= x < r as real + 1.0
    ensures x < 0.0 ==> r as real - 1.0 < x <= r as real
  {
    if x >= 0.0 then x.Floor else -((-x).Floor)
  }

  /** Python 2's `round(x, 1)` for `x >= 0`: the nearest tenth, halves
      rounded up. */
  function Round1(x: real): (r: real)
    requires x >= 0.0
    ensures r >= 0.0 && x - 0.05 < r <= x + 0.05
    ensures (r * 10.0).Floor as real == r * 10.0  // a whole number of tenths
  {
    (x * 10.0 + 0.5).Floor as real / 10.0
  }
}
