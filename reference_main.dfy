/**
 * The reference `/api/update-state` endpoint (`src/frontend/src/reference/main.py`):
 * from the incoming counters it builds a fresh state holding the next test
 * number, the user's name, a reset button count and the running sum of
 * presses. The request body arrives already decoded.
 */
module ReferenceMain {
  import opened Wrappers
  import opened Json

  /**
   * Python's `a + b` on decoded JSON values: numbers add (a bool counts as
   * 0 or 1, and the sum is a float as soon as one side is), strings and
   * lists concatenate, and anything else, None included, is a TypeError.
   */
  function PyAdd(a: Value, b: Value): (r: Result<Value, PyError>)
    ensures a == Null || b == Null ==> r == Err(TypeError)
  {
    if a.Str? && b.Str? then Ok(Str(a.s + b.s))
    else if a.List? && b.List? then Ok(List(a.items + b.items))
    else if IsNumber(a) && IsNumber(b) then
      if a.Float? || b.Float? then Ok(Float(AsReal(a) + AsReal(b))) else Ok(Int(AsInt(a) + AsInt(b)))
    else Err(TypeError)
  }

  /** `bool`, `int` and `float`: the values `+` treats as numbers. */
  predicate IsNumber(v: Value)
  {
    v.Bool? || v.Int? || v.Float?
  }

  function AsInt(v: Value): int
    requires v.Bool? || v.Int?
  {
    if v.Bool? then (if v.b then 1 else 0) else v.i
  }

  function AsReal(v: Value): real
    requires IsNumber(v)
  {
    if v.Float? then v.f else AsInt(v) as real
  }

  /** Integer and float addition agree with the arithmetic they stand for, and commute. */
  lemma PyAddNumbers(a: Value, b: Value)
    requires IsNumber(a) && IsNumber(b)
    ensures PyAdd(a, b) == PyAdd(b, a)
    ensures PyAdd(a, b).Ok? && AsReal(PyAdd(a, b).value) == AsReal(a) + AsReal(b)
    ensures PyAdd(a, b).value.Int? <==> !a.Float? && !b.Float?
  {
  }

  /** `int + int` is the integer sum. */
  lemma PyAddInts(a: int, b: int)
    ensures PyAdd(Int(a), Int(b)) == Ok(Int(a + b))
  {
  }

  /** `update_state`: the four-key state built from the incoming one. */
  function UpdateState(data: Value): (r: Result<Value, PyError>)
    ensures !data.Object? ==> r == Err(AttributeError)
  {
    match StateOf(data)
    case Err(e) => Err(e)
    case Ok(state) =>
      if !state.Object? then Err(AttributeError)
      else
        match NextState(state.fields)
        case Err(e) => Err(e)
        case Ok(out) => Ok(Object(out))
  }

  /** The dict built from the incoming state's fields, or the TypeError of an addition. */
  function NextState(fs: seq<Field>): Result<seq<Field>, PyError>
  {
    var next := PyAdd(GetOr(fs, "test_num", Null), Int(1));
    var sum := PyAdd(GetOr(fs, "sum_of_pressed", Null), GetOr(fs, "button_pressed", Null));
    if next.Err? then Err(next.error)
    else if sum.Err? then Err(sum.error)
    else Ok(Answer(next.value, GetOr(fs, "user", Null), sum.value))
  }

  /** The dict the handler answers with. */
  function Answer(next: Value, name: Value, sum: Value): seq<Field>
  {
    [Field("test_num", next), Field("name", name), Field("button_pressed", Int(0)), Field("sum_of_pressed", sum)]
  }

  /** The answer holds exactly the four keys, in this order, with the values given and the count reset to 0. */
  lemma AnswerFields(next: Value, name: Value, sum: Value)
    ensures var out := Answer(next, name, sum);
      && Keys(out) == ["test_num", "name", "button_pressed", "sum_of_pressed"]
      && Get(out, "test_num") == Some(next)
      && Get(out, "name") == Some(name)
      && Get(out, "button_pressed") == Some(Int(0))
      && Get(out, "sum_of_pressed") == Some(sum)
  {
    var f0, f1, f2, f3 := Field("test_num", next), Field("name", name), Field("button_pressed", Int(0)),
      Field("sum_of_pressed", sum);
    var t3: seq<Field> := [f3] + [];
    var t2 := [f2] + t3;
    var t1 := [f1] + t2;
    assert Answer(next, name, sum) == [f0] + t1;
    GetCons(f0, t1, "");
    GetCons(f1, t2, "");
    GetCons(f2, t3, "");
    GetCons(f3, [], "");
    forall k
      ensures Get(Answer(next, name, sum), k) ==
        if k == "test_num" then Some(next) else if k == "name" then Some(name)
        else if k == "button_pressed" then Some(Int(0)) else if k == "sum_of_pressed" then Some(sum) else None
    {
      GetCons(f0, t1, k);
      GetCons(f1, t2, k);
      GetCons(f2, t3, k);
      GetCons(f3, [], k);
    }
  }

  /** With integer counters both additions are integer additions. */
  lemma NextStateInts(fs: seq<Field>, n: int, sum: int, pressed: int)
    requires GetOr(fs, "test_num", Null) == Int(n)
    requires GetOr(fs, "sum_of_pressed", Null) == Int(sum) && GetOr(fs, "button_pressed", Null) == Int(pressed)
    ensures NextState(fs) == Ok(Answer(Int(n + 1), GetOr(fs, "user", Null), Int(sum + pressed)))
  {
    PyAddInts(n, 1);
    PyAddInts(sum, pressed);
  }

  /**
   * With integer counters the answer holds exactly the four keys: the next
   * test number, the incoming "user" (None when absent), a button count of
   * 0, and the sum plus the presses; every other incoming key is dropped.
   */
  lemma UpdateStateCounters(data: Value, fs: seq<Field>, n: int, sum: int, pressed: int)
    requires StateOf(data) == Ok(Object(fs))
    requires GetOr(fs, "test_num", Null) == Int(n)
    requires GetOr(fs, "sum_of_pressed", Null) == Int(sum) && GetOr(fs, "button_pressed", Null) == Int(pressed)
    ensures UpdateState(data).Ok?
    ensures var out := UpdateState(data).value;
      && out.Object? && Keys(out.fields) == ["test_num", "name", "button_pressed", "sum_of_pressed"]
      && Get(out.fields, "test_num") == Some(Int(n + 1))
      && Get(out.fields, "name") == Some(GetOr(fs, "user", Null))
      && Get(out.fields, "button_pressed") == Some(Int(0))
      && Get(out.fields, "sum_of_pressed") == Some(Int(sum + pressed))
  {
    NextStateInts(fs, n, sum, pressed);
    AnswerFields(Int(n + 1), GetOr(fs, "user", Null), Int(sum + pressed));
  }

  /** A state missing any of the three counters makes the handler add to None: a TypeError. */
  lemma UpdateStateMissingCounter(data: Value, fs: seq<Field>)
    requires StateOf(data) == Ok(Object(fs))
    requires !Has(fs, "test_num") || !Has(fs, "sum_of_pressed") || !Has(fs, "button_pressed")
    ensures UpdateState(data) == Err(TypeError)
  {
  }

  /** A state that is not a dict has no `.get`. */
  lemma UpdateStateNotDict(data: Value)
    requires StateOf(data).Ok? && !StateOf(data).value.Object?
    ensures UpdateState(data) == Err(AttributeError)
  {
  }
}
