/** Decoded JSON responses, and the Python operations the controllers apply to them. */
module Json {
  import opened Wrappers
  import Text

  datatype Json =
    | JNull
    | JBool(b: bool)
    | JInt(i: int)
    | JReal(r: real)
    | JStr(s: string)
    | JArr(items: seq<Json>)
    | JObj(fields: map<string, Json>)

  /** `d.get(k)`: the value under k, None when k is absent; AttributeError when d is no dict. */
  function Get(d: Json, k: string): Result<Json>
  {
    match d
    case JObj(m) => Ok(if k in m then m[k] else JNull)
    case _ => Raised(AttributeError)
  }

  /** `d.get(k)` applied to the outcome of an earlier step. */
  function GetR(d: Result<Json>, k: string): Result<Json>
  {
    if d.Raised? then d else Get(d.value, k)
  }

  /** `d[k]` with a string key: KeyError on a dict without k, TypeError on anything else. */
  function Index(d: Json, k: string): Result<Json>
  {
    match d
    case JObj(m) => if k in m then Ok(m[k]) else Raised(KeyError)
    case _ => Raised(TypeError)
  }

  function IndexR(d: Result<Json>, k: string): Result<Json>
  {
    if d.Raised? then d else Index(d.value, k)
  }

  /** `xs[0]`: the first element of a list or string; IndexError when it is empty. */
  function First(d: Json): Result<Json>
  {
    match d
    case JArr(xs) => if |xs| > 0 then Ok(xs[0]) else Raised(IndexError)
    case JStr(s) => if |s| > 0 then Ok(JStr([s[0]])) else Raised(IndexError)
    case JObj(m) => Raised(KeyError)
    case _ => Raised(TypeError)
  }

  /** Python truthiness: None, False, 0, 0.0, "", [] and {} are false. */
  predicate Truthy(d: Json)
  {
    match d
    case JNull => false
    case JBool(b) => b
    case JInt(i) => i != 0
    case JReal(r) => r != 0.0
    case JStr(s) => s != ""
    case JArr(xs) => xs != []
    case JObj(m) => m != map[]
  }

  /** Python's `int(x)`: strings are parsed, floats truncated toward zero, booleans are 0 or 1. */
  function PyInt(d: Json): Result<int>
  {
    match d
    case JInt(i) => Ok(i)
    case JBool(b) => Ok(if b then 1 else 0)
    case JReal(x) => Ok(if x >= 0.0 then x.Floor else -((-x).Floor))
    case JStr(s) =>
      var p := Text.ParseInt(s);
      if p.Some? then Ok(p.value) else Raised(ValueError)
    case _ => Raised(TypeError)
  }

  /**
   * `out = []; for x in items: out.append(f(x))` where one step may raise: the values of all
   * steps, or the exception of the first step that raises.
   */
  function MapAll<T>(items: seq<Json>, f: Json -> Result<T>): Result<seq<T>>
  {
    if |items| == 0 then Ok([])
    else
      var init := MapAll(items[..|items| - 1], f);
      if init.Raised? then init
      else
        var last := f(items[|items| - 1]);
        if last.Raised? then Raised(last.exc) else Ok(init.value + [last.value])
  }

  /** The loop succeeds iff every step does; then it has one value per item, in order; otherwise it raises what the first failing step raises. */
  lemma {:induction false} MapAllMeaning<T>(items: seq<Json>, f: Json -> Result<T>)
    ensures MapAll(items, f).Ok? <==> forall i :: 0 <= i < |items| ==> f(items[i]).Ok?
    ensures MapAll(items, f).Ok? ==>
      |MapAll(items, f).value| == |items| &&
      forall i :: 0 <= i < |items| ==> MapAll(items, f).value[i] == f(items[i]).value
    ensures MapAll(items, f).Raised? ==>
      exists j :: 0 <= j < |items| && f(items[j]) == Raised(MapAll(items, f).exc) &&
        forall i :: 0 <= i < j ==> f(items[i]).Ok?
  {
    if |items| > 0 {
      var n := |items| - 1;
      var front := items[..n];
      MapAllMeaning(front, f);
      assert forall i :: 0 <= i < n ==> items[i] == front[i];
      var init := MapAll(front, f);
      if init.Raised? {
        var j :| 0 <= j < n && f(front[j]) == Raised(init.exc) && forall i :: 0 <= i < j ==> f(front[i]).Ok?;
        assert f(items[j]) == Raised(init.exc);
      }
    }
  }

  /** Once a prefix of the loop raises, the whole loop raises the same exception. */
  lemma {:induction false} MapAllRaisedPrefix<T>(items: seq<Json>, f: Json -> Result<T>, k: nat)
    requires k <= |items|
    requires MapAll(items[..k], f).Raised?
    ensures MapAll(items, f) == Raised(MapAll(items[..k], f).exc)
  {
    if k < |items| {
      var n := |items| - 1;
      assert items[..n][..k] == items[..k];
      MapAllRaisedPrefix(items[..n], f, k);
    } else {
      assert items[..k] == items;
    }
  }

  /**
   * `for x in d: ...` where the body begins with `x.get(...)`: a list runs the steps; an empty
   * string or dict runs nothing; iterating a non-empty string or dict yields strings, whose
   * `.get` raises AttributeError; other values are not iterable.
   */
  function ForEachGet<T>(d: Json, f: Json -> Result<T>): Result<seq<T>>
  {
    match d
    case JArr(items) => MapAll(items, f)
    case JStr(s) => if |s| == 0 then Ok([]) else Raised(AttributeError)
    case JObj(m) => if |m| == 0 then Ok([]) else Raised(AttributeError)
    case _ => Raised(TypeError)
  }

  /** The loop itself. */
  method Collect<T>(d: Json, f: Json -> Result<T>) returns (r: Result<seq<T>>)
    ensures r == ForEachGet(d, f)
  {
    if !d.JArr? {
      if d.JStr? || d.JObj? {
        var empty := if d.JStr? then |d.s| == 0 else |d.fields| == 0;
        r := if empty then Ok([]) else Raised(AttributeError);
      } else {
        r := Raised(TypeError);
      }
      return;
    }
    var items := d.items;
    var out: seq<T> := [];
    for i := 0 to |items|
      invariant MapAll(items[..i], f) == Ok(out)
    {
      var step := f(items[i]);
      assert items[..i + 1][..i] == items[..i];
      if step.Raised? {
        MapAllRaisedPrefix(items, f, i + 1);
        return Raised(step.exc);
      }
      out := out + [step.value];
    }
    assert items[..|items|] == items;
    r := Ok(out);
  }
}
