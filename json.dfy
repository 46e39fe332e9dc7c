/**
 * The JSON-shaped values that the bot's `to_dict` methods produce and its `from_dict`
 * methods consume: Python dicts, lists, strings, numbers, booleans and None.
 */
module Json {
  import opened Wrappers

  datatype Json =
    | JNull
    | JBool(b: bool)
    | JInt(i: int)
    | JNum(n: real)
    | JStr(s: string)
    | JArr(items: seq<Json>)
    | JObj(fields: map<string, Json>)

  /** `data[key]` on a dict. */
  function Field(d: map<string, Json>, key: string): (r: Result<Json>)
    ensures r.Success? <==> key in d
    ensures r.Success? ==> r.value == d[key]
    ensures r.Failure? ==> r.error == KeyError(key)
  {
    if key in d then Success(d[key]) else Failure(KeyError(key))
  }

  /** `data[key]` where the value is used as a string. */
  function StrField(d: map<string, Json>, key: string): (r: Result<string>)
    ensures r.Success? <==> key in d && d[key].JStr?
    ensures r.Success? ==> d[key] == JStr(r.value)
  {
    if key !in d then Failure(KeyError(key))
    else if d[key].JStr? then Success(d[key].s)
    else Failure(TypeError(key))
  }

  /** `data[key]` where the value is used as a number. */
  function NumField(d: map<string, Json>, key: string): (r: Result<real>)
    ensures r.Success? <==> key in d && d[key].JNum?
    ensures r.Success? ==> d[key] == JNum(r.value)
  {
    if key !in d then Failure(KeyError(key))
    else if d[key].JNum? then Success(d[key].n)
    else Failure(TypeError(key))
  }

  /** `data[key]` where the value is used as an integer. */
  function IntField(d: map<string, Json>, key: string): (r: Result<int>)
    ensures r.Success? <==> key in d && d[key].JInt?
    ensures r.Success? ==> d[key] == JInt(r.value)
  {
    if key !in d then Failure(KeyError(key))
    else if d[key].JInt? then Success(d[key].i)
    else Failure(TypeError(key))
  }

  /** `data.get(key, default)` where the value is used as a number. */
  function NumFieldOr(d: map<string, Json>, key: string, default: real): (r: Result<real>)
    ensures key !in d ==> r == Success(default)
    ensures key in d ==> r == NumField(d, key)
  {
    if key in d then NumField(d, key) else Success(default)
  }

  /** `data.get(key, default)` where the value is used as a boolean. */
  function BoolFieldOr(d: map<string, Json>, key: string, default: bool): (r: Result<bool>)
    ensures key !in d ==> r == Success(default)
    ensures key in d ==> (r.Success? <==> d[key].JBool?)
    ensures key in d && r.Success? ==> d[key] == JBool(r.value)
  {
    if key !in d then Success(default)
    else if d[key].JBool? then Success(d[key].b)
    else Failure(TypeError(key))
  }
}
