/**
 * Decoded JSON values, as `encoding/json` hands them to the server inside
 * `map[string]interface{}`: strings, numbers, booleans, arrays and objects.
 * Numbers are whole numbers here (the float64 of the decoder is not modelled).
 */
module Json {
  import opened Wrappers

  datatype Json =
    | JNull
    | JBool(b: bool)
    | JNum(n: int)
    | JStr(s: string)
    | JArr(items: seq<Json>)
    | JObj(fields: map<string, Json>)

  /** Go's `args[key].(string)`: the string under `key`, if there is one. */
  function GetString(args: map<string, Json>, key: string): (r: Option<string>)
    ensures r.Some? <==> key in args && args[key].JStr?
    ensures r.Some? ==> args[key] == JStr(r.value)
  {
    if key in args && args[key].JStr? then Some(args[key].s) else None
  }

  /** Go's `args[key].(float64)`: the number under `key`, if there is one. */
  function GetNumber(args: map<string, Json>, key: string): (r: Option<int>)
    ensures r.Some? <==> key in args && args[key].JNum?
    ensures r.Some? ==> args[key] == JNum(r.value)
  {
    if key in args && args[key].JNum? then Some(args[key].n) else None
  }

  /** Go's `args[key].(bool)`: the boolean under `key`, if there is one. */
  function GetBool(args: map<string, Json>, key: string): (r: Option<bool>)
    ensures r.Some? <==> key in args && args[key].JBool?
    ensures r.Some? ==> args[key] == JBool(r.value)
  {
    if key in args && args[key].JBool? then Some(args[key].b) else None
  }

  /**
   * The string elements of a JSON array, in their order; every element that
   * is not a string is skipped.
   */
  function StringsIn(items: seq<Json>): (r: seq<string>)
    ensures |r| <= |items|
    ensures forall s :: s in r <==> JStr(s) in items
  {
    if items == [] then []
    else
      var init := items[..|items| - 1];
      var last := items[|items| - 1];
      assert items == init + [last];
      StringsIn(init) + (if last.JStr? then [last.s] else [])
  }

  /** Extending an array by one element extends its strings by at most that element. */
  lemma StringsInSnoc(items: seq<Json>, x: Json)
    ensures StringsIn(items + [x]) == StringsIn(items) + (if x.JStr? then [x.s] else [])
  {
    assert (items + [x])[..|items|] == items;
  }

  /** An array that holds only strings keeps all of them, in order. */
  lemma {:induction false} StringsInAllStrings(items: seq<Json>)
    requires forall i :: 0 <= i < |items| ==> items[i].JStr?
    ensures |StringsIn(items)| == |items|
    ensures forall i :: 0 <= i < |items| ==> StringsIn(items)[i] == items[i].s
  {
    if items != [] {
      var init := items[..|items| - 1];
      assert items == init + [items[|items| - 1]];
      StringsInAllStrings(init);
      StringsInSnoc(init, items[|items| - 1]);
    }
  }
}
