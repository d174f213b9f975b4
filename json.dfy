/**
 * The loosely typed dictionaries (`[String: Any]`) that Firestore documents arrive as,
 * and the `as?` casts the decoders apply to their entries.
 */
module Json {
  import opened Wrappers

  /** A Firestore value. `Time` is a `Timestamp`, counted in whole days. */
  datatype Value =
    | Null
    | Bool(b: bool)
    | Int(i: int)
    | Str(s: string)
    | Time(t: int)
    | Arr(items: seq<Value>)
    | Obj(fields: map<string, Value>)

  type Dict = map<string, Value>

  /** `d[key] as? String` */
  function GetString(d: Dict, key: string): (r: Option<string>)
    ensures r.Some? <==> key in d && d[key].Str?
    ensures r.Some? ==> d[key] == Str(r.value)
  {
    if key in d && d[key].Str? then Some(d[key].s) else None
  }

  /** `d[key] as? Int` */
  function GetInt(d: Dict, key: string): (r: Option<int>)
    ensures r.Some? <==> key in d && d[key].Int?
    ensures r.Some? ==> d[key] == Int(r.value)
  {
    if key in d && d[key].Int? then Some(d[key].i) else None
  }

  /** `d[key] as? Timestamp` */
  function GetTime(d: Dict, key: string): (r: Option<int>)
    ensures r.Some? <==> key in d && d[key].Time?
    ensures r.Some? ==> d[key] == Time(r.value)
  {
    if key in d && d[key].Time? then Some(d[key].t) else None
  }

  predicate AllObjects(items: seq<Value>) {
    forall i :: 0 <= i < |items| ==> items[i].Obj?
  }

  predicate AllStrings(items: seq<Value>) {
    forall i :: 0 <= i < |items| ==> items[i].Str?
  }

  predicate AllInts(items: seq<Value>) {
    forall i :: 0 <= i < |items| ==> items[i].Int?
  }

  /** `d[key] as? [[String: Any]]`: an array every element of which is a dictionary. */
  function GetDictArray(d: Dict, key: string): (r: Option<seq<Dict>>)
    ensures r.Some? <==> key in d && d[key].Arr? && AllObjects(d[key].items)
    ensures r.Some? ==> |r.value| == |d[key].items|
    ensures r.Some? ==> forall i :: 0 <= i < |r.value| ==> d[key].items[i] == Obj(r.value[i])
  {
    if key in d && d[key].Arr? && AllObjects(d[key].items) then
      var items := d[key].items;
      Some(seq(|items|, i requires 0 <= i < |items| => items[i].fields))
    else None
  }

  /** `d[key] as? [String]` */
  function GetStringArray(d: Dict, key: string): (r: Option<seq<string>>)
    ensures r.Some? <==> key in d && d[key].Arr? && AllStrings(d[key].items)
    ensures r.Some? ==> |r.value| == |d[key].items|
    ensures r.Some? ==> forall i :: 0 <= i < |r.value| ==> d[key].items[i] == Str(r.value[i])
  {
    if key in d && d[key].Arr? && AllStrings(d[key].items) then
      var items := d[key].items;
      Some(seq(|items|, i requires 0 <= i < |items| => items[i].s))
    else None
  }

  /** `d[key] as? [Int]` */
  function GetIntArray(d: Dict, key: string): (r: Option<seq<int>>)
    ensures r.Some? <==> key in d && d[key].Arr? && AllInts(d[key].items)
    ensures r.Some? ==> |r.value| == |d[key].items|
    ensures r.Some? ==> forall i :: 0 <= i < |r.value| ==> d[key].items[i] == Int(r.value[i])
  {
    if key in d && d[key].Arr? && AllInts(d[key].items) then
      var items := d[key].items;
      Some(seq(|items|, i requires 0 <= i < |items| => items[i].i))
    else None
  }

  /** The encoding of a string array, the partner of `GetStringArray`. */
  function StrArray(xs: seq<string>): (v: Value)
    ensures v.Arr? && |v.items| == |xs| && AllStrings(v.items)
  {
    Arr(seq(|xs|, i requires 0 <= i < |xs| => Str(xs[i])))
  }

  lemma StringArrayRoundTrip(d: Dict, key: string, xs: seq<string>)
    requires key in d && d[key] == StrArray(xs)
    ensures GetStringArray(d, key) == Some(xs)
  {
    var items := d[key].items;
    assert seq(|items|, i requires 0 <= i < |items| => items[i].s) == xs;
  }
}
