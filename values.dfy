/**
 * The dynamically typed values (`Any`) that travel as call arguments, call
 * results, event payloads and the dictionaries the adapters build.
 */
module Values {
  import opened Wrappers

  datatype Value =
    | Null
    | Bool(b: bool)
    | Int(i: int)
    | Str(s: string)
    | List(items: seq<Value>)
    | Dict(entries: map<string, Value>)

  /** A list of strings as a value. */
  function Strs(ss: seq<string>): (v: Value)
    ensures v.List? && |v.items| == |ss|
    ensures forall i | 0 <= i < |ss| :: v.items[i] == Str(ss[i])
  {
    List(seq(|ss|, i requires 0 <= i < |ss| => Str(ss[i])))
  }

  /** The strings of a value that is a list of strings only. */
  function StrsOf(v: Value): (r: Option<seq<string>>)
    ensures r.Some? ==> v.List? && |r.value| == |v.items|
                        && forall i | 0 <= i < |v.items| :: v.items[i] == Str(r.value[i])
  {
    if v.List? && forall i | 0 <= i < |v.items| :: v.items[i].Str? then
      Some(seq(|v.items|, i requires 0 <= i < |v.items| && v.List? && v.items[i].Str? => v.items[i].s))
    else None
  }

  /** Reading back a list of strings gives the strings. */
  lemma StrsRoundTrip(ss: seq<string>)
    ensures StrsOf(Strs(ss)) == Some(ss)
  {
    var v := Strs(ss);
    assert forall i | 0 <= i < |v.items| :: v.items[i].Str?;
    assert StrsOf(v).value == ss;
  }
}
