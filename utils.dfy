/** `deserialize_vec_from_value_toml` (src/utils.rs): the custom decoder the
    older configuration uses for `command`, which takes either one string or
    an array of strings. */
module Utils {
  import opened Wrappers
  import opened Toml

  /** The only error the decoder reports, whatever went wrong. */
  const Failure: DeError := Custom("e")

  /** What the decoder returns, stated value by value. */
  function CommandFromToml(v: Value): (r: Result<seq<string>, DeError>)
    ensures v.String? ==> r == Ok([v.s])
    ensures v.Array? ==> (r.Ok? <==> forall i :: 0 <= i < |v.items| ==> v.items[i].String?)
    ensures v.Array? && r.Ok? ==> |r.value| == |v.items| && forall i :: 0 <= i < |v.items| ==> v.items[i] == String(r.value[i])
    ensures !v.String? && !v.Array? ==> r == Err(Failure)
    ensures r.Err? ==> r == Err(Failure)
  {
    match v
    case String(s) => Ok([s])
    case Array(items) =>
      (match StringsOf(items)
       case None => Err(Failure)
       case Some(strings) => Ok(strings))
    case _ => Err(Failure)
  }

  /** The decoder as the source runs it: a loop that pushes each string and
      returns on the first element that is not one. */
  method DeserializeVecFromValue(v: Value) returns (r: Result<seq<string>, DeError>)
    ensures r == CommandFromToml(v)
  {
    match v {
      case String(s) =>
        return Ok([s]);
      case Array(arr) =>
        var vec: seq<string> := [];
        for i := 0 to |arr|
          invariant |vec| == i
          invariant forall j :: 0 <= j < i ==> arr[j] == String(vec[j])
        {
          if arr[i].String? {
            vec := vec + [arr[i].s];
          } else {
            return Err(Failure);
          }
        }
        var strings := StringsOf(arr);
        assert strings.Some? && |strings.value| == |vec|;
        assert vec == strings.value;
        assert CommandFromToml(v) == Ok(strings.value);
        return Ok(vec);
      case _ =>
        return Err(Failure);
    }
  }

  /** No non-emptiness is enforced: the empty array is an empty command. */
  lemma EmptyArrayAccepted()
    ensures CommandFromToml(Array([])) == Ok([])
  {
  }
}
