/** The Python values the record table stores, and the two pieces of Python
    semantics the query handler applies to them: iteration (a `for` loop) and
    positional unpacking (`a, b = v`). */
module PyValues {
  import opened Results

  /** A stored value: an int, a str, or a list/tuple. Lists and tuples iterate
      and unpack alike, so one constructor stands for both. */
  datatype Value = Int(i: int) | Str(s: string) | Items(elems: seq<Value>)

  /** The exceptions building an answer can raise. `LibraryError` is any
      exception raised inside the DNS library's record constructors or parser. */
  datatype Fault = TypeError | ValueError | LibraryError

  /** Python iteration: a list or tuple yields its elements, a str yields its
      one-character strings, and an int is not iterable. */
  function Iterate(v: Value): (r: Result<seq<Value>, Fault>)
    ensures r.Err? <==> v.Int?
    ensures r.Err? ==> r.error == TypeError
    ensures v.Items? ==> r == Ok(v.elems)
    ensures v.Str? ==> |r.value| == |v.s| && forall k :: 0 <= k < |v.s| ==> r.value[k] == Str([v.s[k]])
  {
    match v
    case Int(_) => Err(TypeError)
    case Str(s) => Ok(seq(|s|, k requires 0 <= k < |s| => Str([s[k]])))
    case Items(elems) => Ok(elems)
  }

  /** Python unpacking of `v` into `n` targets: it raises TypeError when `v` is
      not iterable and ValueError when it yields too many or too few values. */
  function Unpack(v: Value, n: nat): (r: Result<seq<Value>, Fault>)
    ensures r.Ok? <==> !v.Int? && |Iterate(v).value| == n
    ensures r.Ok? ==> |r.value| == n && r.value == Iterate(v).value
    ensures r.Err? ==> r.error == (if v.Int? then TypeError else ValueError)
  {
    var it := Iterate(v);
    if it.Err? then Err(it.error)
    else if |it.value| != n then Err(ValueError)
    else Ok(it.value)
  }
}
