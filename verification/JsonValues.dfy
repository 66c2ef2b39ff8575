/** JSON values, the equality JSON Schema gives them and the coarser one Python's `==` gives them. */
module JsonValues {

  /** Numbers are exact: `1` and `1.0` are the same JSON number and the same Python number. */
  datatype Json =
    | Null
    | Bool(truth: bool)
    | Num(value: real)
    | Str(text: string)
    | Arr(elements: seq<Json>)
    | Obj(members: map<string, Json>)

  /** What is left of a value once Python has identified True with 1 and False with 0. */
  function Canon(j: Json): Json {
    match j
    case Bool(b) => Num(if b then 1.0 else 0.0)
    case Arr(xs) => Arr(seq(|xs|, i requires 0 <= i < |xs| => Canon(xs[i])))
    case Obj(m) => Obj(map k | k in m :: Canon(m[k]))
    case _ => j
  }
}
