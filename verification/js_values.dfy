/** JavaScript values as the widgets see them: optional string fields of parsed
    JSON, and the `||` operator used to default them. */
module JsValues {

  /** A JSON field that may be missing (`undefined`/`null`) or hold a string. */
  datatype Option<+T> = None | Some(value: T)

  /** JavaScript truthiness of an optional string: `undefined`, `null` and `""`
      are all falsy, every other string is truthy. */
  predicate Truthy(o: Option<string>) {
    o.Some? && o.value != ""
  }

  /** The value of the expression `o || fallback`. */
  function Or(o: Option<string>, fallback: string): (r: string)
    ensures Truthy(o) ==> Some(r) == o
    ensures !Truthy(o) ==> r == fallback
    ensures fallback != "" ==> r != ""
  {
    if Truthy(o) then o.value else fallback
  }

  /** The value of `opts[0] || opts[1] || ... || fallback`: the first truthy
      option, or the fallback when none is truthy. */
  function FirstTruthy(opts: seq<Option<string>>, fallback: string): (r: string)
    ensures (forall j :: 0 <= j < |opts| ==> !Truthy(opts[j])) ==> r == fallback
    ensures forall i :: 0 <= i < |opts| && Truthy(opts[i]) && (forall j :: 0 <= j < i ==> !Truthy(opts[j])) ==>
              r == opts[i].value
    ensures fallback != "" ==> r != ""
    decreases |opts|
  {
    if |opts| == 0 then fallback
    else if Truthy(opts[0]) then opts[0].value
    else FirstTruthy(opts[1..], fallback)
  }

  /** The three-operand chain `a || b || c || fallback` picks the first truthy
      operand. */
  lemma OrChainIsFirstTruthy(a: Option<string>, b: Option<string>, c: Option<string>, fallback: string)
    ensures Or(a, Or(b, Or(c, fallback))) == FirstTruthy([a, b, c], fallback)
  {
    var opts := [a, b, c];
    if !Truthy(a) {
      assert opts[1..] == [b, c];
      assert FirstTruthy(opts, fallback) == FirstTruthy([b, c], fallback);
      if !Truthy(b) {
        assert [b, c][1..] == [c];
        assert FirstTruthy([b, c], fallback) == FirstTruthy([c], fallback);
        if !Truthy(c) {
          assert [c][1..] == [];
        }
      }
    }
  }
}
