/** JavaScript values as the provider code observes them: optional JSON
    fields, truthiness, the `||` default operator and template-literal
    interpolation of a possibly-undefined value. */
module JsValues {

  datatype Option<+T> = None | Some(value: T)

  /** A loosely typed JSON value.  Arrays and objects are lumped together
      as `Compound`: the code only ever asks whether they are truthy. */
  datatype Value = Undefined | Null | Bool(b: bool) | Num(n: int) | Str(s: string) | Compound {
    /** JavaScript truthiness: `false`, `0`, `""`, `null` and `undefined` are falsy. */
    predicate Truthy() {
      match this
      case Bool(b) => b
      case Num(n) => n != 0
      case Str(s) => s != ""
      case Compound => true
      case _ => false
    }
  }

  /** Truthiness of an optional string field: present and non-empty. */
  predicate Present(o: Option<string>) {
    o.Some? && o.value != ""
  }

  /** `a || b` on two optional string fields. */
  function Or(a: Option<string>, b: Option<string>): Option<string> {
    if Present(a) then a else b
  }

  /** `a || "literal"`: the field when it is truthy, else the literal. */
  function OrElse(a: Option<string>, fallback: string): string {
    if Present(a) then a.value else fallback
  }

  /** `n || fallback` on an optional numeric field (0 is falsy). */
  function NumOrElse(n: Option<int>, fallback: int): int {
    if n.Some? && n.value != 0 then n.value else fallback
  }

  /** `${x}` in a template literal: an absent field prints as "undefined". */
  function Interp(o: Option<string>): string {
    if o.Some? then o.value else "undefined"
  }

  /** A chain `c0 || c1 || ... || cn` of optional strings: the first truthy
      candidate, or the last candidate when none is truthy. */
  function FirstPresent(cands: seq<Option<string>>): (r: Option<string>)
    requires |cands| > 0
    ensures Present(r) <==> exists k :: 0 <= k < |cands| && Present(cands[k])
    ensures Present(r) ==> exists k :: 0 <= k < |cands| && r == cands[k] &&
                                       forall j :: 0 <= j < k ==> !Present(cands[j])
    ensures !Present(r) ==> r == cands[|cands| - 1]
    decreases |cands|
  {
    if |cands| == 1 || Present(cands[0]) then cands[0]
    else
      var r := FirstPresent(cands[1..]);
      assert forall k :: 1 <= k < |cands| ==> cands[k] == cands[1..][k - 1];
      r
  }

  /** A nested `Or` is the `||` chain of its operands. */
  lemma OrChain(a: Option<string>, b: Option<string>, c: Option<string>)
    ensures Or(a, b) == FirstPresent([a, b])
    ensures Or(Or(a, b), c) == FirstPresent([a, b, c])
  {
    assert [a, b][1..] == [b];
    assert [a, b, c][1..] == [b, c] && [b, c][1..] == [c];
  }

  /** `a || b` on loosely typed values. */
  function OrValue(a: Value, b: Value): Value {
    if a.Truthy() then a else b
  }

  /** What one outbound HTTP call produced.  A timeout, a transport error, a
      non-2xx status and a body that does not parse are all `Failed`: the
      code treats them alike. */
  datatype HttpOutcome<+T> = Failed | Body(data: T)
}
