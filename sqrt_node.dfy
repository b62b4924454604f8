/** src/node/node-defs/math/sqrt-node.ts: the square root of a float. */
module SqrtNode {
  import opened Wrappers
  import opened Sockets
  import opened Errors
  import opened Glsl
  import opened Operands
  import opened NodeTypes
  import opened NodeCodeHelpers

  /** One float input holding 0, one float output, no parameters. */
  const Layout := Shape(
    MathOp, "Square Root",
    [SocketSpec("Number", Float, Some(Number(0.0)))],
    [SocketSpec("Result", Float, None)],
    None)

  /** `code()`: GLSL's `sqrt` of the operand, converted consumer-first. */
  function Code(inputs: seq<SocketState>, out: string, fmt: Format): (r: Result<string, Error>)
    requires |inputs| == 1
    ensures r.Ok? ==> StartsWithDeclaration(r.value, TypeName(Layout.outputs[0].sockType), VariableName(out))
    ensures var n := Operand(inputs[0], ConsumerFirst, Fixed2, fmt);
      && (r.Ok? <==> n.Ok?)
      && (r.Err? ==> r.error == n.error)
      && (r.Ok? ==> r.value == Declare("float", VariableName(out), Call("sqrt", [n.value])))
  {
    assert Layout.outputs[0].sockType == Float;
    var n :- Operand(inputs[0], ConsumerFirst, Fixed2, fmt);
    Ok(Declare("float", VariableName(out), Call("sqrt", [n])))
  }

  /** Well-typed inputs always generate code. */
  lemma WellTypedGenerates(inputs: seq<SocketState>, out: string, fmt: Format)
    requires WellTyped(Layout.inputs, inputs)
    ensures Code(inputs, out, fmt).Ok?
  {
    OperandOfWellTyped(inputs[0], ConsumerFirst, Fixed2, fmt);
  }
}
