/** src/node/node-defs/math/add-node.ts: the sum of two floats. */
module AddNode {
  import opened Wrappers
  import opened Sockets
  import opened Errors
  import opened Glsl
  import opened Operands
  import opened NodeTypes
  import opened NodeCodeHelpers

  /** Two float inputs holding 0, one float output, no parameters. */
  const Layout := Shape(
    MathOp, "Add",
    [SocketSpec("Number", Float, Some(Number(0.0))), SocketSpec("Number", Float, Some(Number(0.0)))],
    [SocketSpec("Result", Float, None)],
    None)

  /** `code()`: the infix sum; connected operands are converted consumer-first,
      from the socket's own type to the producer's. */
  function Code(inputs: seq<SocketState>, out: string, fmt: Format): (r: Result<string, Error>)
    requires |inputs| == 2
    ensures r.Ok? ==> StartsWithDeclaration(r.value, TypeName(Layout.outputs[0].sockType), VariableName(out))
    ensures var a, b := Operand(inputs[0], ConsumerFirst, Fixed2, fmt), Operand(inputs[1], ConsumerFirst, Fixed2, fmt);
      && (r.Ok? <==> a.Ok? && b.Ok?)
      && (r.Err? ==> r.error == if a.Err? then a.error else b.error)
      && (r.Ok? ==> r.value == Declare("float", VariableName(out), Apply("+", a.value, b.value)))
  {
    assert Layout.outputs[0].sockType == Float;
    var a :- Operand(inputs[0], ConsumerFirst, Fixed2, fmt);
    var b :- Operand(inputs[1], ConsumerFirst, Fixed2, fmt);
    Ok(Declare("float", VariableName(out), Infix(a, "+", b)))
  }

  /** Well-typed inputs always generate code. */
  lemma WellTypedGenerates(inputs: seq<SocketState>, out: string, fmt: Format)
    requires WellTyped(Layout.inputs, inputs)
    ensures Code(inputs, out, fmt).Ok?
  {
    OperandOfWellTyped(inputs[0], ConsumerFirst, Fixed2, fmt);
    OperandOfWellTyped(inputs[1], ConsumerFirst, Fixed2, fmt);
  }
}
