/** src/node/node-defs/transform/combine-xy-node.ts: a vector2 from two floats. */
module CombineXYNode {
  import opened Wrappers
  import opened Sockets
  import opened Errors
  import opened Glsl
  import opened Operands
  import opened NodeTypes
  import opened NodeCodeHelpers

  /** Float inputs X and Y holding 0, one vector2 output, no parameters. */
  const Layout := Shape(
    Transform, "Combine X Y",
    [SocketSpec("X", Float, Some(Number(0.0))), SocketSpec("Y", Float, Some(Number(0.0)))],
    [SocketSpec("Vector", Vector2, None)],
    None)

  /** `code()`: the `vec2` constructor of the components in input order; connected
      components are converted consumer-first, unconnected ones use `toString()`. */
  function Code(inputs: seq<SocketState>, out: string, fmt: Format): (r: Result<string, Error>)
    requires |inputs| == 2
    ensures r.Ok? ==> StartsWithDeclaration(r.value, TypeName(Layout.outputs[0].sockType), VariableName(out))
    ensures var x, y := Operand(inputs[0], ConsumerFirst, Plain, fmt), Operand(inputs[1], ConsumerFirst, Plain, fmt);
      && (r.Ok? <==> x.Ok? && y.Ok?)
      && (r.Err? ==> r.error == if x.Err? then x.error else y.error)
      && (r.Ok? ==> r.value == Declare("vec2", VariableName(out), Call("vec2", [x.value, y.value])))
  {
    assert Layout.outputs[0].sockType == Vector2;
    var x :- Operand(inputs[0], ConsumerFirst, Plain, fmt);
    var y :- Operand(inputs[1], ConsumerFirst, Plain, fmt);
    Ok(Declare("vec2", VariableName(out), Call("vec2", [x, y])))
  }

  /** Well-typed inputs always generate code. */
  lemma WellTypedGenerates(inputs: seq<SocketState>, out: string, fmt: Format)
    requires WellTyped(Layout.inputs, inputs)
    ensures Code(inputs, out, fmt).Ok?
  {
    OperandOfWellTyped(inputs[0], ConsumerFirst, Plain, fmt);
    OperandOfWellTyped(inputs[1], ConsumerFirst, Plain, fmt);
  }
}
