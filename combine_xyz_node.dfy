/** src/node/node-defs/transform/combine-xyz-node.ts: a vector3 from three floats. */
module CombineXYZNode {
  import opened Wrappers
  import opened Sockets
  import opened Errors
  import opened Glsl
  import opened Operands
  import opened NodeTypes
  import opened NodeCodeHelpers

  /** Float inputs X, Y and Z holding 0, one vector3 output, no parameters. */
  const Layout := Shape(
    Transform, "Combine X Y Z",
    [SocketSpec("X", Float, Some(Number(0.0))), SocketSpec("Y", Float, Some(Number(0.0))), SocketSpec("Z", Float, Some(Number(0.0)))],
    [SocketSpec("Vector", Vector3, None)],
    None)

  /** `code()`: the `vec3` constructor of the components in input order, converted
      consumer-first; the first failing component's error otherwise. */
  function Code(inputs: seq<SocketState>, out: string, fmt: Format): (r: Result<string, Error>)
    requires |inputs| == 3
    ensures r.Ok? ==> StartsWithDeclaration(r.value, TypeName(Layout.outputs[0].sockType), VariableName(out))
    ensures var x, y, z := Operand(inputs[0], ConsumerFirst, Plain, fmt), Operand(inputs[1], ConsumerFirst, Plain, fmt), Operand(inputs[2], ConsumerFirst, Plain, fmt);
      && (r.Ok? <==> x.Ok? && y.Ok? && z.Ok?)
      && (r.Err? ==> r.error == if x.Err? then x.error else if y.Err? then y.error else z.error)
      && (r.Ok? ==> r.value == Declare("vec3", VariableName(out), Call("vec3", [x.value, y.value, z.value])))
  {
    assert Layout.outputs[0].sockType == Vector3;
    var x :- Operand(inputs[0], ConsumerFirst, Plain, fmt);
    var y :- Operand(inputs[1], ConsumerFirst, Plain, fmt);
    var z :- Operand(inputs[2], ConsumerFirst, Plain, fmt);
    Ok(Declare("vec3", VariableName(out), Call("vec3", [x, y, z])))
  }

  /** Well-typed inputs always generate code. */
  lemma WellTypedGenerates(inputs: seq<SocketState>, out: string, fmt: Format)
    requires WellTyped(Layout.inputs, inputs)
    ensures Code(inputs, out, fmt).Ok?
  {
    OperandOfWellTyped(inputs[0], ConsumerFirst, Plain, fmt);
    OperandOfWellTyped(inputs[1], ConsumerFirst, Plain, fmt);
    OperandOfWellTyped(inputs[2], ConsumerFirst, Plain, fmt);
  }
}
