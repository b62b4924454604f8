/** src/node/node-defs/math/v3-normailze-node.ts: the normalised vector3. */
module Vec3NormalizeNode {
  import opened Wrappers
  import opened Sockets
  import opened Errors
  import opened Glsl
  import opened Operands
  import opened NodeTypes
  import opened NodeCodeHelpers

  /** One vector3 input holding (0, 0, 0), one vector3 output, no parameters. The
      label is the vector2 node's, as the constructor sets it. */
  const Layout := Shape(
    MathOp, "Vector2 Normalize",
    [SocketSpec("Vector", Vector3, Some(Vec3(0.0, 0.0, 0.0)))],
    [SocketSpec("Result", Vector3, None)],
    None)

  /** `code()`: GLSL's `normalize` of the operand, converted producer-first. */
  function Code(inputs: seq<SocketState>, out: string, fmt: Format): (r: Result<string, Error>)
    requires |inputs| == 1
    ensures r.Ok? ==> StartsWithDeclaration(r.value, TypeName(Layout.outputs[0].sockType), VariableName(out))
    ensures var v := Operand(inputs[0], ProducerFirst, Vec3Ctor, fmt);
      && (r.Ok? <==> v.Ok?)
      && (r.Err? ==> r.error == v.error)
      && (r.Ok? ==> r.value == Declare("vec3", VariableName(out), Call("normalize", [v.value])))
  {
    assert Layout.outputs[0].sockType == Vector3;
    var v :- Operand(inputs[0], ProducerFirst, Vec3Ctor, fmt);
    Ok(Declare("vec3", VariableName(out), Call("normalize", [v])))
  }

  /** Well-typed inputs always generate code. */
  lemma WellTypedGenerates(inputs: seq<SocketState>, out: string, fmt: Format)
    requires WellTyped(Layout.inputs, inputs)
    ensures Code(inputs, out, fmt).Ok?
  {
    OperandOfWellTyped(inputs[0], ProducerFirst, Vec3Ctor, fmt);
  }
}
