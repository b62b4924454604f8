/** src/node/node-defs/transform/separate-xyz-node.ts: the three components of a vector3. */
module SeparateXYZNode {
  import opened Wrappers
  import opened Sockets
  import opened Errors
  import opened Glsl
  import opened Operands
  import opened NodeTypes
  import opened NodeCodeHelpers

  /** One vector3 input holding (0, 0, 0), float outputs X, Y and Z, no parameters. */
  const Layout := Shape(
    Transform, "Separate X Y Z",
    [SocketSpec("Vector", Vector3, Some(Vec3(0.0, 0.0, 0.0)))],
    [SocketSpec("X", Float, None), SocketSpec("Y", Float, None), SocketSpec("Z", Float, None)],
    None)

  /** One float declaration per output, in output order, then an empty line. */
  function Statements(outs: seq<string>, x: string, y: string, z: string): (r: string)
    requires |outs| == 3
    ensures StartsWithDeclaration(r, "float", VariableName(outs[0]))
  {
    var first := Declare("float", VariableName(outs[0]), x);
    var rest := Declare("float", VariableName(outs[1]), y) + Declare("float", VariableName(outs[2]), z) + "\n";
    StartsWithDeclarationAppend(first, rest, "float", VariableName(outs[0]));
    first + rest
  }

  /** `code()`: each output holds the matching component; a connected input's
      expression is converted producer-first and swizzled. */
  function Code(inputs: seq<SocketState>, outs: seq<string>, fmt: Format): (r: Result<string, Error>)
    requires |inputs| == 1 && |outs| == 3
    ensures r.Ok? ==> StartsWithDeclaration(r.value, TypeName(Layout.outputs[0].sockType), VariableName(outs[0]))
    ensures var x, y, z := ComponentOperand(inputs[0], ProducerFirst, X, fmt), ComponentOperand(inputs[0], ProducerFirst, Y, fmt), ComponentOperand(inputs[0], ProducerFirst, Z, fmt);
      && (r.Ok? <==> x.Ok? && y.Ok? && z.Ok?)
      && (r.Err? ==> r.error == if x.Err? then x.error else if y.Err? then y.error else z.error)
      && (r.Ok? ==> r.value == Statements(outs, x.value, y.value, z.value))
  {
    assert Layout.outputs[0].sockType == Float;
    var x :- ComponentOperand(inputs[0], ProducerFirst, X, fmt);
    var y :- ComponentOperand(inputs[0], ProducerFirst, Y, fmt);
    var z :- ComponentOperand(inputs[0], ProducerFirst, Z, fmt);
    Ok(Statements(outs, x, y, z))
  }

  /** A well-typed input always generates code. */
  lemma WellTypedGenerates(inputs: seq<SocketState>, outs: seq<string>, fmt: Format)
    requires WellTyped(Layout.inputs, inputs) && |outs| == 3
    ensures Code(inputs, outs, fmt).Ok?
  {
    OperandOfWellTyped(inputs[0], ProducerFirst, Component(X), fmt);
    OperandOfWellTyped(inputs[0], ProducerFirst, Component(Y), fmt);
    OperandOfWellTyped(inputs[0], ProducerFirst, Component(Z), fmt);
  }
}
