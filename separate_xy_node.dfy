/** src/node/node-defs/separate-xy-node.ts: the two components of a vector2. */
module SeparateXYNode {
  import opened Wrappers
  import opened Sockets
  import opened Errors
  import opened Glsl
  import opened Operands
  import opened NodeTypes
  import opened NodeCodeHelpers

  /** One vector2 input holding (0, 0), float outputs X and Y, no parameters. */
  const Layout := Shape(
    Transform, "Separate X Y",
    [SocketSpec("Vector", Vector2, Some(Vec2(0.0, 0.0)))],
    [SocketSpec("X", Float, None), SocketSpec("Y", Float, None)],
    None)

  /** One float declaration per output, in output order, then an empty line. */
  function Statements(outs: seq<string>, x: string, y: string): (r: string)
    requires |outs| == 2
    ensures StartsWithDeclaration(r, "float", VariableName(outs[0]))
  {
    var first := Declare("float", VariableName(outs[0]), x);
    var rest := Declare("float", VariableName(outs[1]), y) + "\n";
    StartsWithDeclarationAppend(first, rest, "float", VariableName(outs[0]));
    first + rest
  }

  /** `code()`: each output holds the matching component; a connected input's
      expression is converted consumer-first and swizzled. */
  function Code(inputs: seq<SocketState>, outs: seq<string>, fmt: Format): (r: Result<string, Error>)
    requires |inputs| == 1 && |outs| == 2
    ensures r.Ok? ==> StartsWithDeclaration(r.value, TypeName(Layout.outputs[0].sockType), VariableName(outs[0]))
    ensures var x, y := ComponentOperand(inputs[0], ConsumerFirst, X, fmt), ComponentOperand(inputs[0], ConsumerFirst, Y, fmt);
      && (r.Ok? <==> x.Ok? && y.Ok?)
      && (r.Err? ==> r.error == if x.Err? then x.error else y.error)
      && (r.Ok? ==> r.value == Statements(outs, x.value, y.value))
  {
    assert Layout.outputs[0].sockType == Float;
    var x :- ComponentOperand(inputs[0], ConsumerFirst, X, fmt);
    var y :- ComponentOperand(inputs[0], ConsumerFirst, Y, fmt);
    Ok(Statements(outs, x, y))
  }

  /** A well-typed input always generates code. */
  lemma WellTypedGenerates(inputs: seq<SocketState>, outs: seq<string>, fmt: Format)
    requires WellTyped(Layout.inputs, inputs) && |outs| == 2
    ensures Code(inputs, outs, fmt).Ok?
  {
    OperandOfWellTyped(inputs[0], ConsumerFirst, Component(X), fmt);
    OperandOfWellTyped(inputs[0], ConsumerFirst, Component(Y), fmt);
  }
}
