/** src/node/node-defs/math/v3-bin-scalar-op-node.ts: `dot` and `distance` of two vector3 values. */
module Vec3BinScalarOpNode {
  import opened Wrappers
  import opened Sockets
  import opened Errors
  import opened Glsl
  import opened Operands
  import opened NodeTypes
  import opened NodeCodeHelpers

  const BaseLabel := "Vector3 Scalar Binary Op"
  const Operations := ["dot", "distance"]

  /** Two vector3 inputs holding (0, 0, 0), one float output, the operation `dot`. */
  const Layout := Shape(
    MathOp, BaseLabel,
    [SocketSpec("Vector", Vector3, Some(Vec3(0.0, 0.0, 0.0))), SocketSpec("Vector", Vector3, Some(Vec3(0.0, 0.0, 0.0)))],
    [SocketSpec("Result", Float, None)],
    Some([Parameter("Operation", "dot", Operations)]))

  /** The name the `label` getter shows for each listed operation. */
  const Names := map["dot" := "Dot Product", "distance" := "Distance"]

  /** The name table covers exactly the listed operations. */
  lemma NamesCoverOperations()
    ensures forall o :: o in Names <==> o in Operations
  {
  }

  /** `label`: the listed operation's name from the table, and the base label for
      any other value. */
  function Label(op: string): (r: string)
    ensures op in Names ==> r == Names[op]
    ensures op !in Names ==> r == BaseLabel
    ensures op in Operations <==> r != BaseLabel
  {
    if op == "dot" then "Dot Product"
    else if op == "distance" then "Distance"
    else BaseLabel
  }

  /** `code()`: the operation is always called, which is its GLSL form for both
      listed operations. */
  function Code(inputs: seq<SocketState>, out: string, op: string, fmt: Format): (r: Result<string, Error>)
    requires |inputs| == 2
    ensures r.Ok? ==> StartsWithDeclaration(r.value, TypeName(Layout.outputs[0].sockType), VariableName(out))
    ensures var a, b := Operand(inputs[0], ProducerFirst, Vec3Ctor, fmt), Operand(inputs[1], ProducerFirst, Vec3Ctor, fmt);
      && (r.Ok? <==> a.Ok? && b.Ok?)
      && (r.Err? ==> r.error == if a.Err? then a.error else b.error)
      && (r.Ok? && op in Operations ==> r.value == Declare("float", VariableName(out), Apply(op, a.value, b.value)))
      && (r.Ok? ==> r.value == Declare("float", VariableName(out), Call(op, [a.value, b.value])))
  {
    assert Layout.outputs[0].sockType == Float;
    var a :- Operand(inputs[0], ProducerFirst, Vec3Ctor, fmt);
    var b :- Operand(inputs[1], ProducerFirst, Vec3Ctor, fmt);
    Ok(Declare("float", VariableName(out), Call(op, [a, b])))
  }

  /** Well-typed inputs always generate code, whatever the operation value. */
  lemma WellTypedGenerates(inputs: seq<SocketState>, out: string, op: string, fmt: Format)
    requires WellTyped(Layout.inputs, inputs)
    ensures Code(inputs, out, op, fmt).Ok?
  {
    OperandOfWellTyped(inputs[0], ProducerFirst, Vec3Ctor, fmt);
    OperandOfWellTyped(inputs[1], ProducerFirst, Vec3Ctor, fmt);
  }
}
