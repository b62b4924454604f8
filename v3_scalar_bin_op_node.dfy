/** src/node/node-defs/math/v3-scalar-bin-op-node.ts: a vector3 scaled by a float. */
module Vec3ScalarBinOpNode {
  import opened Wrappers
  import opened Sockets
  import opened Errors
  import opened Glsl
  import opened Operands
  import opened NodeTypes
  import opened NodeCodeHelpers

  const BaseLabel := "Vector3 Scalar Binary Op"
  const Operations := ["*"]

  /** A vector3 input and a float input (both captioned "Vector"), one vector3
      output, the operation `*`. */
  const Layout := Shape(
    MathOp, BaseLabel,
    [SocketSpec("Vector", Vector3, Some(Vec3(0.0, 0.0, 0.0))), SocketSpec("Vector", Float, Some(Number(0.0)))],
    [SocketSpec("Result", Vector3, None)],
    Some([Parameter("Operation", "*", Operations)]))

  /** The name the `label` getter shows for each listed operation. */
  const Names := map["*" := "Scale"]

  /** The name table covers exactly the listed operations. */
  lemma NamesCoverOperations()
    ensures forall o :: o in Names <==> o in Operations
  {
  }

  /** `label`: the listed operation's name from the table, and the base label for
      any other value. */
  function Label(op: string): (r: string)
    ensures op in Names ==> r == Names[op]
    ensures op !in Names ==> r == BaseLabel
    ensures op in Operations <==> r != BaseLabel
  {
    if op == "*" then "Scale" else BaseLabel
  }

  /** `code()`: each operand is converted producer-first into its own socket's
      type; the vector is written first. */
  function Code(inputs: seq<SocketState>, out: string, op: string, fmt: Format): (r: Result<string, Error>)
    requires |inputs| == 2
    ensures r.Ok? ==> StartsWithDeclaration(r.value, TypeName(Layout.outputs[0].sockType), VariableName(out))
    ensures var v, n := Operand(inputs[0], ProducerFirst, Vec3Ctor, fmt), Operand(inputs[1], ProducerFirst, Fixed2, fmt);
      && (r.Ok? <==> v.Ok? && n.Ok?)
      && (r.Err? ==> r.error == if v.Err? then v.error else n.error)
      && (r.Ok? && op in Operations ==> r.value == Declare("vec3", VariableName(out), Apply(op, v.value, n.value)))
      && (r.Ok? && op !in Operations ==> r.value == Declare("vec3", VariableName(out), Infix(v.value, op, n.value)))
  {
    assert Layout.outputs[0].sockType == Vector3;
    var v :- Operand(inputs[0], ProducerFirst, Vec3Ctor, fmt);
    var n :- Operand(inputs[1], ProducerFirst, Fixed2, fmt);
    Ok(Declare("vec3", VariableName(out), Infix(v, op, n)))
  }

  /** Well-typed inputs always generate code, whatever the operation value. */
  lemma WellTypedGenerates(inputs: seq<SocketState>, out: string, op: string, fmt: Format)
    requires WellTyped(Layout.inputs, inputs)
    ensures Code(inputs, out, op, fmt).Ok?
  {
    OperandOfWellTyped(inputs[0], ProducerFirst, Vec3Ctor, fmt);
    OperandOfWellTyped(inputs[1], ProducerFirst, Fixed2, fmt);
  }
}
