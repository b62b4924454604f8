/** src/node/node-defs/math/scalar-un-op-node.ts: a unary function of a float. */
module ScalarUnOpNode {
  import opened Wrappers
  import opened Sockets
  import opened Errors
  import opened Glsl
  import opened Operands
  import opened NodeTypes
  import opened NodeCodeHelpers

  /** The base label is the binary node's, as the constructor sets it. */
  const BaseLabel := "Scalar Binary Op"
  const Operations := ["sqrt", "exp"]

  /** One float input holding 0, one float output, the function `sqrt`. */
  const Layout := Shape(
    MathOp, BaseLabel,
    [SocketSpec("Number", Float, Some(Number(0.0)))],
    [SocketSpec("Result", Float, None)],
    Some([Parameter("Operation", "sqrt", Operations)]))

  /** The name the `label` getter shows for each listed operation. */
  const Names := map["sqrt" := "Square Root", "exp" := "Exponential"]

  /** The name table covers exactly the listed operations. */
  lemma NamesCoverOperations()
    ensures forall o :: o in Names <==> o in Operations
  {
  }

  /** `label`: the listed operation's name from the table, and the base label for
      any other value. */
  function Label(op: string): (r: string)
    ensures op in Names ==> r == Names[op]
    ensures op !in Names ==> r == BaseLabel
    ensures op in Operations <==> r != BaseLabel
  {
    if op == "sqrt" then "Square Root"
    else if op == "exp" then "Exponential"
    else BaseLabel
  }

  /** `code()`: the operation applied as a GLSL function to the operand. */
  function Code(inputs: seq<SocketState>, out: string, op: string, fmt: Format): (r: Result<string, Error>)
    requires |inputs| == 1
    ensures r.Ok? ==> StartsWithDeclaration(r.value, TypeName(Layout.outputs[0].sockType), VariableName(out))
    ensures var n := Operand(inputs[0], ProducerFirst, Fixed2, fmt);
      && (r.Ok? <==> n.Ok?)
      && (r.Err? ==> r.error == n.error)
      && (r.Ok? ==> r.value == Declare("float", VariableName(out), Call(op, [n.value])))
  {
    assert Layout.outputs[0].sockType == Float;
    var n :- Operand(inputs[0], ProducerFirst, Fixed2, fmt);
    Ok(Declare("float", VariableName(out), Call(op, [n])))
  }

  /** Well-typed inputs always generate code, whatever the operation value. */
  lemma WellTypedGenerates(inputs: seq<SocketState>, out: string, op: string, fmt: Format)
    requires WellTyped(Layout.inputs, inputs)
    ensures Code(inputs, out, op, fmt).Ok?
  {
    OperandOfWellTyped(inputs[0], ProducerFirst, Fixed2, fmt);
  }
}
