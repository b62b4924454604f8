/** src/node/node-defs/math/scalar-bin-op-node.ts: arithmetic on two floats. */
module ScalarBinOpNode {
  import opened Wrappers
  import opened Sockets
  import opened Errors
  import opened Glsl
  import opened Operands
  import opened NodeTypes
  import opened NodeCodeHelpers

  const BaseLabel := "Scalar Binary Op"
  const Operations := ["+", "-", "*", "/", "pow"]

  /** Two float inputs holding 0, one float output, the operation `+`. */
  const Layout := Shape(
    MathOp, BaseLabel,
    [SocketSpec("Number", Float, Some(Number(0.0))), SocketSpec("Number", Float, Some(Number(0.0)))],
    [SocketSpec("Result", Float, None)],
    Some([Parameter("Operation", "+", Operations)]))

  /** The name the `label` getter shows for each listed operation. */
  const Names := map["+" := "Add", "-" := "Subtract", "*" := "Multiply", "/" := "Divide", "pow" := "Power"]

  /** The name table covers exactly the listed operations. */
  lemma NamesCoverOperations()
    ensures forall o :: o in Names <==> o in Operations
  {
  }

  /** `label`: the listed operation's name from the table, and the base label for
      any other value. */
  function Label(op: string): (r: string)
    ensures op in Names ==> r == Names[op]
    ensures op !in Names ==> r == BaseLabel
    ensures op in Operations <==> r != BaseLabel
  {
    if op == "+" then "Add"
    else if op == "-" then "Subtract"
    else if op == "*" then "Multiply"
    else if op == "/" then "Divide"
    else if op == "pow" then "Power"
    else BaseLabel
  }

  /** `code()`: both operands are converted producer-first into float; `pow` is
      called, every other operation is written infix. */
  function Code(inputs: seq<SocketState>, out: string, op: string, fmt: Format): (r: Result<string, Error>)
    requires |inputs| == 2
    ensures r.Ok? ==> StartsWithDeclaration(r.value, TypeName(Layout.outputs[0].sockType), VariableName(out))
    ensures var a, b := Operand(inputs[0], ProducerFirst, Fixed2, fmt), Operand(inputs[1], ProducerFirst, Fixed2, fmt);
      && (r.Ok? <==> a.Ok? && b.Ok?)
      && (r.Err? ==> r.error == if a.Err? then a.error else b.error)
      && (r.Ok? && op in Operations ==> r.value == Declare("float", VariableName(out), Apply(op, a.value, b.value)))
      && (r.Ok? && op !in Operations ==> r.value == Declare("float", VariableName(out), Infix(a.value, op, b.value)))
  {
    assert Layout.outputs[0].sockType == Float;
    var a :- Operand(inputs[0], ProducerFirst, Fixed2, fmt);
    var b :- Operand(inputs[1], ProducerFirst, Fixed2, fmt);
    assert op in Operations ==> (op == "pow" <==> !IsInfixOperator(op));
    if op != "pow" then Ok(Declare("float", VariableName(out), Infix(a, op, b)))
    else Ok(Declare("float", VariableName(out), Call("pow", [a, b])))
  }

  /** Well-typed inputs always generate code, whatever the operation value. */
  lemma WellTypedGenerates(inputs: seq<SocketState>, out: string, op: string, fmt: Format)
    requires WellTyped(Layout.inputs, inputs)
    ensures Code(inputs, out, op, fmt).Ok?
  {
    OperandOfWellTyped(inputs[0], ProducerFirst, Fixed2, fmt);
    OperandOfWellTyped(inputs[1], ProducerFirst, Fixed2, fmt);
  }
}
