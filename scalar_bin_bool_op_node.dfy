/** src/node/node-defs/math/scalar-bin-bool-op-node.ts: comparison of two floats. */
module ScalarBinBoolOpNode {
  import opened Wrappers
  import opened Sockets
  import opened Errors
  import opened Glsl
  import opened Operands
  import opened NodeTypes
  import opened NodeCodeHelpers

  const BaseLabel := "Scalar Binary Op"
  const Operations := ["<", "<=", ">", ">=", "==", "!="]

  /** Two float inputs holding 0, one bool output, the comparison `<`. */
  const Layout := Shape(
    MathOp, BaseLabel,
    [SocketSpec("Number", Float, Some(Number(0.0))), SocketSpec("Number", Float, Some(Number(0.0)))],
    [SocketSpec("Result", Bool, None)],
    Some([Parameter("Operation", "<", Operations)]))

  /** The name the `label` getter shows for each listed operation. */
  const Names := map["<" := "Less Than", "<=" := "Less Equal", ">" := "Greater Than", ">=" := "Greater Equal", "==" := "Equal", "!=" := "Not Equal"]

  /** The name table covers exactly the listed operations. */
  lemma NamesCoverOperations()
    ensures forall o :: o in Names <==> o in Operations
  {
  }

  /** `label`: the listed operation's name from the table, and the base label for
      any other value. */
  function Label(op: string): (r: string)
    ensures op in Names ==> r == Names[op]
    ensures op !in Names ==> r == BaseLabel
    ensures op in Operations <==> r != BaseLabel
  {
    if op == "<" then "Less Than"
    else if op == "<=" then "Less Equal"
    else if op == ">" then "Greater Than"
    else if op == ">=" then "Greater Equal"
    else if op == "==" then "Equal"
    else if op == "!=" then "Not Equal"
    else BaseLabel
  }

  /** `code()`: a bool declaration of the infix comparison of the two float operands;
      every listed comparison is a GLSL infix operator. */
  function Code(inputs: seq<SocketState>, out: string, op: string, fmt: Format): (r: Result<string, Error>)
    requires |inputs| == 2
    ensures r.Ok? ==> StartsWithDeclaration(r.value, TypeName(Layout.outputs[0].sockType), VariableName(out))
    ensures var a, b := Operand(inputs[0], ProducerFirst, Fixed2, fmt), Operand(inputs[1], ProducerFirst, Fixed2, fmt);
      && (r.Ok? <==> a.Ok? && b.Ok?)
      && (r.Err? ==> r.error == if a.Err? then a.error else b.error)
      && (r.Ok? && op in Operations ==> r.value == Declare("bool", VariableName(out), Apply(op, a.value, b.value)))
      && (r.Ok? && op !in Operations ==> r.value == Declare("bool", VariableName(out), Infix(a.value, op, b.value)))
  {
    assert Layout.outputs[0].sockType == Bool;
    var a :- Operand(inputs[0], ProducerFirst, Fixed2, fmt);
    var b :- Operand(inputs[1], ProducerFirst, Fixed2, fmt);
    Ok(Declare("bool", VariableName(out), Infix(a, op, b)))
  }

  /** Well-typed inputs always generate code, whatever the operation value. */
  lemma WellTypedGenerates(inputs: seq<SocketState>, out: string, op: string, fmt: Format)
    requires WellTyped(Layout.inputs, inputs)
    ensures Code(inputs, out, op, fmt).Ok?
  {
    OperandOfWellTyped(inputs[0], ProducerFirst, Fixed2, fmt);
    OperandOfWellTyped(inputs[1], ProducerFirst, Fixed2, fmt);
  }
}
