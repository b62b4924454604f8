/** src/node/node-defs/math/v3-bin-op-node.ts: arithmetic, `reflect` and `cross` on two vector3 values. */
module Vec3BinOpNode {
  import opened Wrappers
  import opened Sockets
  import opened Errors
  import opened Glsl
  import opened Operands
  import opened NodeTypes
  import opened NodeCodeHelpers

  const BaseLabel := "Vector3 Binary Op"
  const Operations := ["+", "-", "*", "/", "reflect", "cross"]

  /** Two vector3 inputs holding (0, 0, 0), one vector3 output, the operation `+`. */
  const Layout := Shape(
    MathOp, BaseLabel,
    [SocketSpec("Vector", Vector3, Some(Vec3(0.0, 0.0, 0.0))), SocketSpec("Vector", Vector3, Some(Vec3(0.0, 0.0, 0.0)))],
    [SocketSpec("Result", Vector3, None)],
    Some([Parameter("Operation", "+", Operations)]))

  /** The name the `label` getter shows for each listed operation. */
  const Names := map["+" := "Add", "-" := "Subtract", "*" := "Multiply", "/" := "Divide", "reflect" := "Reflect", "cross" := "Cross Product"]

  /** The name table covers exactly the listed operations. */
  lemma NamesCoverOperations()
    ensures forall o :: o in Names <==> o in Operations
  {
  }

  /** `label`: the listed operation's name from the table, and the base label for
      any other value. */
  function Label(op: string): (r: string)
    ensures op in Names ==> r == Names[op]
    ensures op !in Names ==> r == BaseLabel
    ensures op in Operations <==> r != BaseLabel
  {
    if op == "+" then "Add"
    else if op == "-" then "Subtract"
    else if op == "*" then "Multiply"
    else if op == "/" then "Divide"
    else if op == "reflect" then "Reflect"
    else if op == "cross" then "Cross Product"
    else BaseLabel
  }

  /** `isFunc`: exactly the listed operations without a GLSL infix operator. */
  function IsFunc(op: string): (r: bool)
    ensures r ==> op in Operations
    ensures op in Operations ==> (r <==> !IsInfixOperator(op))
  {
    op in ["reflect", "cross"]
  }

  /** `code()`: both operands converted producer-first into vector3, or the `vec3`
      constructor of their literal. */
  function Code(inputs: seq<SocketState>, out: string, op: string, fmt: Format): (r: Result<string, Error>)
    requires |inputs| == 2
    ensures r.Ok? ==> StartsWithDeclaration(r.value, TypeName(Layout.outputs[0].sockType), VariableName(out))
    ensures var a, b := Operand(inputs[0], ProducerFirst, Vec3Ctor, fmt), Operand(inputs[1], ProducerFirst, Vec3Ctor, fmt);
      && (r.Ok? <==> a.Ok? && b.Ok?)
      && (r.Err? ==> r.error == if a.Err? then a.error else b.error)
      && (r.Ok? && op in Operations ==> r.value == Declare("vec3", VariableName(out), Apply(op, a.value, b.value)))
      && (r.Ok? && op !in Operations ==> r.value == Declare("vec3", VariableName(out), Infix(a.value, op, b.value)))
  {
    assert Layout.outputs[0].sockType == Vector3;
    var a :- Operand(inputs[0], ProducerFirst, Vec3Ctor, fmt);
    var b :- Operand(inputs[1], ProducerFirst, Vec3Ctor, fmt);
    if IsFunc(op) then Ok(Declare("vec3", VariableName(out), Call(op, [a, b])))
    else Ok(Declare("vec3", VariableName(out), Infix(a, op, b)))
  }

  /** Well-typed inputs always generate code, whatever the operation value. */
  lemma WellTypedGenerates(inputs: seq<SocketState>, out: string, op: string, fmt: Format)
    requires WellTyped(Layout.inputs, inputs)
    ensures Code(inputs, out, op, fmt).Ok?
  {
    OperandOfWellTyped(inputs[0], ProducerFirst, Vec3Ctor, fmt);
    OperandOfWellTyped(inputs[1], ProducerFirst, Vec3Ctor, fmt);
  }
}
