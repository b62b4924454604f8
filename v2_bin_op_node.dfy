/** src/node/node-defs/math/v2-bin-op-node.ts: arithmetic and `reflect` on two vector2 values. */
module Vec2BinOpNode {
  import opened Wrappers
  import opened Sockets
  import opened Errors
  import opened Glsl
  import opened Operands
  import opened NodeTypes
  import opened NodeCodeHelpers

  const BaseLabel := "Vector2 Binary Op"
  const Operations := ["+", "-", "*", "/", "reflect"]

  /** Two vector2 inputs holding (0, 0), one vector2 output, the operation `+`. */
  const Layout := Shape(
    MathOp, BaseLabel,
    [SocketSpec("Vector", Vector2, Some(Vec2(0.0, 0.0))), SocketSpec("Vector", Vector2, Some(Vec2(0.0, 0.0)))],
    [SocketSpec("Result", Vector2, None)],
    Some([Parameter("Operation", "+", Operations)]))

  /** The name the `label` getter shows for each listed operation. */
  const Names := map["+" := "Add", "-" := "Subtract", "*" := "Multiply", "/" := "Divide", "reflect" := "Reflect"]

  /** The name table covers exactly the listed operations. */
  lemma NamesCoverOperations()
    ensures forall o :: o in Names <==> o in Operations
  {
  }

  /** `label`: the listed operation's name from the table, and the base label for
      any other value. */
  function Label(op: string): (r: string)
    ensures op in Names ==> r == Names[op]
    ensures op !in Names ==> r == BaseLabel
    ensures op in Operations <==> r != BaseLabel
  {
    if op == "+" then "Add"
    else if op == "-" then "Subtract"
    else if op == "*" then "Multiply"
    else if op == "/" then "Divide"
    else if op == "reflect" then "Reflect"
    else BaseLabel
  }

  /** `isFunc`: whether the operation is written as a call. Among the listed
      operations these are exactly the ones GLSL has no infix operator for. */
  function IsFunc(op: string): (r: bool)
    ensures r ==> op in Operations
    ensures op in Operations ==> (r <==> !IsInfixOperator(op))
  {
    op in ["reflect"]
  }

  /** `code()`: both operands are converted producer-first into vector2; an
      unconnected one is the `vec2` constructor of its literal. */
  function Code(inputs: seq<SocketState>, out: string, op: string, fmt: Format): (r: Result<string, Error>)
    requires |inputs| == 2
    ensures r.Ok? ==> StartsWithDeclaration(r.value, TypeName(Layout.outputs[0].sockType), VariableName(out))
    ensures var a, b := Operand(inputs[0], ProducerFirst, Vec2Ctor, fmt), Operand(inputs[1], ProducerFirst, Vec2Ctor, fmt);
      && (r.Ok? <==> a.Ok? && b.Ok?)
      && (r.Err? ==> r.error == if a.Err? then a.error else b.error)
      && (r.Ok? && op in Operations ==> r.value == Declare("vec2", VariableName(out), Apply(op, a.value, b.value)))
      && (r.Ok? && op !in Operations ==> r.value == Declare("vec2", VariableName(out), Infix(a.value, op, b.value)))
  {
    assert Layout.outputs[0].sockType == Vector2;
    var a :- Operand(inputs[0], ProducerFirst, Vec2Ctor, fmt);
    var b :- Operand(inputs[1], ProducerFirst, Vec2Ctor, fmt);
    if IsFunc(op) then Ok(Declare("vec2", VariableName(out), Call(op, [a, b])))
    else Ok(Declare("vec2", VariableName(out), Infix(a, op, b)))
  }

  /** Well-typed inputs always generate code, whatever the operation value. */
  lemma WellTypedGenerates(inputs: seq<SocketState>, out: string, op: string, fmt: Format)
    requires WellTyped(Layout.inputs, inputs)
    ensures Code(inputs, out, op, fmt).Ok?
  {
    OperandOfWellTyped(inputs[0], ProducerFirst, Vec2Ctor, fmt);
    OperandOfWellTyped(inputs[1], ProducerFirst, Vec2Ctor, fmt);
  }
}
