/** The node variants of src/node/node-defs/, dispatched by kind, and what holds
    across all of them. */
module NodeCatalog {
  import opened Wrappers
  import opened Sockets
  import opened Errors
  import opened Glsl
  import opened Operands
  import opened NodeTypes
  import opened NodeCodeHelpers
  import ScalarBinOpNode
  import ScalarBinBoolOpNode
  import Vec2BinOpNode
  import Vec3BinOpNode
  import Vec3BinScalarOpNode
  import Vec3ScalarBinOpNode
  import ScalarUnOpNode
  import AddNode
  import SqrtNode
  import Vec2NormalizeNode
  import Vec3NormalizeNode
  import CombineXYNode
  import CombineXYZNode
  import SeparateXYNode
  import SeparateXYZNode
  import CoordinateNode
  import OutputNode

  /** The concrete subclasses of `BaseNode`. */
  datatype NodeKind =
    | ScalarBinOp | ScalarBinBoolOp | Vec2BinOp | Vec3BinOp | Vec3BinScalarOp | Vec3ScalarBinOp
    | ScalarUnOp | Add | Sqrt | Vec2Normalize | Vec3Normalize
    | CombineXY | CombineXYZ | SeparateXY | SeparateXYZ
    | Coordinate | OutputSink

  /** What each subclass's constructor sets. */
  function ShapeOf(kind: NodeKind): (r: Shape)
    ensures forall k :: 0 <= k < |r.inputs| ==> LiteralFits(r.inputs[k].sockType, r.inputs[k].value)
    ensures forall j :: 0 <= j < |r.outputs| ==> r.outputs[j].value.None?
    ensures r.parameters.Some? ==> |r.parameters.value| == 1
  {
    match kind
    case ScalarBinOp => ScalarBinOpNode.Layout
    case ScalarBinBoolOp => ScalarBinBoolOpNode.Layout
    case Vec2BinOp => Vec2BinOpNode.Layout
    case Vec3BinOp => Vec3BinOpNode.Layout
    case Vec3BinScalarOp => Vec3BinScalarOpNode.Layout
    case Vec3ScalarBinOp => Vec3ScalarBinOpNode.Layout
    case ScalarUnOp => ScalarUnOpNode.Layout
    case Add => AddNode.Layout
    case Sqrt => SqrtNode.Layout
    case Vec2Normalize => Vec2NormalizeNode.Layout
    case Vec3Normalize => Vec3NormalizeNode.Layout
    case CombineXY => CombineXYNode.Layout
    case CombineXYZ => CombineXYZNode.Layout
    case SeparateXY => SeparateXYNode.Layout
    case SeparateXYZ => SeparateXYZNode.Layout
    case Coordinate => CoordinateNode.Layout
    case OutputSink => OutputNode.Layout
  }

  /** The valid values of a kind's operation parameter; empty for kinds without one. */
  function ValidOperations(kind: NodeKind): seq<string>
  {
    var ps := ShapeOf(kind).parameters;
    if ps.Some? && |ps.value| > 0 then ps.value[0].validValues else []
  }

  /** The name table of each kind's `label` getter; empty for kinds without an
      operation. */
  function OperationNames(kind: NodeKind): (r: map<string, string>)
    ensures ShapeOf(kind).parameters.None? ==> r == map[]
  {
    match kind
    case ScalarBinOp => ScalarBinOpNode.Names
    case ScalarBinBoolOp => ScalarBinBoolOpNode.Names
    case Vec2BinOp => Vec2BinOpNode.Names
    case Vec3BinOp => Vec3BinOpNode.Names
    case Vec3BinScalarOp => Vec3BinScalarOpNode.Names
    case Vec3ScalarBinOp => Vec3ScalarBinOpNode.Names
    case ScalarUnOp => ScalarUnOpNode.Names
    case _ => map[]
  }

  /** Each kind's name table names exactly its valid operations. */
  lemma NamesCoverValidOperations(kind: NodeKind)
    ensures forall o :: o in OperationNames(kind) <==> o in ValidOperations(kind)
  {
    match kind
    case ScalarBinOp => ScalarBinOpNode.NamesCoverOperations();
    case ScalarBinBoolOp => ScalarBinBoolOpNode.NamesCoverOperations();
    case Vec2BinOp => Vec2BinOpNode.NamesCoverOperations();
    case Vec3BinOp => Vec3BinOpNode.NamesCoverOperations();
    case Vec3BinScalarOp => Vec3BinScalarOpNode.NamesCoverOperations();
    case Vec3ScalarBinOp => Vec3ScalarBinOpNode.NamesCoverOperations();
    case ScalarUnOp => ScalarUnOpNode.NamesCoverOperations();
    case _ =>
  }

  /** The `label` getter of each subclass, given the current operation value. A
      kind with an operation parameter shows the name its table gives a valid
      operation and falls back to its base label otherwise; the other kinds always
      show the base label. */
  function LabelOf(kind: NodeKind, op: string): (r: string)
    ensures op in OperationNames(kind) ==> r == OperationNames(kind)[op]
    ensures op !in OperationNames(kind) ==> r == ShapeOf(kind).caption
    ensures ShapeOf(kind).parameters.None? ==> r == ShapeOf(kind).caption
    ensures ShapeOf(kind).parameters.Some? ==> (r != ShapeOf(kind).caption <==> op in ValidOperations(kind))
  {
    match kind
    case ScalarBinOp => ScalarBinOpNode.Label(op)
    case ScalarBinBoolOp => ScalarBinBoolOpNode.Label(op)
    case Vec2BinOp => Vec2BinOpNode.Label(op)
    case Vec3BinOp => Vec3BinOpNode.Label(op)
    case Vec3BinScalarOp => Vec3BinScalarOpNode.Label(op)
    case Vec3ScalarBinOp => Vec3ScalarBinOpNode.Label(op)
    case ScalarUnOp => ScalarUnOpNode.Label(op)
    case _ => ShapeOf(kind).caption
  }

  /** `definitions()`: no subclass contributes shared definitions. The output node
      does not implement the method, so calling it fails. */
  function DefinitionsOf(kind: NodeKind): (r: Result<seq<(string, string)>, Error>)
    ensures r.Ok? <==> kind != OutputSink
    ensures r.Ok? ==> r.value == []
  {
    if kind == OutputSink then Err(TypeError("definitions is not a function")) else Ok([])
  }

  /** `code()` of each subclass, over the node's input states, the ids of its
      output sockets and its current operation value. Every kind but the output
      node has an output socket, and the first statement such a node generates
      declares the variable of its first output socket, with that socket's GLSL
      type. */
  function CodeOf(kind: NodeKind, inputs: seq<SocketState>, outs: seq<string>, op: string, fmt: Format): (r: Result<string, Error>)
    requires |inputs| == |ShapeOf(kind).inputs| && |outs| == |ShapeOf(kind).outputs|
    ensures kind != OutputSink <==> |ShapeOf(kind).outputs| >= 1
    ensures kind != OutputSink && r.Ok? ==>
      StartsWithDeclaration(r.value, TypeName(ShapeOf(kind).outputs[0].sockType), VariableName(outs[0]))
  {
    match kind
    case ScalarBinOp => ScalarBinOpNode.Code(inputs, outs[0], op, fmt)
    case ScalarBinBoolOp => ScalarBinBoolOpNode.Code(inputs, outs[0], op, fmt)
    case Vec2BinOp => Vec2BinOpNode.Code(inputs, outs[0], op, fmt)
    case Vec3BinOp => Vec3BinOpNode.Code(inputs, outs[0], op, fmt)
    case Vec3BinScalarOp => Vec3BinScalarOpNode.Code(inputs, outs[0], op, fmt)
    case Vec3ScalarBinOp => Vec3ScalarBinOpNode.Code(inputs, outs[0], op, fmt)
    case ScalarUnOp => ScalarUnOpNode.Code(inputs, outs[0], op, fmt)
    case Add => AddNode.Code(inputs, outs[0], fmt)
    case Sqrt => SqrtNode.Code(inputs, outs[0], fmt)
    case Vec2Normalize => Vec2NormalizeNode.Code(inputs, outs[0], fmt)
    case Vec3Normalize => Vec3NormalizeNode.Code(inputs, outs[0], fmt)
    case CombineXY => CombineXYNode.Code(inputs, outs[0], fmt)
    case CombineXYZ => CombineXYZNode.Code(inputs, outs[0], fmt)
    case SeparateXY => SeparateXYNode.Code(inputs, outs, fmt)
    case SeparateXYZ => SeparateXYZNode.Code(inputs, outs, fmt)
    case Coordinate => Ok(CoordinateNode.Code(outs[0]))
    case OutputSink => OutputNode.Code(inputs, fmt)
  }

  /** Every kind with a parameter has exactly one, the operation, whose default is
      one of its valid values; so a new node shows the operation's own name. */
  lemma DefaultOperationIsValid(kind: NodeKind)
    requires ShapeOf(kind).parameters.Some?
    ensures var ps := ShapeOf(kind).parameters.value;
      && |ps| == 1
      && ps[0].caption == "Operation"
      && ps[0].value in ps[0].validValues
      && LabelOf(kind, ps[0].value) != ShapeOf(kind).caption
      && LabelOf(kind, ps[0].value) == NewNodeLabel(kind)
  {
  }

  /** The label a newly built node shows, as its default operation names it (the
      base label for kinds without an operation). */
  function NewNodeLabel(kind: NodeKind): string
  {
    match kind
    case ScalarBinOp => "Add"
    case ScalarBinBoolOp => "Less Than"
    case Vec2BinOp => "Add"
    case Vec3BinOp => "Add"
    case Vec3BinScalarOp => "Dot Product"
    case Vec3ScalarBinOp => "Scale"
    case ScalarUnOp => "Square Root"
    case _ => ShapeOf(kind).caption
  }

  /** A node whose inputs are well typed generates code, whatever its operation
      value, except the output node once its input is connected. */
  lemma WellTypedInputsGenerate(kind: NodeKind, inputs: seq<SocketState>, outs: seq<string>, op: string, fmt: Format)
    requires WellTyped(ShapeOf(kind).inputs, inputs) && |outs| == |ShapeOf(kind).outputs|
    requires kind == OutputSink ==> inputs[0].conection.None?
    ensures CodeOf(kind, inputs, outs, op, fmt).Ok?
  {
    match kind
    case ScalarBinOp => ScalarBinOpNode.WellTypedGenerates(inputs, outs[0], op, fmt);
    case ScalarBinBoolOp => ScalarBinBoolOpNode.WellTypedGenerates(inputs, outs[0], op, fmt);
    case Vec2BinOp => Vec2BinOpNode.WellTypedGenerates(inputs, outs[0], op, fmt);
    case Vec3BinOp => Vec3BinOpNode.WellTypedGenerates(inputs, outs[0], op, fmt);
    case Vec3BinScalarOp => Vec3BinScalarOpNode.WellTypedGenerates(inputs, outs[0], op, fmt);
    case Vec3ScalarBinOp => Vec3ScalarBinOpNode.WellTypedGenerates(inputs, outs[0], op, fmt);
    case ScalarUnOp => ScalarUnOpNode.WellTypedGenerates(inputs, outs[0], op, fmt);
    case Add => AddNode.WellTypedGenerates(inputs, outs[0], fmt);
    case Sqrt => SqrtNode.WellTypedGenerates(inputs, outs[0], fmt);
    case Vec2Normalize => Vec2NormalizeNode.WellTypedGenerates(inputs, outs[0], fmt);
    case Vec3Normalize => Vec3NormalizeNode.WellTypedGenerates(inputs, outs[0], fmt);
    case CombineXY => CombineXYNode.WellTypedGenerates(inputs, outs[0], fmt);
    case CombineXYZ => CombineXYZNode.WellTypedGenerates(inputs, outs[0], fmt);
    case SeparateXY => SeparateXYNode.WellTypedGenerates(inputs, outs, fmt);
    case SeparateXYZ => SeparateXYZNode.WellTypedGenerates(inputs, outs, fmt);
    case Coordinate =>
    case OutputSink => OutputNode.WellTypedGenerates(inputs, fmt);
  }

  /** A freshly built node, all inputs unconnected and holding their defaults,
      generates code whatever its operation value. */
  lemma FreshNodeGenerates(kind: NodeKind, outs: seq<string>, op: string, fmt: Format)
    requires |outs| == |ShapeOf(kind).outputs|
    ensures CodeOf(kind, Unconnected(ShapeOf(kind).inputs), outs, op, fmt).Ok?
  {
    var specs := ShapeOf(kind).inputs;
    UnconnectedWellTyped(specs);
    WellTypedInputsGenerate(kind, Unconnected(specs), outs, op, fmt);
  }
}
