/** The GLSL text the node generators emit: typed declarations, infix
    applications and calls. */
module Glsl {
  import opened Sockets

  /** The GLSL type a value of a socket type is declared with. */
  function TypeName(t: SocketType): string
  {
    match t
    case Bool => "bool"
    case Float => "float"
    case Vector2 => "vec2"
    case Vector3 => "vec3"
    case Vector4 => "vec4"
    case Color => "vec4"
  }

  /** The start of a declaration of variable `name` with type `ty`. */
  function Head(ty: string, name: string): string
  {
    ty + " " + name + " = "
  }

  /** Whether `code` begins with a declaration of `name` with type `ty`. */
  predicate StartsWithDeclaration(code: string, ty: string, name: string)
  {
    |Head(ty, name)| <= |code| && code[..|Head(ty, name)|] == Head(ty, name)
  }

  /** One statement `<ty> <name> = <rhs>;` and its line break. */
  function Declare(ty: string, name: string, rhs: string): (r: string)
    ensures StartsWithDeclaration(r, ty, name)
    ensures |r| >= 2 && r[|r| - 2..] == ";\n"
  {
    Head(ty, name) + rhs + ";\n"
  }

  /** Text appended after a declaration leaves it at the start. */
  lemma StartsWithDeclarationAppend(code: string, rest: string, ty: string, name: string)
    requires StartsWithDeclaration(code, ty, name)
    ensures StartsWithDeclaration(code + rest, ty, name)
  {
    assert (code + rest)[..|Head(ty, name)|] == code[..|Head(ty, name)|];
  }

  function Infix(a: string, op: string, b: string): string
  {
    a + " " + op + " " + b
  }

  /** Arguments separated by `, `. */
  function Join(args: seq<string>): string
  {
    if |args| == 0 then "" else if |args| == 1 then args[0] else args[0] + ", " + Join(args[1..])
  }

  lemma JoinTwo(a: string, b: string)
    ensures Join([a, b]) == a + ", " + b
  {
    assert [a, b][1..] == [b];
  }

  lemma JoinThree(a: string, b: string, c: string)
    ensures Join([a, b, c]) == a + ", " + b + ", " + c
  {
    assert [a, b, c][1..] == [b, c];
    JoinTwo(b, c);
  }

  function Call(f: string, args: seq<string>): string
  {
    f + "(" + Join(args) + ")"
  }

  /** GLSL's binary infix operators; every other operation is a built-in function. */
  predicate IsInfixOperator(op: string)
  {
    op in {"+", "-", "*", "/", "<", "<=", ">", ">=", "==", "!="}
  }

  /** The reference rendering of a binary operation in GLSL syntax. */
  function Apply(op: string, a: string, b: string): string
  {
    if IsInfixOperator(op) then Infix(a, op, b) else Call(op, [a, b])
  }
}

/** Node parameters, socket layouts and node classes (src/node/types/). */
module NodeTypes {
  import opened Wrappers
  import opened Sockets

  /** `NodeClass`: the display category of a node. */
  datatype NodeClass = MathOp | Transform | InputClass | OutputClass

  /** `NodeParameter`: a closed choice such as the operator of a math node. */
  datatype Parameter = Parameter(caption: string, value: string, validValues: seq<string>)

  /** One socket as a node's constructor declares it. */
  datatype SocketSpec = SocketSpec(caption: string, sockType: SocketType, value: Option<Literal>)

  /** Everything a node variant's constructor sets: class, label, sockets, parameters. */
  datatype Shape = Shape(
    nodeClass: NodeClass,
    caption: string,
    inputs: seq<SocketSpec>,
    outputs: seq<SocketSpec>,
    parameters: Option<seq<Parameter>>)

  /** The input states of a node just built from `specs`: unconnected, default literal. */
  function Unconnected(specs: seq<SocketSpec>): (r: seq<SocketState>)
    ensures |r| == |specs|
    ensures forall i :: 0 <= i < |r| ==> r[i].conection == None && r[i].value == specs[i].value && r[i].sockType == specs[i].sockType
  {
    seq(|specs|, i requires 0 <= i < |specs| => SocketState(specs[i].sockType, None, None, specs[i].value))
  }
  /** Inputs of the declared types whose connections carry the socket's own type,
      and whose unconnected sockets hold a literal of that type. */
  predicate WellTyped(specs: seq<SocketSpec>, inputs: seq<SocketState>)
  {
    && |inputs| == |specs|
    && forall i :: 0 <= i < |inputs| ==>
         && inputs[i].sockType == specs[i].sockType
         && (inputs[i].conection.Some? ==> inputs[i].conection.value.producerType == inputs[i].sockType)
         && (inputs[i].conection.None? ==> LiteralFits(inputs[i].sockType, inputs[i].value))
  }

  /** A node just built from specs whose defaults fit their types has well-typed inputs. */
  lemma UnconnectedWellTyped(specs: seq<SocketSpec>)
    requires forall i :: 0 <= i < |specs| ==> LiteralFits(specs[i].sockType, specs[i].value)
    ensures WellTyped(specs, Unconnected(specs))
  {
    var inputs := Unconnected(specs);
    forall i | 0 <= i < |inputs|
      ensures inputs[i].conection == None && LiteralFits(inputs[i].sockType, inputs[i].value)
    {
      assert inputs[i].sockType == specs[i].sockType && inputs[i].value == specs[i].value;
    }
  }
}

/** How the node generators render one input socket: a connected socket through
    the conversion matrix, an unconnected one from its literal. */
module Operands {
  import opened Wrappers
  import opened Sockets
  import opened Errors
  import opened NodeCodeHelpers

  /** Which type a call site passes first to `convertSocketTypes`. */
  datatype ArgOrder = ProducerFirst | ConsumerFirst

  datatype Axis = X | Y | Z

  /** How a call site formats a literal: `toFixed(2)`, `toString()`,
      `vec2`/`vec3` + `Vector.toString(2)`, `vec4` + `ColorRGBA.toString()`,
      or one component with `toFixed(2)`. */
  datatype LiteralStyle = Fixed2 | Plain | Vec2Ctor | Vec3Ctor | Vec4Color | Component(axis: Axis)

  /** The number and colour formatting routines, which the model leaves uninterpreted. */
  datatype Format = Format(
    fixed2: real -> string,
    plain: real -> string,
    vector2: (real, real) -> string,
    vector3: (real, real, real) -> string,
    color: string -> string)

  /** A literal's text. A missing literal raises a TypeError in the source, and so
      do a vector at a `toFixed(2)` site and a missing `.z`. The remaining mismatches
      (a number at a vector or colour site, any literal at a `toString()` site) would
      print text in the source; they never arise, because every layout's defaults and
      every literal the editor writes match the socket's type, and the model treats
      them as errors too. */
  function LiteralText(style: LiteralStyle, value: Option<Literal>, fmt: Format): (r: Result<string, Error>)
    ensures value.None? ==> r.Err?
  {
    match (style, value)
    case (Fixed2, Some(Number(n))) => Ok(fmt.fixed2(n))
    case (Plain, Some(Number(n))) => Ok(fmt.plain(n))
    case (Vec2Ctor, Some(Vec2(x, y))) => Ok("vec2" + fmt.vector2(x, y))
    case (Vec3Ctor, Some(Vec3(x, y, z))) => Ok("vec3" + fmt.vector3(x, y, z))
    case (Vec4Color, Some(Rgba(hex))) => Ok("vec4" + fmt.color(hex))
    case (Component(X), Some(Vec2(x, _))) => Ok(fmt.fixed2(x))
    case (Component(Y), Some(Vec2(_, y))) => Ok(fmt.fixed2(y))
    case (Component(X), Some(Vec3(x, _, _))) => Ok(fmt.fixed2(x))
    case (Component(Y), Some(Vec3(_, y, _))) => Ok(fmt.fixed2(y))
    case (Component(Z), Some(Vec3(_, _, z))) => Ok(fmt.fixed2(z))
    case (_, None) => Err(TypeError("value is undefined"))
    case _ => Err(TypeError("literal has no such method or component"))
  }

  /** The conversion pair a call site asks for, in its argument order. */
  function Asked(c: Connection, socketType: SocketType, order: ArgOrder): (SocketType, SocketType)
  {
    if order == ProducerFirst then (c.producerType, socketType) else (socketType, c.producerType)
  }

  /** A connected socket's expression: the producer's variable name passed through
      `convertSocketTypes` with the call site's argument order. */
  function ConnectedOperand(c: Connection, socketType: SocketType, order: ArgOrder): (r: Result<string, Error>)
    ensures c.producerType == socketType ==> r == Ok(VariableName(c.producerId))
    ensures r.Ok? <==> c.producerType == socketType || Asked(c, socketType, order) in Conversions
  {
    var pair := Asked(c, socketType, order);
    Convert(pair.0, pair.1, VariableName(c.producerId))
  }

  /** The expression a generator uses for one input socket. */
  function Operand(s: SocketState, order: ArgOrder, style: LiteralStyle, fmt: Format): (r: Result<string, Error>)
    ensures s.conection.Some? ==> r == ConnectedOperand(s.conection.value, s.sockType, order)
    ensures s.conection.None? ==> r == LiteralText(style, s.value, fmt)
  {
    if s.conection.Some? then ConnectedOperand(s.conection.value, s.sockType, order)
    else LiteralText(style, s.value, fmt)
  }

  function Swizzle(axis: Axis): string
  {
    match axis
    case X => ".x"
    case Y => ".y"
    case Z => ".z"
  }

  /** One component of a vector input, as the separating nodes read it: the
      converted producer expression with a swizzle, or the literal's component. */
  function ComponentOperand(s: SocketState, order: ArgOrder, axis: Axis, fmt: Format): (r: Result<string, Error>)
    ensures s.conection.Some? ==> (r.Ok? <==> ConnectedOperand(s.conection.value, s.sockType, order).Ok?)
    ensures s.conection.Some? && r.Ok? ==> r.value == ConnectedOperand(s.conection.value, s.sockType, order).value + Swizzle(axis)
    ensures s.conection.None? ==> r == LiteralText(Component(axis), s.value, fmt)
  {
    if s.conection.Some? then
      var e :- ConnectedOperand(s.conection.value, s.sockType, order);
      Ok(e + Swizzle(axis))
    else LiteralText(Component(axis), s.value, fmt)
  }

  /** The two argument orders agree exactly when the producer's type is the socket's:
      a bool producer feeding a float socket is rendered with the float-to-bool
      test by a consumer-first call site, and with the bool-to-float ternary by a
      producer-first one; a vector2 producer is broadcast by the first and refused
      by the second. */
  lemma ArgumentOrderMatters(producerId: string)
    ensures var v := VariableName(producerId);
      && ConnectedOperand(Connection(producerId, Bool), Float, ConsumerFirst) == Ok("(" + v + " != 0.0)")
      && ConnectedOperand(Connection(producerId, Bool), Float, ProducerFirst) == Ok("(" + v + "? 1.0: 0.0)")
      && ConnectedOperand(Connection(producerId, Vector2), Float, ConsumerFirst) == Ok("vec2(" + v + ", " + v + ")")
      && ConnectedOperand(Connection(producerId, Vector2), Float, ProducerFirst) == Err(CantConvert(Vector2, Float))
  {
  }

  /** The literal styles the call sites use for each socket type. */
  predicate StyleFits(t: SocketType, style: LiteralStyle)
  {
    match t
    case Float => style == Fixed2 || style == Plain
    case Vector2 => style == Vec2Ctor || style == Component(X) || style == Component(Y)
    case Vector3 => style == Vec3Ctor || style.Component?
    case Color => style == Vec4Color
    case _ => false
  }

  /** A socket connected to a producer of its own type, or holding a literal of its
      own type read in a fitting style, always yields an operand. */
  lemma OperandOfWellTyped(s: SocketState, order: ArgOrder, style: LiteralStyle, fmt: Format)
    requires s.conection.Some? ==> s.conection.value.producerType == s.sockType
    requires s.conection.None? ==> LiteralFits(s.sockType, s.value)
    requires StyleFits(s.sockType, style)
    ensures Operand(s, order, style, fmt).Ok?
    ensures style.Component? ==> ComponentOperand(s, order, style.axis, fmt).Ok?
  {
  }
}
