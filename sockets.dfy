/** Sockets: the typed connection endpoints of a node (src/node/types/socket.ts). */
module Sockets {
  import opened Wrappers

  /** The socket value types. `Vector4` exists in the enumeration but has no
      row in the conversion matrix. */
  datatype SocketType = Bool | Float | Vector2 | Vector3 | Vector4 | Color

  datatype Role = Input | Output

  /** `conection`: the producing output socket's id and its type. */
  datatype Connection = Connection(producerId: string, producerType: SocketType)

  /** A socket's literal `value`: a number, a `Vector2`, a `Vector3` or a `ColorRGBA`
      (kept as the hex string it was built from). */
  datatype Literal =
    | Number(n: real)
    | Vec2(x: real, y: real)
    | Vec3(x: real, y: real, z: real)
    | Rgba(hex: string)

  /** Whether a literal is of the kind a socket of type `t` holds. */
  predicate LiteralFits(t: SocketType, v: Option<Literal>)
  {
    match (t, v)
    case (Float, Some(Number(_))) => true
    case (Vector2, Some(Vec2(_, _))) => true
    case (Vector3, Some(Vec3(_, _, _))) => true
    case (Color, Some(Rgba(_))) => true
    case _ => false
  }

  /** What a code generator reads from one socket. */
  datatype SocketState = SocketState(
    sockType: SocketType,
    uId: Option<string>,
    conection: Option<Connection>,
    value: Option<Literal>)

  /** A socket object. `uId` is written once by the owning node's constructor;
      `conection` is written in place by the node engine. */
  class Socket {
    const caption: string  // `label` (a keyword here)
    const sockType: SocketType
    const role: Role
    var uId: Option<string>
    var conection: Option<Connection>
    var value: Option<Literal>

    constructor (caption: string, sockType: SocketType, role: Role, value: Option<Literal>)
      ensures this.caption == caption && this.sockType == sockType && this.role == role
      ensures this.value == value && uId == None && conection == None
    {
      this.caption := caption;
      this.sockType := sockType;
      this.role := role;
      this.value := value;
      uId := None;
      conection := None;
    }

    function State(): SocketState
      reads this
    {
      SocketState(sockType, uId, conection, value)
    }
  }
}

/** The exceptions the core throws, as values. */
module Errors {
  import opened Sockets

  datatype Error =
    | CantConvert(from: SocketType, to: SocketType)  // Error(`Can't convert ${from} to ${to}.`)
    | UnknownSocketType(from: SocketType)            // Error(`Unknown socket type ${from}`)
    | SameRole                                       // "Can't connect sockets with same role"
    | TypeError(reason: string)                      // a JavaScript TypeError at run time
}
