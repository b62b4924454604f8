/** src/node/node-defs/node-code-helpers.ts: shader variable names and the
    socket-type conversion matrix. */
module NodeCodeHelpers {
  import opened Wrappers
  import opened Sockets
  import opened Errors
  import Seqs

  function NotDash(c: char): bool { c != '-' }

  /** `getVariableNameForSocket`: the socket id with every `-` removed. */
  function VariableName(id: string): (r: string)
    ensures '-' !in r
    ensures forall c :: c in id && c != '-' ==> multiset(r)[c] == multiset(id)[c]
    ensures forall c :: c in r ==> c in id
  {
    Seqs.Filter(id, NotDash)
  }

  /** The other characters keep their order: the name of a concatenation is the
      concatenation of the names. */
  lemma VariableNameAppend(a: string, b: string)
    ensures VariableName(a + b) == VariableName(a) + VariableName(b)
  {
    Seqs.FilterAppend(a, b, NotDash);
  }

  /** A string without dashes is its own variable name; hence naming is idempotent. */
  lemma VariableNameFixesDashFree(s: string)
    requires '-' !in s
    ensures VariableName(s) == s
  {
    Seqs.FilterKeepsAll(s, NotDash);
  }

  lemma VariableNameIdempotent(id: string)
    ensures VariableName(VariableName(id)) == VariableName(id)
  {
    Seqs.FilterIdempotent(id, NotDash);
  }

  /** The non-identity conversions the matrix supports, as an independent table. */
  const Conversions: set<(SocketType, SocketType)> := {
    (Bool, Float),
    (Float, Bool), (Float, Vector2), (Float, Vector3), (Float, Color),
    (Vector2, Bool),
    (Vector3, Bool), (Vector3, Vector2), (Vector3, Color),
    (Color, Bool), (Color, Vector2), (Color, Vector3)
  }

  /** `convertSocketTypes(from, to, value)`: an expression of type `to` built from
      the expression `value` of type `from`, or the error the source throws. */
  function Convert(from: SocketType, to: SocketType, value: string): (r: Result<string, Error>)
    ensures from == to ==> r == Ok(value)
    ensures r.Ok? <==> from == to || (from, to) in Conversions
    ensures r.Err? ==> r.error == if from == Vector4 then UnknownSocketType(from) else CantConvert(from, to)
  {
    if from == to then Ok(value)
    else
      match from
      case Bool =>
        if to == Float then Ok("(" + value + "? 1.0: 0.0)") else Err(CantConvert(from, to))
      case Float =>
        (match to
         case Bool => Ok("(" + value + " != 0.0)")
         case Vector2 => Ok("vec2(" + value + ", " + value + ")")
         case Vector3 => Ok("vec3(" + value + ", " + value + ", " + value + ")")
         case Color => Ok("vec4(" + value + ", " + value + ", " + value + ", " + value + ")")
         case _ => Err(CantConvert(from, to)))
      case Vector2 =>
        if to == Bool then Ok("(length(" + value + ") != 0.0)") else Err(CantConvert(from, to))
      case Vector3 =>
        (match to
         case Bool => Ok("(length(" + value + ") != 0.0)")
         case Vector2 => Ok(value + ".xy")
         case Color => Ok("vec4(" + value + ", 1.0)")
         case _ => Err(CantConvert(from, to)))
      case Color =>
        (match to
         case Bool => Ok("(length(" + value + ") != 0.0)")
         case Vector2 => Ok(value + ".xy")
         case Vector3 => Ok(value + ".xyz")
         case _ => Err(CantConvert(from, to)))
      case Vector4 => Err(UnknownSocketType(from))
  }

  /** From bool only float is reachable, through the 1.0/0.0 ternary. */
  lemma FromBool(to: SocketType, v: string)
    requires to != Bool
    ensures Convert(Bool, to, v) == if to == Float then Ok("(" + v + "? 1.0: 0.0)") else Err(CantConvert(Bool, to))
  {
  }

  /** From float: a non-zero test to bool, a broadcast to vector2, vector3 and color,
      and no conversion to vector4. */
  lemma FromFloat(v: string)
    ensures Convert(Float, Bool, v) == Ok("(" + v + " != 0.0)")
    ensures Convert(Float, Vector2, v) == Ok("vec2(" + v + ", " + v + ")")
    ensures Convert(Float, Vector3, v) == Ok("vec3(" + v + ", " + v + ", " + v + ")")
    ensures Convert(Float, Color, v) == Ok("vec4(" + v + ", " + v + ", " + v + ", " + v + ")")
    ensures Convert(Float, Vector4, v) == Err(CantConvert(Float, Vector4))
  {
  }

  /** From vector2 only the non-zero-length test to bool is supported. */
  lemma FromVector2(to: SocketType, v: string)
    requires to != Vector2
    ensures Convert(Vector2, to, v) == if to == Bool then Ok("(length(" + v + ") != 0.0)") else Err(CantConvert(Vector2, to))
  {
  }

  /** From vector3: length test, `.xy` swizzle, alpha padding; float and vector4 fail. */
  lemma FromVector3(v: string)
    ensures Convert(Vector3, Bool, v) == Ok("(length(" + v + ") != 0.0)")
    ensures Convert(Vector3, Vector2, v) == Ok(v + ".xy")
    ensures Convert(Vector3, Color, v) == Ok("vec4(" + v + ", 1.0)")
    ensures Convert(Vector3, Float, v) == Err(CantConvert(Vector3, Float))
    ensures Convert(Vector3, Vector4, v) == Err(CantConvert(Vector3, Vector4))
  {
  }

  /** From color: length test, `.xy` and `.xyz` swizzles; float and vector4 fail. */
  lemma FromColor(v: string)
    ensures Convert(Color, Bool, v) == Ok("(length(" + v + ") != 0.0)")
    ensures Convert(Color, Vector2, v) == Ok(v + ".xy")
    ensures Convert(Color, Vector3, v) == Ok(v + ".xyz")
    ensures Convert(Color, Float, v) == Err(CantConvert(Color, Float))
    ensures Convert(Color, Vector4, v) == Err(CantConvert(Color, Vector4))
  {
  }
}
