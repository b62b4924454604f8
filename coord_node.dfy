/** src/node/node-defs/coord-node.ts: the fragment's coordinates as an input node. */
module CoordinateNode {
  import opened Wrappers
  import opened Sockets
  import opened Glsl
  import opened NodeTypes
  import opened NodeCodeHelpers

  /** No inputs, one vector2 output, no parameters. */
  const Layout := Shape(
    InputClass, "Coordinates",
    [],
    [SocketSpec("Coordinates", Vector2, None)],
    None)

  const Expression := "gl_FragCoord.xy / uResolution"

  /** `code()`: the output is the fragment coordinate divided by the resolution
      uniform; it cannot fail. */
  function Code(out: string): (r: string)
    ensures StartsWithDeclaration(r, "vec2", VariableName(out))
    ensures r[|Head("vec2", VariableName(out))|..] == Expression + ";\n"
  {
    Declare("vec2", VariableName(out), Expression)
  }
}
