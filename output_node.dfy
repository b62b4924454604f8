/** src/node/node-defs/output-node.ts: the sink that writes the fragment colour. */
module OutputNode {
  import opened Wrappers
  import opened Sockets
  import opened Errors
  import opened Operands
  import opened NodeTypes

  /** One colour input holding `#000000`, no outputs, no parameters. */
  const Layout := Shape(
    OutputClass, "Output",
    [SocketSpec("Color", Color, Some(Rgba("#000000")))],
    [],
    None)

  const Prefix := "gl_FragColor = "

  /** `code()`: an assignment to `gl_FragColor`. Unconnected, its right-hand side is
      the `vec4` text of the colour literal. The connected branch calls a method the
      node does not have, so it fails. */
  function Code(inputs: seq<SocketState>, fmt: Format): (r: Result<string, Error>)
    requires |inputs| == 1
    ensures r.Ok? <==> inputs[0].conection.None? && inputs[0].value.Some? && inputs[0].value.value.Rgba?
    ensures r.Ok? ==> r.value == Prefix + "vec4" + fmt.color(inputs[0].value.value.hex) + ";\n"
  {
    var socket := inputs[0];
    if socket.conection.None? then
      var c :- LiteralText(Vec4Color, socket.value, fmt);
      Ok("gl_FragColor = " + c + ";\n")
    else Err(TypeError("getVariableNameForSocket is not a function"))
  }

  /** An unconnected input holding a colour always generates code. */
  lemma WellTypedGenerates(inputs: seq<SocketState>, fmt: Format)
    requires WellTyped(Layout.inputs, inputs) && inputs[0].conection.None?
    ensures Code(inputs, fmt).Ok?
  {
    OperandOfWellTyped(inputs[0], ProducerFirst, Vec4Color, fmt);
  }
}
