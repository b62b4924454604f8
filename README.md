# Node shader graph: a Dafny model of the node layer

This project models the node layer of *nodes*, a browser editor where a user wires
nodes into a graph that is compiled into a GLSL fragment shader. It covers three
parts of `src/node/`:

- **The code helpers** (`node-code-helpers.ts`). One turns a socket id into a GLSL
  variable name by dropping every `-`. The other converts an expression between
  socket types; a pair with no rule is an error.
- **The node base class** (`base-node.ts`). Node ids come from a class-wide counter
  and have the form `n-0007`. Socket ids have the form `n-0007-i-0000` or
  `n-0007-o-0002`, with one index running on from the inputs into the outputs. The
  class also holds the parameter list and dispatches `label`, `definitions()` and
  `code()` to the variant.
- **The seventeen node variants.** For each one the model states its layout (class,
  label, sockets with their types and default literals, operation parameter), its
  `label` getter, its `definitions()` and the GLSL its `code()` emits.
- **The node engine** (`node-engine.ts`). It keeps a map from ids to nodes and an
  array in drawing order. It protects the output node and connects and disconnects
  sockets. After each change to the graph it recompiles, and it deletes nodes
  together with the connections drawn from them.

Layout of the model:

- Pure code becomes modules of functions and lemmas, one module per source file.
- Sockets, nodes and the engine are classes, because the source writes their fields
  in place. `setSocketsId`, the socket construction and the connection scan of
  `deleteNode` are methods with loops.
- The variants share one `Node` class, tagged by `NodeKind`. `NodeCatalog` dispatches
  each kind to its variant's module.
- The class-wide id counter is an `IdCounter` object that the node constructor takes
  and advances.
- The shader compiler lives outside this layer and enters the model in two ways:
  - the listener's calls become a log of `CompileCall` values (node map, output-node
    id, uniforms);
  - `transverseNodes` becomes a parameter of `CreateConnection`, together with whether
    the listener throws.
- How numbers, vectors and colours are turned into text (`toFixed(2)`,
  `Vector.toString(2)`, `ColorRGBA.toString()`) is a `Format` record of functions the
  model leaves uninterpreted.
- Every exception the source throws becomes an `Err` value.

### Behaviour of the source worth noting

- **A failed connection** is reset to `null`. The error is logged and swallowed; the
  caller never sees it.
- **Argument order of the type conversion.** The nodes Add, Square Root, Combine X Y,
  Combine X Y Z and Separate X Y pass the consumer socket's type as the "from" type
  and the producer's type as the "to" type. Every other node passes the producer's
  type first. The model keeps each call site as written.
  `Operands.ArgumentOrderMatters` shows the two orders giving different GLSL, or an
  error, for the same connection.
- **`moveNodeToFront` of a node that is not in the array.** `indexOf` returns -1, and
  `splice(-1, 1)` then removes the last entry before the node is appended.
- **Node labels as the source sets them.** The vector3 normalise node is labelled
  "Vector2 Normalize". The unary scalar node's fallback label is "Scalar Binary Op".
- **The output node.**
  - It has no `definitions()` method, so calling it fails.
  - Its connected branch calls a method the class does not have, so it fails too.
  - Both are `Err(TypeError(...))` in the model.

## Model

| member | source | states |
|---|---|---|
| NodeCodeHelpers.VariableName | src/node/node-defs/node-code-helpers.ts:4-6 | The name has no `-`. Every other character of the id keeps its number of occurrences. The name has no character that is not in the id. |
| NodeCodeHelpers.VariableNameAppend | src/node/node-defs/node-code-helpers.ts:4-6 | Naming distributes over concatenation, so the remaining characters keep their order. |
| NodeCodeHelpers.VariableNameFixesDashFree | src/node/node-defs/node-code-helpers.ts:4-6 | A string without dashes is its own variable name. |
| NodeCodeHelpers.VariableNameIdempotent | src/node/node-defs/node-code-helpers.ts:4-6 | Naming twice is naming once. |
| NodeCodeHelpers.Convert | src/node/node-defs/node-code-helpers.ts:8-66 | The same type returns the expression unchanged. The call succeeds exactly for the pairs in the independent `Conversions` table. Any other pair fails with `CantConvert`, or with `UnknownSocketType` when converting from vector4. |
| NodeCodeHelpers.FromBool | src/node/node-defs/node-code-helpers.ts:14-20 | From bool, only float is reachable, through the `? 1.0: 0.0` ternary. |
| NodeCodeHelpers.FromFloat | src/node/node-defs/node-code-helpers.ts:21-33 | Float goes to bool by a non-zero test and is broadcast to vec2, vec3 and vec4. Vector4 is refused. |
| NodeCodeHelpers.FromVector2 | src/node/node-defs/node-code-helpers.ts:34-40 | Vector2 goes only to bool, by a length test. |
| NodeCodeHelpers.FromVector3 | src/node/node-defs/node-code-helpers.ts:41-51 | Vector3 goes to bool (length test), to vector2 (`.xy`) and to colour (alpha 1.0). Float and vector4 are refused. |
| NodeCodeHelpers.FromColor | src/node/node-defs/node-code-helpers.ts:52-62 | Colour goes to bool (length test), to vector2 (`.xy`) and to vector3 (`.xyz`). Float and vector4 are refused. |
| Seqs.Filter | src/node/node-engine.ts:110 | The result is the kept elements, in their original order: each kept element keeps its number of occurrences and every other element is dropped. |
| Seqs.FilterAppend | src/node/node-engine.ts:110 | Filtering distributes over concatenation. |
| NodeIds.NodeId | src/node/node-defs/base-node.ts:25 | A node id is `n-` followed by at least four characters. |
| NodeIds.DecimalDigits | src/node/node-defs/base-node.ts:25 | The decimal numeral of a counter value is all digits and starts with `0` only for 0. |
| NodeIds.Pad4Digits | src/node/node-defs/base-node.ts:25 | The padded counter is all digits. |
| NodeIds.Pad4RoundTrip | src/node/node-defs/base-node.ts:25 | Padding a counter value to four digits can be parsed back to the value, including values of five or more digits, which are not padded. |
| NodeIds.Pad4Injective | src/node/node-defs/base-node.ts:25 | Distinct counter values give distinct padded strings. |
| NodeIds.NodeIdRoundTrip | src/node/node-defs/base-node.ts:25 | The digits after `n-` parse back to the counter value the id was built from. |
| NodeIds.NodeIdsDistinct | src/node/node-defs/base-node.ts:25-26 | Distinct counter values give distinct node ids. |
| NodeIds.SocketId | src/node/node-defs/base-node.ts:30-41 | A socket id starts with its node's id and adds a three-character role tag and the padded index. |
| NodeIds.SocketIdInjective | src/node/node-defs/base-node.ts:30-41 | Within one node, the role and the index can be recovered from a socket id. |
| NodeIds.SocketIdsUnique | src/node/node-defs/base-node.ts:24-41 | Socket ids of counter-built nodes coincide only for the same counter value, role and index. |
| NodeIds.ProducerNodeId | src/node/node-engine.ts:79 | The greedy match `.*(?=-o-)` is everything before the last `-o-` marker. There is no match exactly when the id has no marker. |
| NodeIds.ProducerOfOutputSocket | src/node/node-engine.ts:105 | Parsing an output socket's id gives back the id of the node that owns it. |
| NodeIds.NoProducerInInputSocket | src/node/node-defs/base-node.ts:30-35 | The id of an input socket of a counter-built node never matches. |
| Glsl.Declare | src/node/node-defs/math/scalar-bin-op-node.ts:65-70 | A generated statement starts by declaring the named variable with its type and ends with `;` and a line break. |
| Glsl.StartsWithDeclarationAppend | src/node/node-defs/separate-xy-node.ts:33-34 | Appending further statements keeps the first declaration at the front. |
| Glsl.JoinThree | src/node/node-defs/transform/combine-xyz-node.ts:47 | Three arguments are separated by `, `. |
| NodeTypes.Unconnected | src/node/node-defs/math/scalar-bin-op-node.ts:30-36 | The sockets a constructor declares start unconnected and hold their default literal and type. |
| NodeTypes.UnconnectedWellTyped | src/node/node-defs/math/scalar-bin-op-node.ts:30-36 | Sockets as a constructor declares them are well typed when each default literal fits its socket's type. |
| Operands.LiteralText | src/node/node-defs/math/scalar-bin-op-node.ts:56-58 | An unconnected socket with no literal fails with a TypeError. |
| Operands.ConnectedOperand | src/node/node-defs/math/scalar-bin-op-node.ts:56-57 | A connected operand is the producer's variable name when the types agree. Otherwise it succeeds exactly when the call site's (from, to) pair has a conversion. |
| Operands.Operand | src/node/node-defs/math/scalar-bin-op-node.ts:55-63 | A connected socket goes through the conversion; an unconnected one is its literal's text. |
| Operands.ComponentOperand | src/node/node-defs/transform/separate-xyz-node.ts:32-41 | A connected socket gives the converted expression plus the component swizzle. An unconnected one gives the literal's component. |
| Operands.ArgumentOrderMatters | src/node/node-defs/math/add-node.ts:32-40 | For a bool or vector2 producer feeding a float socket, the consumer-first and producer-first call sites emit different GLSL, or one of them fails. |
| ScalarBinOpNode.Label | src/node/node-defs/math/scalar-bin-op-node.ts:10-24 | Each listed operation shows the name its own `Names` table gives it (for example "+" shows "Add"); any other value shows the base label, and the name differs from the base label exactly for the listed operations. |
| ScalarBinOpNode.Code | src/node/node-defs/math/scalar-bin-op-node.ts:52-71 | Succeeds exactly when both operands do, and fails with the first operand's error. For a valid operation the output is a float declaration of the reference GLSL rendering (`pow` called, the others infix). Invalid operations are written infix. |
| ScalarBinOpNode.WellTypedGenerates | src/node/node-defs/math/scalar-bin-op-node.ts:52-71 | When every connection carries its socket's own type and every literal fits its socket, the code is generated, whatever the operation value. |
| ScalarBinBoolOpNode.Label | src/node/node-defs/math/scalar-bin-bool-op-node.ts:10-26 | Each listed operation shows the name its own `Names` table gives it (for example "<" shows "Less Than"); any other value shows the base label, and the name differs from the base label exactly for the listed operations. |
| ScalarBinBoolOpNode.Code | src/node/node-defs/math/scalar-bin-bool-op-node.ts:54-70 | A bool declaration of the comparison applied to the two float operands; the errors are the operands' errors. |
| ScalarBinBoolOpNode.WellTypedGenerates | src/node/node-defs/math/scalar-bin-bool-op-node.ts:54-70 | When every connection carries its socket's own type and every literal fits its socket, the code is generated, whatever the operation value. |
| Vec2BinOpNode.Label | src/node/node-defs/math/v2-bin-op-node.ts:10-24 | Each listed operation shows the name its own `Names` table gives it (for example "+" shows "Add"); any other value shows the base label, and the name differs from the base label exactly for the listed operations. |
| Vec2BinOpNode.IsFunc | src/node/node-defs/math/v2-bin-op-node.ts:52-54 | Only valid operations are functions, and among valid operations exactly the non-infix ones are. |
| Vec2BinOpNode.Code | src/node/node-defs/math/v2-bin-op-node.ts:56-75 | A vec2 declaration of the reference rendering (`reflect` called, the arithmetic operators infix); the errors are the operands' errors. |
| Vec2BinOpNode.WellTypedGenerates | src/node/node-defs/math/v2-bin-op-node.ts:56-75 | When every connection carries its socket's own type and every literal fits its socket, the code is generated, whatever the operation value. |
| Vec3BinOpNode.Label | src/node/node-defs/math/v3-bin-op-node.ts:10-26 | Each listed operation shows the name its own `Names` table gives it (for example "+" shows "Add"); any other value shows the base label, and the name differs from the base label exactly for the listed operations. |
| Vec3BinOpNode.IsFunc | src/node/node-defs/math/v3-bin-op-node.ts:54-56 | Only valid operations are functions, and among valid operations exactly the non-infix ones are. |
| Vec3BinOpNode.Code | src/node/node-defs/math/v3-bin-op-node.ts:58-76 | A vec3 declaration of the reference rendering (`cross` and `reflect` called, the arithmetic operators infix); the errors are the operands' errors. |
| Vec3BinOpNode.WellTypedGenerates | src/node/node-defs/math/v3-bin-op-node.ts:58-76 | When every connection carries its socket's own type and every literal fits its socket, the code is generated, whatever the operation value. |
| Vec3BinScalarOpNode.Label | src/node/node-defs/math/v3-bin-scalar-op-node.ts:10-18 | Each listed operation shows the name its own `Names` table gives it ("dot" shows "Dot Product", "distance" shows "Distance"); any other value shows the base label, and the name differs from the base label exactly for the listed operations. |
| Vec3BinScalarOpNode.Code | src/node/node-defs/math/v3-bin-scalar-op-node.ts:47-62 | A float declaration of the operation called on the two vec3 operands. |
| Vec3BinScalarOpNode.WellTypedGenerates | src/node/node-defs/math/v3-bin-scalar-op-node.ts:47-62 | When every connection carries its socket's own type and every literal fits its socket, the code is generated, whatever the operation value. |
| Vec3ScalarBinOpNode.Label | src/node/node-defs/math/v3-scalar-bin-op-node.ts:10-16 | Each listed operation shows the name its own `Names` table gives it ("*" shows "Scale"); any other value shows the base label, and the name differs from the base label exactly for the listed operations. |
| Vec3ScalarBinOpNode.Code | src/node/node-defs/math/v3-scalar-bin-op-node.ts:45-60 | A vec3 declaration of the vector operand, the operation and the float operand, infix; the errors are the operands' errors. |
| Vec3ScalarBinOpNode.WellTypedGenerates | src/node/node-defs/math/v3-scalar-bin-op-node.ts:45-60 | When every connection carries its socket's own type and every literal fits its socket, the code is generated, whatever the operation value. |
| ScalarUnOpNode.Label | src/node/node-defs/math/scalar-un-op-node.ts:10-19 | Each listed operation shows the name its own `Names` table gives it ("sqrt" shows "Square Root", "exp" shows "Exponential"); any other value shows the base label, and the name differs from the base label exactly for the listed operations. |
| ScalarUnOpNode.Code | src/node/node-defs/math/scalar-un-op-node.ts:46-56 | A float declaration of the operation called on the operand; it fails exactly when the operand does. |
| ScalarUnOpNode.WellTypedGenerates | src/node/node-defs/math/scalar-un-op-node.ts:46-56 | When every connection carries its socket's own type and every literal fits its socket, the code is generated, whatever the operation value. |
| AddNode.Code | src/node/node-defs/math/add-node.ts:29-44 | A float declaration of the sum of the two operands, which are converted consumer-first. |
| AddNode.WellTypedGenerates | src/node/node-defs/math/add-node.ts:29-44 | When every connection carries its socket's own type and every literal fits its socket, the code is generated. |
| SqrtNode.Code | src/node/node-defs/math/sqrt-node.ts:28-38 | A float declaration of `sqrt` of the operand, which is converted consumer-first. |
| SqrtNode.WellTypedGenerates | src/node/node-defs/math/sqrt-node.ts:28-38 | When every connection carries its socket's own type and every literal fits its socket, the code is generated. |
| Vec2NormalizeNode.Code | src/node/node-defs/math/v2-normailze-node.ts:29-39 | A vec2 declaration of `normalize` of the operand. |
| Vec2NormalizeNode.WellTypedGenerates | src/node/node-defs/math/v2-normailze-node.ts:29-39 | When every connection carries its socket's own type and every literal fits its socket, the code is generated. |
| Vec3NormalizeNode.Code | src/node/node-defs/math/v3-normailze-node.ts:29-39 | A vec3 declaration of `normalize` of the operand. |
| Vec3NormalizeNode.WellTypedGenerates | src/node/node-defs/math/v3-normailze-node.ts:29-39 | When every connection carries its socket's own type and every literal fits its socket, the code is generated. |
| CombineXYNode.Code | src/node/node-defs/transform/combine-xy-node.ts:29-44 | A vec2 declaration of the constructor call on the X and Y operands, which are converted consumer-first, with literals as plain text. |
| CombineXYNode.WellTypedGenerates | src/node/node-defs/transform/combine-xy-node.ts:29-44 | When every connection carries its socket's own type and every literal fits its socket, the code is generated. |
| CombineXYZNode.Code | src/node/node-defs/transform/combine-xyz-node.ts:30-50 | A vec3 declaration of the constructor call on the X, Y and Z operands, which are converted consumer-first, with literals as plain text. |
| CombineXYZNode.WellTypedGenerates | src/node/node-defs/transform/combine-xyz-node.ts:30-50 | When every connection carries its socket's own type and every literal fits its socket, the code is generated. |
| SeparateXYNode.Statements | src/node/node-defs/separate-xy-node.ts:33-40 | The statements start by declaring the float variable of the first output. |
| SeparateXYNode.Code | src/node/node-defs/separate-xy-node.ts:29-41 | One float declaration per output, in order, holding the matching component. The connected input is converted consumer-first. |
| SeparateXYNode.WellTypedGenerates | src/node/node-defs/separate-xy-node.ts:29-41 | When every connection carries its socket's own type and every literal fits its socket, the code is generated. |
| SeparateXYZNode.Statements | src/node/node-defs/transform/separate-xyz-node.ts:33-42 | The statements start by declaring the float variable of the first output. |
| SeparateXYZNode.Code | src/node/node-defs/transform/separate-xyz-node.ts:30-43 | One float declaration per output, in order, holding the matching component. The connected input is converted producer-first. |
| SeparateXYZNode.WellTypedGenerates | src/node/node-defs/transform/separate-xyz-node.ts:30-43 | When every connection carries its socket's own type and every literal fits its socket, the code is generated. |
| CoordinateNode.Code | src/node/node-defs/coord-node.ts:29-31 | One vec2 declaration of the output's variable, whose right-hand side is the fragment coordinate divided by the resolution. |
| OutputNode.Code | src/node/node-defs/output-node.ts:22-32 | Succeeds exactly when the input is unconnected and holds a colour. The result is the `gl_FragColor` assignment of that colour's `vec4` text. |
| OutputNode.WellTypedGenerates | src/node/node-defs/output-node.ts:22-32 | An unconnected input holding a colour literal always generates the assignment. |
| NodeCatalog.ShapeOf | src/node/node-defs/math/scalar-bin-op-node.ts:26-46 | What each constructor sets: every input socket's default literal fits the socket's type, output sockets carry no literal, and a variant with parameters has exactly one. |
| NodeCatalog.LabelOf | src/node/node-defs/base-node.ts:15 | A kind shows the name its table gives the current operation, and its base label for any other value; kinds without parameters always show the base label. A kind with an operation shows a different label exactly for its valid operations. |
| NodeCatalog.NamesCoverValidOperations | src/node/node-defs/math/scalar-bin-op-node.ts:10-24 | Each kind's name table names exactly the valid values of its operation parameter. |
| NodeCatalog.DefinitionsOf | src/node/node-defs/base-node.ts:44 | Every variant but the output node contributes no definitions; the output node's call fails. |
| NodeCatalog.DefaultOperationIsValid | src/node/node-defs/math/scalar-bin-op-node.ts:37-43 | Every parameterised kind has exactly one parameter, "Operation". Its default is one of its valid values, so a new node shows that operation's own name: "Add" for the scalar, vector2 and vector3 binary nodes, "Less Than", "Dot Product", "Scale" and "Square Root" for the others. |
| Operands.OperandOfWellTyped | src/node/node-defs/math/scalar-bin-op-node.ts:55-58 | A same-typed connection, or a literal of the socket's own type, always yields an operand, also when the call site takes one component of it. |
| NodeCatalog.WellTypedInputsGenerate | src/node/node-defs/base-node.ts:43 | Code generation succeeds for every kind whose inputs are well typed, whatever the operation value. The exception is the output node once connected. |
| NodeCatalog.FreshNodeGenerates | src/node/node-defs/base-node.ts:43 | A freshly built node of any kind generates code. |
| NodeCatalog.CodeOf | src/node/node-defs/base-node.ts:43 | Dispatches `code()` to each variant. Every kind except the output node has an output socket, and its code starts by declaring the first output's variable, with that socket's GLSL type. |
| BaseNode.IdCounter.constructor | src/node/node-defs/base-node.ts:13 | The counter starts at 0. |
| BaseNode.MakeSockets | src/node/node-defs/math/scalar-bin-op-node.ts:30-36 | Builds one fresh, distinct socket per layout entry, in order, with its caption, type, role and literal, unconnected and without an id. |
| BaseNode.NumberSockets | src/node/node-defs/base-node.ts:30-41 | One loop of `setSocketsId`: socket k gets the id of counter value start + k; connections and literals are unchanged. |
| BaseNode.Node.constructor | src/node/node-defs/base-node.ts:24-28 | The node takes the id built from the counter and advances the counter by one. It records its variant's layout; its sockets follow that layout, are fresh and unconnected, and hold the default literals. Its socket ids are set and its invariant holds. |
| BaseNode.Node.SetSocketsId | src/node/node-defs/base-node.ts:30-41 | Input k gets `<uId>-i-<k>` and output j gets `<uId>-o-<inputs+j>`; connections and literals are unchanged. |
| BaseNode.Node.Parameters | src/node/node-defs/base-node.ts:19 | The parameter list, or empty when the variant defines none. |
| BaseNode.Node.Operation | src/node/node-defs/math/scalar-bin-op-node.ts:65-66 | The operation every operation node's `code()` reads is the value of its first parameter. |
| BaseNode.Node.OutputIds | src/node/node-defs/base-node.ts:37-40 | The ids `setSocketsId` gives the output sockets. |
| BaseNode.Node.Label | src/node/node-defs/base-node.ts:15 | A node shows the name its kind's table gives its current operation, and its base label otherwise; a node without parameters always shows its base label. |
| BaseNode.Node.Code | src/node/node-defs/base-node.ts:43 | A valid node's generated code (output node excepted) starts by declaring the variable named after its first output socket's id, with that socket's type. |
| BaseNode.SocketIdsUniqueAcrossNodes | src/node/node-defs/base-node.ts:24-41 | In two valid counter-built nodes, sockets share an id only when the nodes come from the same counter value and the sockets sit at the same position. |
| BaseNode.PositionId | src/node/node-defs/base-node.ts:30-41 | The socket at position i of a node, inputs then outputs, carries the id of index i, with the input tag exactly for the inputs. |
| BaseNode.OwnerOfSocket | src/node/node-engine.ts:79 | For a valid node, each output socket's id parses back to the node's id, and no input socket's id parses. |
| NodeEngine.IndexOf | src/node/node-engine.ts:48 | The position of the first occurrence, or -1 exactly when the element is absent. |
| NodeEngine.SpliceOne | src/node/node-engine.ts:50 | Removes the element at the splice start; a negative start counts from the end. |
| NodeEngine.MoveToFrontPresent | src/node/node-engine.ts:46-53 | Moving a present node keeps the same nodes, puts it last and keeps the others in order. |
| NodeEngine.MoveToFrontAbsent | src/node/node-engine.ts:46-53 | Moving an absent node drops the array's last entry before appending the node. |
| NodeEngine.Scrubbed | src/node/node-engine.ts:105-106 | A connection is cleared exactly when its producer id, up to `-o-`, is the deleted id; otherwise it is kept. |
| NodeEngine.ScrubMatchesOwner | src/node/node-engine.ts:103-108 | Deleting a node clears connections from its own output sockets and keeps those from any other node's. |
| NodeEngine.SeenDuringScan | src/node/node-engine.ts:103-108 | A connection already scrubbed is handled by the scan as the original would be. |
| NodeEngine.ScrubInputs | src/node/node-engine.ts:104-107 | Scans one node's inputs. It stops exactly when some connection's producer id has no marker; otherwise each input is scrubbed. |
| NodeEngine.ScrubAll | src/node/node-engine.ts:103-108 | Scans every node. It stops exactly when some connection's producer id has no marker; otherwise every input socket is scrubbed. Every socket is always either as before or scrubbed. |
| NodeEngine.Engine.constructor | src/node/node-engine.ts:29-36 | A fresh output node is the only node in the map and in the array; no listener is set. |
| NodeEngine.Engine.Nodes | src/node/node-engine.ts:14-16 | The nodes in drawing order. |
| NodeEngine.Engine.Compile | src/node/node-engine.ts:115-119 | With a listener, it is called once with the node map, the output node's id and the uniforms; without one nothing happens. |
| NodeEngine.Engine.SetListener | src/node/node-engine.ts:20-23 | The listener is set and called once. |
| NodeEngine.Engine.SetUniforms | src/node/node-engine.ts:25-27 | The uniforms are replaced without a compile. |
| NodeEngine.Engine.MoveNodeToFront | src/node/node-engine.ts:46-53 | The array loses the entry at `idx` (by default the node's own position) and gains the node at the end; nothing else changes. |
| NodeEngine.Engine.CreateNode | src/node/node-engine.ts:94-97 | The node is filed under its id and appended to the array. There is no compile, and the engine invariant is kept. |
| NodeEngine.Engine.Producer | src/node/node-engine.ts:79-80 | The node the trial starts from is a node in the map, and the one whose id the producer socket's id names before its `-o-` marker. |
| NodeEngine.Engine.TrialStartsAtOwner | src/node/node-engine.ts:79-81 | For an output socket of a node in the map, the trial starts from that very node and passes exactly when the traversal from it does. |
| NodeEngine.Engine.CreateConnection | src/node/node-engine.ts:56-87 | Two sockets of the same role are refused and nothing changes. Otherwise the input socket is connected to the output socket's id and type, and the trial traversal and compile run. If the trial fails or the listener throws, the input is left unconnected. |
| NodeEngine.Engine.ScanNodes | src/node/node-engine.ts:103-108 | The scan over all the engine's input sockets, stated in terms of their connections before the scan. |
| NodeEngine.Engine.DeleteNode | src/node/node-engine.ts:99-113 | The output node's id gives `false` and nothing changes. A producer id without a marker gives a TypeError; the map and the array are then untouched and each socket is as before or scrubbed. Otherwise every connection from the node is cleared and the rest kept, the node leaves the map and the array (with the order kept), one compile happens, and the result is `true`. |
| NodeEngine.Engine.RemoveConnection | src/node/node-engine.ts:89-92 | The socket is unconnected and one compile happens. |

## Left out

- **The shader compiler** (`compileShader`, `transverseNodes`) is not part of this model:
  - the traversal's outcome is a parameter of `CreateConnection`;
  - the compile listener's calls are recorded as `CompileCall` entries, not as shader text.
- **Logging.** `console.error` in `createConnection` is I/O and is left out; the error is swallowed as in the source.
- **`getInstance`.** The engine is a singleton in the source; the model builds engines with the constructor and does not model the static instance.
- **Node positions** (`position`, the `Vector2` passed to every constructor) are layout data with no effect on compilation; they are left out.
- **Text formatting of literals** (`toFixed(2)`, `toString()`, `Vector2/3.toString(2)`, `ColorRGBA.toString()`) is left uninterpreted in the `Format` record, because floating-point printing is outside the model.
- **Number precision.** `NodeIds.NodeId` uses unbounded naturals for the id counter, while JavaScript numbers stop being exact above 2^53.
- **Regex line terminators.** `NodeIds.ProducerNodeId` treats every character alike, while `.` in the source's regular expression does not match line terminators. Socket ids never contain one.
- **Iteration order.** `NodeEngine.Engine.DeleteNode` does not fix the order in which the map's nodes are scanned. After a failed scan it states only that each socket is as before or scrubbed, because the source's result depends on the insertion order of the map.
- **Throws outside `createConnection`.** `NodeEngine.Engine.Compile` treats the listener as not throwing. A listener that throws is modelled only inside `createConnection`, where the source catches it.
- **Editing state not in this layer.** Writing a socket's literal or a parameter's value is done by the UI layer and is not modelled; the model reads both as the node's current state.
