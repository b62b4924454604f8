/** src/node/node-defs/base-node.ts: what every node shares — its id, drawn from a
    class-wide counter, the ids of its sockets, its parameters, and the dispatch to
    its variant's label and code. */
module BaseNode {
  import opened Wrappers
  import opened Sockets
  import opened Errors
  import opened Glsl
  import opened Operands
  import opened NodeTypes
  import opened NodeIds
  import opened NodeCodeHelpers
  import opened NodeCatalog

  /** `BaseNode.idCounter`: how many nodes have been built so far. */
  class IdCounter {
    var next: nat

    constructor ()
      ensures next == 0
    {
      next := 0;
    }
  }

  /** No socket object occurs twice. */
  ghost predicate Distinct(sockets: seq<Socket>)
  {
    forall i, j :: 0 <= i < j < |sockets| ==> sockets[i] != sockets[j]
  }

  /** Builds the socket objects a layout declares, in order, unconnected and without ids. */
  method MakeSockets(specs: seq<SocketSpec>, role: Role) returns (sockets: seq<Socket>)
    ensures |sockets| == |specs| && Distinct(sockets)
    ensures forall i :: 0 <= i < |specs| ==> fresh(sockets[i])
    ensures forall i :: 0 <= i < |specs| ==>
      && sockets[i].caption == specs[i].caption && sockets[i].sockType == specs[i].sockType
      && sockets[i].role == role && sockets[i].value == specs[i].value
      && sockets[i].uId == None && sockets[i].conection == None
  {
    sockets := [];
    var i := 0;
    while i < |specs|
      invariant i <= |specs| && |sockets| == i && Distinct(sockets)
      invariant forall k :: 0 <= k < i ==> fresh(sockets[k])
      invariant forall k :: 0 <= k < i ==>
        && sockets[k].caption == specs[k].caption && sockets[k].sockType == specs[k].sockType
        && sockets[k].role == role && sockets[k].value == specs[k].value
        && sockets[k].uId == None && sockets[k].conection == None
    {
      var s := new Socket(specs[i].caption, specs[i].sockType, role, specs[i].value);
      sockets := sockets + [s];
      i := i + 1;
    }
  }

  lemma DistinctParts(a: seq<Socket>, b: seq<Socket>)
    requires Distinct(a + b)
    ensures Distinct(a) && Distinct(b)
    ensures forall i, j :: 0 <= i < |a| && 0 <= j < |b| ==> a[i] != b[j]
  {
    var ab := a + b;
    forall i, j | 0 <= i < j < |a|
      ensures a[i] != a[j]
    {
      assert ab[i] == a[i] && ab[j] == a[j];
    }
    forall i, j | 0 <= i < j < |b|
      ensures b[i] != b[j]
    {
      assert ab[|a| + i] == b[i] && ab[|a| + j] == b[j];
    }
    forall i, j | 0 <= i < |a| && 0 <= j < |b|
      ensures a[i] != b[j]
    {
      assert ab[i] == a[i] && ab[|a| + j] == b[j];
    }
  }

  /** Pairwise distinct sequences with no object in common concatenate to a
      sequence without repeats. */
  lemma DistinctJoin(a: seq<Socket>, b: seq<Socket>)
    requires Distinct(a) && Distinct(b)
    requires forall i, j :: 0 <= i < |a| && 0 <= j < |b| ==> a[i] != b[j]
    ensures Distinct(a + b)
  {
    var ab := a + b;
    forall i, j | 0 <= i < j < |ab|
      ensures ab[i] != ab[j]
    {
      if j < |a| {
        assert ab[i] == a[i] && ab[j] == a[j];
      } else if i < |a| {
        assert ab[i] == a[i] && ab[j] == b[j - |a|];
      } else {
        assert ab[i] == b[i - |a|] && ab[j] == b[j - |a|];
      }
    }
  }

  /** One loop of `setSocketsId`: the counter runs on from `start`, and each socket
      gets `name` of the counter (the node's id, the role's tag and the padded
      counter); nothing else changes. */
  method NumberSockets(sockets: seq<Socket>, start: nat, name: nat -> string)
    requires Distinct(sockets)
    modifies sockets
    ensures forall k :: 0 <= k < |sockets| ==> sockets[k].uId == Some(name(start + k))
    ensures forall k :: 0 <= k < |sockets| ==>
      sockets[k].conection == old(sockets[k].conection) && sockets[k].value == old(sockets[k].value)
  {
    var id := start;
    var i := 0;
    while i < |sockets|
      invariant i <= |sockets| && id == start + i
      invariant forall k :: 0 <= k < i ==> sockets[k].uId == Some(name(start + k))
      invariant forall k :: 0 <= k < |sockets| ==>
        sockets[k].conection == old(sockets[k].conection) && sockets[k].value == old(sockets[k].value)
    {
      sockets[i].uId := Some(name(id));
      id := id + 1;
      i := i + 1;
    }
  }

  class Node {
    const kind: NodeKind
    const uId: string
    const shape: Shape     // what the constructor sets: `_type`, `_label`, the sockets' layout and `_parameters`
    const input: seq<Socket>
    const output: seq<Socket>
    var parameters: Option<seq<Parameter>>

    /** The sockets are those of the variant's layout, in order, each object once,
        and carry the ids `setSocketsId` gives them; a variant with an operation
        parameter has exactly one parameter. */
    ghost predicate Valid()
      reads this, input, output
    {
      && shape == ShapeOf(kind)
      && |input| == |shape.inputs| && |output| == |shape.outputs|
      && Distinct(input + output)
      && (forall k :: 0 <= k < |input| ==>
            input[k].uId == Some(SocketId(uId, Input, k)) && input[k].role == Input
            && input[k].sockType == shape.inputs[k].sockType)
      && (forall j :: 0 <= j < |output| ==>
            output[j].uId == Some(SocketId(uId, Output, |input| + j)) && output[j].role == Output
            && output[j].sockType == shape.outputs[j].sockType)
      && (shape.parameters.Some? ==> parameters.Some? && |parameters.value| == 1)
    }

    /** The variant's constructor: takes the next id from the counter, builds the
        layout's sockets, sets the parameters and numbers the sockets. */
    constructor (kind: NodeKind, counter: IdCounter)
      modifies counter
      ensures counter.next == old(counter.next) + 1
      ensures uId == NodeId(old(counter.next))
      ensures this.kind == kind && shape == ShapeOf(kind)
      ensures parameters == shape.parameters
      ensures Valid()
      ensures forall k :: 0 <= k < |input| ==> fresh(input[k]) && input[k].conection == None && input[k].value == shape.inputs[k].value
      ensures forall j :: 0 <= j < |output| ==> fresh(output[j]) && output[j].conection == None
    {
      var sh := ShapeOf(kind);
      this.kind := kind;
      shape := sh;
      uId := NodeId(counter.next);
      counter.next := counter.next + 1;
      var ins := MakeSockets(sh.inputs, Input);
      var outs := MakeSockets(sh.outputs, Output);
      assert forall i, j :: 0 <= i < |ins| && 0 <= j < |outs| ==> ins[i] != outs[j];
      DistinctJoin(ins, outs);
      input := ins;
      output := outs;
      parameters := sh.parameters;
      new;
      SetSocketsId();
    }

    /** `setSocketsId`: input `k` gets `<uId>-i-<k>` and output `j` gets
        `<uId>-o-<|input| + j>`, one counter running on from the inputs into the
        outputs, indices padded to four digits; nothing else changes. */
    method SetSocketsId()
      requires Distinct(input + output)
      modifies input, output
      ensures forall k :: 0 <= k < |input| ==> input[k].uId == Some(SocketId(uId, Input, k))
      ensures forall j :: 0 <= j < |output| ==> output[j].uId == Some(SocketId(uId, Output, |input| + j))
      ensures forall k :: 0 <= k < |input| ==> input[k].conection == old(input[k].conection) && input[k].value == old(input[k].value)
      ensures forall j :: 0 <= j < |output| ==> output[j].conection == old(output[j].conection) && output[j].value == old(output[j].value)
    {
      DistinctParts(input, output);
      NumberSockets(input, 0, (k: nat) => SocketId(uId, Input, k));
      NumberSockets(output, |input|, (k: nat) => SocketId(uId, Output, k));
    }

    /** `parameters`: the node's parameters, or none when it defines none. */
    function Parameters(): (r: seq<Parameter>)
      reads this
      ensures parameters.None? ==> r == []
      ensures parameters.Some? ==> r == parameters.value
    {
      if parameters.Some? then parameters.value else []
    }

    /** The current value of the operation parameter, the first of `parameters`
        ("" for variants without one, which never read it). */
    function Operation(): (r: string)
      reads this
      ensures |Parameters()| > 0 ==> r == Parameters()[0].value
      ensures Parameters() == [] ==> r == ""
    {
      if parameters.Some? && |parameters.value| > 0 then parameters.value[0].value else ""
    }

    function InputStates(): (r: seq<SocketState>)
      reads this, input
      ensures |r| == |input| && forall k :: 0 <= k < |input| ==> r[k] == input[k].State()
    {
      seq(|input|, k reads input requires 0 <= k < |input| => input[k].State())
    }

    /** The ids `setSocketsId` gives the output sockets. */
    function OutputIds(): (r: seq<string>)
      reads this
      ensures |r| == |output| && forall j :: 0 <= j < |output| ==> r[j] == SocketId(uId, Output, |input| + j)
    {
      seq(|output|, j requires 0 <= j < |output| => SocketId(uId, Output, |input| + j))
    }

    /** The `label` getter. */
    function Label(): (r: string)
      reads this
      ensures shape.parameters.None? ==> r == shape.caption
      ensures shape == ShapeOf(kind) && Operation() in OperationNames(kind) ==>
        r == OperationNames(kind)[Operation()]
      ensures shape == ShapeOf(kind) && Operation() !in OperationNames(kind) ==> r == shape.caption
      ensures shape == ShapeOf(kind) && shape.parameters.Some? ==>
        (r != shape.caption <==> Operation() in ValidOperations(kind))
    {
      if shape.parameters.None? then shape.caption else LabelOf(kind, Operation())
    }

    /** `code()`: the variant's statements over the node's current socket states.
        The first statement of every node but the output node declares the
        variable named after its first output socket's id, with that socket's type. */
    function Code(fmt: Format): (r: Result<string, Error>)
      reads this, input, output
      requires Valid()
      ensures kind != OutputSink ==> |output| >= 1
      ensures kind != OutputSink && r.Ok? ==>
        StartsWithDeclaration(r.value, TypeName(output[0].sockType), VariableName(output[0].uId.value))
    {
      var outs := OutputIds();
      var r := CodeOf(kind, InputStates(), outs, Operation(), fmt);
      assert kind != OutputSink ==> Some(outs[0]) == output[0].uId && output[0].sockType == shape.outputs[0].sockType;
      r
    }
  }

  /** Socket ids are unique across all nodes ever built: in two valid nodes made
      by the counter, the socket at position `i` of one (inputs, then outputs) and
      the socket at position `j` of the other carry the same id only when both
      nodes come from the same counter value and `i == j`. */
  lemma SocketIdsUniqueAcrossNodes(n1: Node, n2: Node, c1: nat, c2: nat)
    requires n1.Valid() && n2.Valid() && n1.uId == NodeId(c1) && n2.uId == NodeId(c2)
    ensures forall i, j ::
      (0 <= i < |n1.input + n1.output| && 0 <= j < |n2.input + n2.output|
       && (n1.input + n1.output)[i].uId == (n2.input + n2.output)[j].uId)
      ==> c1 == c2 && i == j
  {
    forall i, j | 0 <= i < |n1.input + n1.output| && 0 <= j < |n2.input + n2.output| &&
      (n1.input + n1.output)[i].uId == (n2.input + n2.output)[j].uId
      ensures c1 == c2 && i == j
    {
      var r1 := PositionId(n1, i);
      var r2 := PositionId(n2, j);
      SocketIdsUnique(c1, r1, i, c2, r2, j);
    }
  }

  /** The socket at position `i` of a valid node (inputs, then outputs) carries
      the id of index `i`: the counter of `setSocketsId` runs on from the inputs
      into the outputs. */
  lemma PositionId(n: Node, i: nat) returns (role: Role)
    requires n.Valid() && i < |n.input + n.output|
    ensures (n.input + n.output)[i].uId == Some(SocketId(n.uId, role, i))
    ensures role == Input <==> i < |n.input|
  {
    if i < |n.input| {
      role := Input;
    } else {
      role := Output;
      assert (n.input + n.output)[i] == n.output[i - |n.input|];
    }
  }

  /** Stripping the `-o-` suffix from any output socket id of a valid node gives the
      node's id, and no input socket id has such a suffix. */
  lemma OwnerOfSocket(n: Node, c: nat)
    requires n.Valid() && n.uId == NodeId(c)
    ensures forall j :: 0 <= j < |n.output| ==> ProducerNodeId(n.output[j].uId.value) == Some(n.uId)
    ensures forall k :: 0 <= k < |n.input| ==> ProducerNodeId(n.input[k].uId.value) == None
  {
    forall j | 0 <= j < |n.output|
      ensures ProducerNodeId(n.output[j].uId.value) == Some(n.uId)
    {
      ProducerOfOutputSocket(n.uId, |n.input| + j);
    }
    forall k | 0 <= k < |n.input|
      ensures ProducerNodeId(n.input[k].uId.value) == None
    {
      NoProducerInInputSocket(c, k);
    }
  }
}
