/** src/node/node-engine.ts: the graph editor. It owns the nodes (by id and in
    draw order), the protected output node, and the connections between sockets,
    and asks for a recompile after each change to the graph. */
module NodeEngine {
  import opened Wrappers
  import opened Sockets
  import opened Errors
  import opened NodeIds
  import opened NodeCatalog
  import opened BaseNode
  import Seqs

  /** `Array.prototype.indexOf`: the first position of `x`, or -1. */
  function IndexOf<T(==)>(s: seq<T>, x: T): (r: int)
    ensures r == -1 <==> x !in s
    ensures r != -1 ==> 0 <= r < |s| && s[r] == x && x !in s[..r]
  {
    if |s| == 0 then -1
    else if s[0] == x then 0
    else
      var i := IndexOf(s[1..], x);
      assert forall k :: 0 <= k < |s| - 1 ==> s[1..][k] == s[k + 1];
      if i == -1 then -1
      else
        assert s[..i + 1] == [s[0]] + s[1..][..i];
        i + 1
  }

  /** The position `Array.prototype.splice(start, 1)` removes at: a negative start
      counts from the end. */
  function SpliceStart(n: nat, start: int): (a: nat)
    ensures a <= n
  {
    if start < 0 then (if n + start < 0 then 0 else n + start)
    else if start > n then n else start
  }

  /** `s.splice(start, 1)`: the sequence without the element at that position, if any. */
  function SpliceOne<T>(s: seq<T>, start: int): (r: seq<T>)
    ensures var a := SpliceStart(|s|, start);
      if a < |s| then r == s[..a] + s[a + 1..] else r == s
  {
    var a := SpliceStart(|s|, start);
    if a < |s| then s[..a] + s[a + 1..] else s
  }

  /** Moving a node that is in the array to the end keeps the same nodes, puts it
      last and keeps every other node in its order. */
  lemma MoveToFrontPresent<T>(s: seq<T>, x: T)
    requires x in s
    ensures var i, r := IndexOf(s, x), SpliceOne(s, IndexOf(s, x)) + [x];
      && multiset(r) == multiset(s)
      && r[|r| - 1] == x
      && r[..|r| - 1] == s[..i] + s[i + 1..]
  {
    MoveToEnd(s, IndexOf(s, x));
  }

  /** Splicing out position `i` and appending its element. */
  lemma MoveToEnd<T>(s: seq<T>, i: nat)
    requires i < |s|
    ensures var r := SpliceOne(s, i) + [s[i]];
      && multiset(r) == multiset(s)
      && r[|r| - 1] == s[i]
      && r[..|r| - 1] == s[..i] + s[i + 1..]
  {
    var rest := s[..i] + s[i + 1..];
    assert SpliceOne(s, i) == rest by {
      assert SpliceStart(|s|, i) == i;
    }
    RemoveAtMultiset(s, i);
    var r := rest + [s[i]];
    assert r[..|r| - 1] == rest;
  }

  /** Taking out the element at `i` and appending it keeps the same elements. */
  lemma RemoveAtMultiset<T>(s: seq<T>, i: nat)
    requires i < |s|
    ensures multiset(s[..i] + s[i + 1..] + [s[i]]) == multiset(s)
  {
    assert s == s[..i] + [s[i]] + s[i + 1..];
  }

  /** Moving a node that is not in the array: `indexOf` gives -1 and
      `splice(-1, 1)` removes the last node instead, before the node is appended. */
  lemma MoveToFrontAbsent<T>(s: seq<T>, x: T)
    requires x !in s && |s| > 0
    ensures SpliceOne(s, IndexOf(s, x)) + [x] == s[..|s| - 1] + [x]
  {
  }

  /** What `deleteNode(id)` leaves in a connection: nothing when the producer
      socket's id, up to its `-o-` marker, is `id`; the connection otherwise. */
  function Scrubbed(c: Option<Connection>, id: string): (r: Option<Connection>)
    ensures r == None || r == c
    ensures r != c <==> c.Some? && ProducerNodeId(c.value.producerId) == Some(id)
  {
    if c.Some? && ProducerNodeId(c.value.producerId) == Some(id) then None else c
  }

  /** A connection whose producer id has no `-o-` marker: `deleteNode` throws on it. */
  predicate Unparsable(c: Option<Connection>)
  {
    c.Some? && ProducerNodeId(c.value.producerId).None?
  }

  /** Deleting a node scrubs exactly the connections drawn from its output sockets:
      a connection from another node's output socket survives. */
  lemma ScrubMatchesOwner(c1: nat, c2: nat, k: nat, t: SocketType)
    ensures Scrubbed(Some(Connection(SocketId(NodeId(c1), Output, k), t)), NodeId(c1)) == None
    ensures c1 != c2 ==>
      var c := Some(Connection(SocketId(NodeId(c2), Output, k), t));
      Scrubbed(c, NodeId(c1)) == c
  {
    ProducerOfOutputSocket(NodeId(c1), k);
    ProducerOfOutputSocket(NodeId(c2), k);
    if c1 != c2 {
      NodeIdsDistinct(c1, c2);
    }
  }

  /** The input sockets of a set of nodes. */
  function InputsOf(ns: set<Node>): set<Socket>
  {
    set n, s | n in ns && s in n.input :: s
  }

  /** Each socket holds its connection from before the scan or that one scrubbed of `id`. */
  ghost predicate OldOrScrubbed(before: map<Socket, Option<Connection>>, id: string)
    reads before.Keys
  {
    forall s :: s in before ==> s.conection == before[s] || s.conection == Scrubbed(before[s], id)
  }

  /** The scan has scrubbed these sockets and found each parsable. */
  ghost predicate AllScrubbed(sockets: set<Socket>, before: map<Socket, Option<Connection>>, id: string)
    reads sockets
  {
    forall s :: s in sockets ==> s in before && s.conection == Scrubbed(before[s], id) && !Unparsable(before[s])
  }

  /** The sockets' ids and literals are as recorded. */
  ghost predicate Fixed(fixed: map<Socket, (Option<string>, Option<Literal>)>)
    reads fixed.Keys
  {
    forall s :: s in fixed ==> (s.uId, s.value) == fixed[s]
  }

  /** A connection seen during the scan is the original or its scrubbed form; what
      the scan does with it matches what it would do with the original. */
  lemma SeenDuringScan(c: Option<Connection>, original: Option<Connection>, id: string)
    requires c == original || c == Scrubbed(original, id)
    ensures Unparsable(c) ==> Unparsable(original)
    ensures c.Some? && ProducerNodeId(c.value.producerId) == Some(id) ==> Scrubbed(original, id) == None
    ensures !(c.Some? && ProducerNodeId(c.value.producerId) == Some(id)) ==> c == Scrubbed(original, id) || c == original
  {
  }

  /** The inner loop of `deleteNode` over one node's inputs: scrubs each connection
      drawn from node `id`, and stops with `false` at the first connection whose
      producer id has no `-o-` marker. `before` holds the connections as they were
      when the whole scan began. */
  method ScrubInputs(n: Node, id: string, ghost before: map<Socket, Option<Connection>>,
                     ghost fixed: map<Socket, (Option<string>, Option<Literal>)>, ghost done: set<Socket>)
      returns (ok: bool)
    requires forall s :: s in n.input ==> s in before
    requires OldOrScrubbed(before, id) && Fixed(fixed) && AllScrubbed(done, before, id)
    modifies n.input
    ensures OldOrScrubbed(before, id) && Fixed(fixed) && AllScrubbed(done, before, id)
    ensures ok <==> forall s :: s in n.input ==> !Unparsable(before[s])
    ensures ok ==> AllScrubbed(InputsOf({n}), before, id)
  {
    var i := 0;
    while i < |n.input|
      invariant i <= |n.input|
      invariant OldOrScrubbed(before, id) && Fixed(fixed) && AllScrubbed(done, before, id)
      invariant forall k :: 0 <= k < i ==> n.input[k].conection == Scrubbed(before[n.input[k]], id) && !Unparsable(before[n.input[k]])
    {
      var s := n.input[i];
      SeenDuringScan(s.conection, before[s], id);
      if s.conection.Some? {
        var owner := ProducerNodeId(s.conection.value.producerId);
        if owner.None? {
          return false;
        }
        if owner.value == id {
          s.conection := None;
        }
      }
      i := i + 1;
    }
    assert forall s :: s in InputsOf({n}) ==> s in n.input;
    return true;
  }

  /** The outer loop of `deleteNode` over a set of nodes, in an order the model
      leaves open. */
  method ScrubAll(ns: set<Node>, id: string, ghost before: map<Socket, Option<Connection>>,
                  ghost fixed: map<Socket, (Option<string>, Option<Literal>)>)
      returns (ok: bool)
    requires InputsOf(ns) <= before.Keys
    requires OldOrScrubbed(before, id) && Fixed(fixed)
    modifies InputsOf(ns)
    ensures OldOrScrubbed(before, id) && Fixed(fixed)
    ensures ok <==> forall s :: s in InputsOf(ns) ==> !Unparsable(before[s])
    ensures ok ==> AllScrubbed(InputsOf(ns), before, id)
  {
    var remaining := ns;
    while remaining != {}
      modifies InputsOf(ns)
      invariant remaining <= ns
      invariant OldOrScrubbed(before, id) && Fixed(fixed)
      invariant AllScrubbed(InputsOf(ns - remaining), before, id)
      decreases remaining
    {
      var n :| n in remaining;
      ghost var done := ns - remaining;
      assert forall s :: s in n.input ==> s in InputsOf(ns) by {
        forall s | s in n.input ensures s in InputsOf(ns) {
          assert n in ns;
        }
      }
      ok := ScrubInputs(n, id, before, fixed, InputsOf(done));
      if !ok {
        return;
      }
      remaining := remaining - {n};
      assert InputsOf(ns - remaining) == InputsOf(done) + InputsOf({n});
    }
    assert ns - remaining == ns;
    return true;
  }

  /** One call of the compile listener, with the arguments `compileShader` gets. */
  datatype CompileCall = CompileCall(nodes: map<string, Node>, sinkId: string, uniforms: seq<string>)

  class Engine {
    var nodes: map<string, Node>   // `_nodes`
    var nodeArray: seq<Node>       // `_nodeArray`, in drawing order
    const outputNode: Node
    var listening: bool            // whether `onCompileListener` is set
    var uniforms: seq<string>
    var compiled: seq<CompileCall> // the listener's calls so far, in order

    /** Every node is filed under its own id, and the output node is present. */
    ghost predicate Valid()
      reads this
    {
      && (forall k :: k in nodes ==> nodes[k].uId == k)
      && outputNode.uId in nodes
    }

    /** The input sockets of every node in the map: what `deleteNode` may write. */
    function InputSockets(): set<Socket>
      reads this
    {
      set n, s | n in nodes.Values && s in n.input :: s
    }

    /** The private constructor: a fresh output node is the only node, in the map
        and in the array; no listener is set yet. */
    constructor (counter: IdCounter)
      modifies counter
      ensures Valid()
      ensures fresh(outputNode) && outputNode.kind == OutputSink && outputNode.uId == NodeId(old(counter.next))
      ensures nodes == map[outputNode.uId := outputNode] && nodeArray == [outputNode]
      ensures !listening && uniforms == [] && compiled == []
      ensures counter.next == old(counter.next) + 1
    {
      var sink := new Node(OutputSink, counter);
      outputNode := sink;
      nodes := map[sink.uId := sink];
      nodeArray := [sink];
      listening := false;
      uniforms := [];
      compiled := [];
    }

    /** The `nodes` getter: the nodes in drawing order, as a value of its own, so
        later changes to the engine's array do not reach it. */
    function Nodes(): (r: seq<Node>)
      reads this
      ensures r == nodeArray
    {
      nodeArray
    }

    /** `compile()`: when a listener is set, it is called once with the shader
        compiled from the node map, the output node's id and the uniforms. */
    method Compile()
      modifies this
      ensures compiled == old(compiled) + if listening then [CompileCall(nodes, outputNode.uId, uniforms)] else []
      ensures nodes == old(nodes) && nodeArray == old(nodeArray) && listening == old(listening) && uniforms == old(uniforms)
    {
      if listening {
        compiled := compiled + [CompileCall(nodes, outputNode.uId, uniforms)];
      }
    }

    /** `setListener`: installs the listener and compiles once. */
    method SetListener()
      modifies this
      ensures listening
      ensures compiled == old(compiled) + [CompileCall(nodes, outputNode.uId, uniforms)]
      ensures nodes == old(nodes) && nodeArray == old(nodeArray) && uniforms == old(uniforms)
    {
      listening := true;
      Compile();
    }

    /** `setUniforms`: replaces the uniform list, without compiling. */
    method SetUniforms(u: seq<string>)
      modifies this
      ensures uniforms == u
      ensures nodes == old(nodes) && nodeArray == old(nodeArray) && listening == old(listening) && compiled == old(compiled)
    {
      uniforms := u;
    }

    /** `moveNodeToFront(node, idx)`: removes the entry at `idx` (by default the
        node's own position) and appends the node, so it is drawn last. */
    method MoveNodeToFront(node: Node, idx: Option<int>)
      modifies this
      ensures nodeArray == SpliceOne(old(nodeArray), if idx.Some? then idx.value else IndexOf(old(nodeArray), node)) + [node]
      ensures nodes == old(nodes) && listening == old(listening) && uniforms == old(uniforms) && compiled == old(compiled)
    {
      var i := if idx.Some? then idx.value else IndexOf(nodeArray, node);
      nodeArray := SpliceOne(nodeArray, i);
      nodeArray := nodeArray + [node];
    }

    /** `createNode`: files the node under its id and appends it to the array;
        it does not compile. */
    method CreateNode(node: Node)
      requires Valid()
      modifies this
      ensures Valid()
      ensures nodes == old(nodes)[node.uId := node] && nodeArray == old(nodeArray) + [node]
      ensures listening == old(listening) && uniforms == old(uniforms) && compiled == old(compiled)
    {
      nodes := nodes[node.uId := node];
      nodeArray := nodeArray + [node];
    }

    /** The node `transverseNodes` starts from: the one filed under the producer
        socket's id up to its `-o-` marker. */
    function Producer(output: Socket): (r: Option<Node>)
      reads this, output
      ensures Valid() && r.Some? ==>
        r.value in nodes.Values && output.uId.Some? && ProducerNodeId(output.uId.value) == Some(r.value.uId)
    {
      if output.uId.None? then None
      else
        var id := ProducerNodeId(output.uId.value);
        if id.Some? && id.value in nodes then Some(nodes[id.value]) else None
    }

    /** Whether the trial run after setting a connection gets through: the producer
        socket has an id with a `-o-` marker and the traversal from its node succeeds. */
    predicate TrialPasses(output: Socket, traverse: Option<Node> -> bool)
      reads this, output
    {
      output.uId.Some? && ProducerNodeId(output.uId.value).Some? && traverse(Producer(output))
    }

    /** For an output socket of a valid node in the map, the trial starts from that
        very node, and passes exactly when the traversal from it does. */
    lemma TrialStartsAtOwner(n: Node, j: nat, traverse: Option<Node> -> bool)
      requires Valid() && n in nodes.Values && n.Valid() && j < |n.output|
      ensures Producer(n.output[j]) == Some(n)
      ensures TrialPasses(n.output[j], traverse) <==> traverse(Some(n))
    {
      ProducerOfOutputSocket(n.uId, |n.input| + j);
    }

    /** `createConnection(socket1, socket2)`. Two sockets of the same role are
        refused before anything changes. Otherwise, whichever socket is the input
        is connected to the other one; the traversal is tried from the producer's
        node and the graph recompiled. If anything in that trial throws — a
        producer id without `-o-`, a failing traversal, a throwing listener — the
        input ends up unconnected and the error is swallowed. `traverse` stands for
        `transverseNodes`; `listenerThrows` for a listener that throws. */
    method CreateConnection(socket1: Socket, socket2: Socket, traverse: Option<Node> -> bool, listenerThrows: bool)
      returns (r: Result<(), Error>)
      modifies this, socket1, socket2
      ensures socket1.role == socket2.role ==> r == Err(SameRole)
      ensures socket1.role == socket2.role ==>
        socket1.conection == old(socket1.conection) && socket2.conection == old(socket2.conection) && compiled == old(compiled)
      ensures socket1.role != socket2.role ==>
        var input, output := if socket1.role == Input then socket1 else socket2, if socket1.role == Input then socket2 else socket1;
        var passes := old(TrialPasses(output, traverse));
        && r.Ok?
        && input.conection == (if passes && !(listening && listenerThrows) then Some(Connection(old(output.uId.value), output.sockType)) else None)
        && output.conection == old(output.conection)
        && compiled == old(compiled) + if passes && listening then [CompileCall(nodes, outputNode.uId, uniforms)] else []
      ensures nodes == old(nodes) && nodeArray == old(nodeArray) && listening == old(listening) && uniforms == old(uniforms)
      ensures socket1.uId == old(socket1.uId) && socket2.uId == old(socket2.uId)
      ensures socket1.value == old(socket1.value) && socket2.value == old(socket2.value)
    {
      if socket1.role == socket2.role {
        return Err(SameRole);
      }
      var input, output := socket1, socket2;
      if socket1.role != Input {
        input, output := socket2, socket1;
      }
      var passes := TrialPasses(output, traverse);
      if output.uId.None? {
        // `[undefined, type]` is stored, and matching on `undefined` throws
        input.conection := None;
        return Ok(());
      }
      input.conection := Some(Connection(output.uId.value, output.sockType));
      if !passes {
        input.conection := None;
        return Ok(());
      }
      Compile();
      if listening && listenerThrows {
        input.conection := None;
      }
      return Ok(());
    }

    /** The scan at the start of `deleteNode(id)` over every node in the map and
        each of its inputs (see `ScrubInputs`). It stops with `false` when some
        connection's producer id has no `-o-` marker. */
    method ScanNodes(id: string) returns (ok: bool)
      modifies InputSockets()
      ensures ok <==> forall s :: s in old(InputSockets()) ==> !old(Unparsable(s.conection))
      ensures ok ==> forall s :: s in old(InputSockets()) ==> s.conection == Scrubbed(old(s.conection), id)
      ensures forall s :: s in old(InputSockets()) ==> s.conection == old(s.conection) || s.conection == Scrubbed(old(s.conection), id)
      ensures forall s :: s in old(InputSockets()) ==> s.uId == old(s.uId) && s.value == old(s.value)
    {
      ghost var socks := InputSockets();
      ghost var before: map<Socket, Option<Connection>> := map s: Socket | s in socks :: s.conection;
      ghost var fixed: map<Socket, (Option<string>, Option<Literal>)> := map s: Socket | s in socks :: (s.uId, s.value);
      ok := ScrubAll(nodes.Values, id, before, fixed);
    }

    /** `deleteNode(id)`. The output node is refused: `false`, nothing changes.
        Otherwise every input socket of every node loses its connection if the
        producer socket's id, up to its `-o-` marker, is `id`; the node leaves the
        map and the array (the other entries keep their order); the graph is
        recompiled and the answer is `true`. A connection whose producer id has no
        `-o-` marker makes the scan throw: the map and the array are then untouched
        and each socket is as it was or already scrubbed, depending on how far the
        scan (whose order the map decides) had got. */
    method DeleteNode(id: string) returns (r: Result<bool, Error>)
      requires Valid()
      modifies this, InputSockets()
      ensures Valid()
      ensures id == outputNode.uId ==>
        && r == Ok(false) && nodes == old(nodes) && nodeArray == old(nodeArray) && compiled == old(compiled)
        && forall s :: s in old(InputSockets()) ==> s.conection == old(s.conection)
      ensures id != outputNode.uId ==> (r.Err? <==> exists s :: s in old(InputSockets()) && old(Unparsable(s.conection)))
      ensures r.Err? ==>
        && r.error.TypeError? && nodes == old(nodes) && nodeArray == old(nodeArray) && compiled == old(compiled)
        && forall s :: s in old(InputSockets()) ==> s.conection == old(s.conection) || s.conection == Scrubbed(old(s.conection), id)
      ensures r == Ok(true) ==>
        && (forall s :: s in old(InputSockets()) ==> s.conection == Scrubbed(old(s.conection), id))
        && nodes == old(nodes) - {id}
        && nodeArray == Seqs.Filter(old(nodeArray), (n: Node) => n.uId != id)
        && compiled == old(compiled) + if listening then [CompileCall(nodes, outputNode.uId, uniforms)] else []
      ensures forall s :: s in old(InputSockets()) ==> s.uId == old(s.uId) && s.value == old(s.value)
      ensures listening == old(listening) && uniforms == old(uniforms)
    {
      if id == outputNode.uId {
        return Ok(false);
      }
      var ok := ScanNodes(id);
      if !ok {
        return Err(TypeError("match(...) is null"));
      }
      nodes := nodes - {id};
      nodeArray := Seqs.Filter(nodeArray, (n: Node) => n.uId != id);
      Compile();
      return Ok(true);
    }

    /** `removeConnection(socket)`: the socket is unconnected, then the graph recompiled. */
    method RemoveConnection(socket: Socket)
      modifies this, socket
      ensures socket.conection == None && socket.uId == old(socket.uId) && socket.value == old(socket.value)
      ensures compiled == old(compiled) + if listening then [CompileCall(nodes, outputNode.uId, uniforms)] else []
      ensures nodes == old(nodes) && nodeArray == old(nodeArray) && listening == old(listening) && uniforms == old(uniforms)
    {
      socket.conection := None;
      Compile();
    }
  }
}
