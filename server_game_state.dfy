/**
 * The server's game state (src/server/serverGameState.cc): it owns the
 * scene's nodes, registers itself with the event dispatcher, sends the scene
 * to a client that joins, and turns incoming payloads into object events.
 *
 * The dispatcher and the event queue are the program's globals; the model
 * gives the state references to them. The state's listener identity is
 * `self`. `server.GetClient` is modelled by the set of client ids the
 * server's client table resolves (the `Server` class is not part of this
 * model), and `client->Write` by the list of messages a call writes.
 */
module ServerGameStates {
  import opened Bytes
  import opened Wrappers
  import opened Events
  import opened EventQueues
  import opened EventDispatchers
  import opened WorldNodes
  import opened Entities
  import opened NodeCodec
  import opened DataIn
  import Serializable

  /** A node as SendScene sees it: which constructor built it, and its fields. */
  datatype NodeView = NodeView(kind: NodeKind, state: NodeState)

  function Views(ns: seq<WorldNode>): (vs: seq<NodeView>)
    reads ns
    ensures |vs| == |ns|
    ensures forall i | 0 <= i < |ns| :: vs[i] == NodeView(ns[i].kind, ns[i].State())
  {
    if ns == [] then [] else [NodeView(ns[0].kind, ns[0].State())] + Views(ns[1..])
  }

  /**
   * What follows the create header for one node, by the node's `type`
   * field: for WORLD_NODE_OBJECT_TYPE the serialization of an empty request
   * and then of the default fields; for ENTITY_OBJECT_TYPE the default
   * fields; for any other type nothing is sent.
   */
  function SceneData(v: NodeView, codec: StringCodec): Option<seq<Byte>>
  {
    if v.state.objectType == WORLD_NODE_OBJECT_TYPE then
      Some(Serialize(v.kind, v.state, [], codec) + SerializeDefaults(v.kind, v.state, codec))
    else if v.state.objectType == ENTITY_OBJECT_TYPE then
      Some(SerializeDefaults(v.kind, v.state, codec))
    else None
  }

  /** The header every scene message starts with: OBJECT_EVENT, OBJECT_CREATE, and always WORLD_NODE_OBJECT_TYPE. */
  function SceneHeader(): (h: seq<Byte>)
    ensures |h| == 4 && h[0] == OBJECT_EVENT && h[3] == WORLD_NODE_OBJECT_TYPE
  {
    [OBJECT_EVENT] + EncodeLE(OBJECT_CREATE, 2) + [WORLD_NODE_OBJECT_TYPE]
  }

  /** The message written for one node, if any. */
  function SceneMessage(v: NodeView, codec: StringCodec): Option<seq<Byte>>
  {
    match SceneData(v, codec)
    case None => None
    case Some(d) => Some(SceneHeader() + d)
  }

  /** The messages `f` yields for the nodes `vs`, in order, skipping the nodes it yields none for. */
  function Collect(f: NodeView -> Option<seq<Byte>>, vs: seq<NodeView>): (ms: seq<seq<Byte>>)
    ensures |ms| <= |vs|
  {
    if vs == [] then []
    else Collect(f, vs[..|vs| - 1]) + OptionToSeq(f(vs[|vs| - 1]))
  }

  /** The messages written for a scene: one per node that has one, in node order. */
  function SceneMessages(vs: seq<NodeView>, codec: StringCodec): (ms: seq<seq<Byte>>)
    ensures |ms| <= |vs|
  {
    Collect(v => SceneMessage(v, codec), vs)
  }

  /** When `f` yields a message for every node, there is one message per node, in order. */
  lemma {:induction false} CollectEvery(f: NodeView -> Option<seq<Byte>>, vs: seq<NodeView>)
    requires forall i | 0 <= i < |vs| :: f(vs[i]).Some?
    ensures |Collect(f, vs)| == |vs|
    ensures forall i | 0 <= i < |vs| :: Collect(f, vs)[i] == f(vs[i]).value
  {
    if vs != [] {
      var init := vs[..|vs| - 1];
      assert forall i | 0 <= i < |init| :: init[i] == vs[i];
      CollectEvery(f, init);
    }
  }

  /** Extending the nodes by one adds that node's message, if any. */
  lemma CollectSnoc(f: NodeView -> Option<seq<Byte>>, vs: seq<NodeView>, i: nat)
    requires i < |vs|
    ensures Collect(f, vs[..i + 1]) == Collect(f, vs[..i]) + OptionToSeq(f(vs[i]))
  {
    assert vs[..i + 1][..i] == vs[..i];
  }

  /** A node's scene message is the payload of a create event for a WORLD_NODE_OBJECT_TYPE object carrying its scene data. */
  lemma SceneMessageIsCreate(v: NodeView, codec: StringCodec)
    requires SceneData(v, codec).Some?
    ensures IsObjectEvent(CreateEvent(WORLD_NODE_OBJECT_TYPE, SceneData(v, codec).value))
    ensures SceneMessage(v, codec) == Some(EncodeObjectEvent(CreateEvent(WORLD_NODE_OBJECT_TYPE, SceneData(v, codec).value)))
  {
  }

  /**
   * A scene message read by the data-in decoder: when OBJECT_EVENT and
   * OBJECT_CREATE are valid codes and the data fits the copy buffer, it is
   * readable and yields the create event for a WORLD_NODE_OBJECT_TYPE
   * object whose data is the node's scene data, entities included.
   */
  lemma SceneMessageDecodes(v: NodeView, codec: StringCodec)
    requires SceneData(v, codec).Some? && |SceneData(v, codec).value| <= USHRT_MAX
    requires OBJECT_EVENT < EVENT_TYPE_COUNT && OBJECT_CREATE < EVENT_SUB_TYPE_COUNT
    ensures Readable(SceneMessage(v, codec).value)
    ensures DecodeDataIn(SceneMessage(v, codec).value) == Some(CreateEvent(WORLD_NODE_OBJECT_TYPE, SceneData(v, codec).value))
  {
    SceneMessageIsCreate(v, codec);
    DecodeEncodeEvent(CreateEvent(WORLD_NODE_OBJECT_TYPE, SceneData(v, codec).value));
  }

  /** A plain node's scene data is its default serialization written twice. */
  lemma PlainSceneDataRepeats(v: NodeView, codec: StringCodec)
    requires v.kind == WorldNodeKind && v.state.objectType == WORLD_NODE_OBJECT_TYPE
    ensures SceneData(v, codec) == Some(Serialize(WorldNodeKind, v.state, [], codec) + Serialize(WorldNodeKind, v.state, [], codec))
  {
  }

  /**
   * A plain node's scene data, unserialized into a plain node, copies the
   * sender's id, position, rotation and scale and reads every announced
   * field; the second copy of the serialization is not read.
   */
  lemma PlainSceneDataReadsBack(v: NodeView, t: NodeState, codec: StringCodec)
    requires v.kind == WorldNodeKind && v.state.objectType == WORLD_NODE_OBJECT_TYPE
    ensures UnserializeSpec(WorldNodeKind, t, SceneData(v, codec).value, codec)
      == Parsed(t.(id := v.state.id, position := v.state.position, rotation := v.state.rotation, scale := v.state.scale), true)
  {
    PlainNodeRoundTrip(t, v.state, SerializeDefaults(WorldNodeKind, v.state, codec), codec);
  }

  /** Extending the scene by one node adds that node's message, if any. */
  lemma SceneMessagesSnoc(vs: seq<NodeView>, i: nat, codec: StringCodec)
    requires i < |vs|
    ensures SceneMessages(vs[..i + 1], codec) == SceneMessages(vs[..i], codec) + OptionToSeq(SceneMessage(vs[i], codec))
  {
    CollectSnoc(v => SceneMessage(v, codec), vs, i);
  }

  /** When every node is a plain node or an entity by type, there is one message per node, in order. */
  lemma SceneMessagesOnePerNode(vs: seq<NodeView>, codec: StringCodec)
    requires forall i | 0 <= i < |vs| ::
      vs[i].state.objectType == WORLD_NODE_OBJECT_TYPE || vs[i].state.objectType == ENTITY_OBJECT_TYPE
    ensures |SceneMessages(vs, codec)| == |vs|
    ensures forall i | 0 <= i < |vs| :: SceneMessages(vs, codec)[i] == SceneMessage(vs[i], codec).value
  {
    var f := v => SceneMessage(v, codec);
    forall i | 0 <= i < |vs|
      ensures f(vs[i]).Some?
    {
      assert SceneData(vs[i], codec).Some?;
    }
    CollectEvery(f, vs);
  }

  /** A node whose type is neither WORLD_NODE_OBJECT_TYPE nor ENTITY_OBJECT_TYPE adds no message. */
  lemma OtherTypesSkipped(vs: seq<NodeView>, v: NodeView, codec: StringCodec)
    requires v.state.objectType != WORLD_NODE_OBJECT_TYPE && v.state.objectType != ENTITY_OBJECT_TYPE
    ensures SceneMessages(vs + [v], codec) == SceneMessages(vs, codec)
  {
    assert (vs + [v])[..|vs + [v]| - 1] == vs;
  }

  /**
   * The body of SendScene's loop for one node: the header, then the node's
   * serializations by its type; None where the source skips the node.
   */
  method WriteNode(v: NodeView, codec: StringCodec) returns (m: Option<seq<Byte>>)
    ensures m == SceneMessage(v, codec)
  {
    var stream := NewSceneStream();
    if v.state.objectType == WORLD_NODE_OBJECT_TYPE {
      var plain := Serialize(v.kind, v.state, [], codec);
      var defaults := SerializeDefaults(v.kind, v.state, codec);
      stream.bytes := stream.bytes + plain;
      stream.bytes := stream.bytes + defaults;
      AppendTwice(SceneHeader(), plain, defaults);
    } else if v.state.objectType == ENTITY_OBJECT_TYPE {
      stream.bytes := stream.bytes + SerializeDefaults(v.kind, v.state, codec);
    } else {
      return None;
    }
    m := Some(stream.bytes);
  }

  /** The loop of `SendScene`: the message of each node in turn, in order, skipping the nodes that have none. */
  method WriteScene(vs: seq<NodeView>, codec: StringCodec) returns (writes: seq<seq<Byte>>)
    ensures writes == SceneMessages(vs, codec)
  {
    writes := [];
    var i := 0;
    while i < |vs|
      invariant 0 <= i <= |vs|
      invariant writes == SceneMessages(vs[..i], codec)
    {
      var m := WriteNode(vs[i], codec);
      SceneMessagesSnoc(vs, i, codec);
      // A node the source skips with `continue` writes nothing.
      writes := writes + OptionToSeq(m);
      i := i + 1;
    }
    assert vs[..|vs|] == vs;
  }

  /** A new stream holding the event type, subtype and object type that start every scene message. */
  method NewSceneStream() returns (stream: Serializable.ByteStream)
    ensures fresh(stream) && stream.Valid() && stream.bytes == SceneHeader()
  {
    stream := new Serializable.ByteStream();
    Serializable.SerializeUint8(stream, OBJECT_EVENT);
    Serializable.SerializeUint16(stream, OBJECT_CREATE);
    Serializable.SerializeUint8(stream, WORLD_NODE_OBJECT_TYPE);
  }

  /** Writing two strings one after the other writes their concatenation. */
  lemma AppendTwice(h: seq<Byte>, a: seq<Byte>, b: seq<Byte>)
    ensures h + a + b == h + (a + b)
  {
  }

  /**
   * The nodes `Create` builds: a root node, then two entities, each drawing
   * the next id, parented to the root, with the source's colours, positions
   * and scales. The root lists the first entity as its child and the first
   * entity the second.
   */
  method NewSceneNodes(counter: IdCounter) returns (root: WorldNode, cube: WorldNode, cube2: WorldNode)
    modifies counter
    ensures fresh(root) && fresh(cube) && fresh(cube2)
    ensures root.kind == WorldNodeKind && cube.kind == EntityKind && cube2.kind == EntityKind
    ensures root.id == Inc(old(counter.value)) && cube.id == Inc(root.id) && cube2.id == Inc(cube.id)
    ensures counter.value == cube2.id
    ensures root.State() == NewWorldNodeState(root.id).(children := [cube.id])
    ensures cube.parent == root.id && cube2.parent == root.id
    ensures cube.children == [cube2.id] && cube2.children == []
    ensures cube.material == Color(FLOAT_ONE, FLOAT_ZERO, FLOAT_ZERO, FLOAT_ONE)
    ensures cube.position == Vec3(FLOAT_ONE, FLOAT_ZERO, FLOAT_ZERO)
    ensures cube.scale == Vec3(FLOAT_HALF, FLOAT_HALF, FLOAT_HALF)
    ensures cube2.material == Color(FLOAT_ZERO, FLOAT_ZERO, FLOAT_ONE, FLOAT_ONE)
    ensures cube2.position == Vec3(FLOAT_TWO, FLOAT_ZERO, FLOAT_ZERO)
    ensures cube2.scale == UNIT_SCALE
    ensures cube.rotation == IDENTITY_ROTATION && cube2.rotation == IDENTITY_ROTATION
    ensures cube.objectType == ENTITY_OBJECT_TYPE && cube2.objectType == ENTITY_OBJECT_TYPE
  {
    root := new WorldNode(counter);

    cube := new WorldNode.Entity(counter);
    cube.parent := root.id;
    cube.material := Color(FLOAT_ONE, FLOAT_ZERO, FLOAT_ZERO, FLOAT_ONE);
    cube.position := Vec3(FLOAT_ONE, FLOAT_ZERO, FLOAT_ZERO);
    cube.scale := Vec3(FLOAT_HALF, FLOAT_HALF, FLOAT_HALF);
    root.children := root.children + [cube.id];

    cube2 := new WorldNode.Entity(counter);
    cube2.parent := root.id;
    cube2.material := Color(FLOAT_ZERO, FLOAT_ZERO, FLOAT_ONE, FLOAT_ONE);
    cube2.position := Vec3(FLOAT_TWO, FLOAT_ZERO, FLOAT_ZERO);
    cube2.scale := Vec3(FLOAT_ONE, FLOAT_ONE, FLOAT_ONE);
    cube.children := cube.children + [cube2.id];
  }

  class ServerGameState {
    var entities: seq<WorldNode>
    var worldNodes: seq<WorldNode>
    /** The ids `server.GetClient` finds. */
    var clients: set<uint32>
    const dispatcher: EventDispatcher
    const queue: EventQueue
    const counter: IdCounter
    /** This state as a listener. */
    const self: ListenerId

    /** A state with no nodes. */
    constructor (d: EventDispatcher, q: EventQueue, c: IdCounter, id: ListenerId, knownClients: set<uint32>)
      ensures entities == [] && worldNodes == [] && clients == knownClients
      ensures dispatcher == d && queue == q && counter == c && self == id
    {
      entities := [];
      worldNodes := [];
      clients := knownClients;
      dispatcher := d;
      queue := q;
      counter := c;
      self := id;
    }

    /**
     * `Create`: the STATE and NETWORK collections are emptied, then the
     * state registers for STATE, OBJECT and NETWORK (OBJECT keeps its other
     * listeners). Three fresh nodes are appended to `worldNodes`: a root
     * node and two entities with consecutive ids, parented to the root, with
     * the source's colours, positions and scales; the entities are appended
     * to `entities`; the root lists the first entity as its child and the
     * first entity the second.
     */
    method Create()
      requires STATE_EVENT in dispatcher.listeners && NETWORK_EVENT in dispatcher.listeners
      requires OBJECT_EVENT in dispatcher.listeners
      modifies this, dispatcher, counter
      ensures dispatcher.listeners == old(dispatcher.listeners)[STATE_EVENT := [self]]
        [OBJECT_EVENT := old(dispatcher.listeners)[OBJECT_EVENT] + [self]][NETWORK_EVENT := [self]]
      ensures var n := |old(worldNodes)|;
        |worldNodes| == n + 3 && worldNodes[..n] == old(worldNodes)
        && entities == old(entities) + worldNodes[n + 1..]
        && fresh(worldNodes[n]) && fresh(worldNodes[n + 1]) && fresh(worldNodes[n + 2])
      ensures var n := |old(worldNodes)|;
        var root, cube, cube2 := worldNodes[n], worldNodes[n + 1], worldNodes[n + 2];
        root.kind == WorldNodeKind && cube.kind == EntityKind && cube2.kind == EntityKind
        && root.id == Inc(old(counter.value)) && cube.id == Inc(root.id) && cube2.id == Inc(cube.id)
        && counter.value == cube2.id
        && root.State() == NewWorldNodeState(root.id).(children := [cube.id])
        && cube.parent == root.id && cube2.parent == root.id
        && cube.children == [cube2.id] && cube2.children == []
        && cube.material == Color(FLOAT_ONE, FLOAT_ZERO, FLOAT_ZERO, FLOAT_ONE)
        && cube.position == Vec3(FLOAT_ONE, FLOAT_ZERO, FLOAT_ZERO)
        && cube.scale == Vec3(FLOAT_HALF, FLOAT_HALF, FLOAT_HALF)
        && cube2.material == Color(FLOAT_ZERO, FLOAT_ZERO, FLOAT_ONE, FLOAT_ONE)
        && cube2.position == Vec3(FLOAT_TWO, FLOAT_ZERO, FLOAT_ZERO)
        && cube2.scale == UNIT_SCALE
        && cube.rotation == IDENTITY_ROTATION && cube2.rotation == IDENTITY_ROTATION
        && cube.objectType == ENTITY_OBJECT_TYPE && cube2.objectType == ENTITY_OBJECT_TYPE
      ensures clients == old(clients)
    {
      Register();
      var rootNode, cubeEntity, cubeEntity2 := NewSceneNodes(counter);
      worldNodes := worldNodes + [rootNode, cubeEntity, cubeEntity2];
      entities := entities + [cubeEntity, cubeEntity2];
    }

    /**
     * The registration part of `Create`: STATE and NETWORK are emptied, then
     * the state is added to STATE, OBJECT and NETWORK.
     */
    method Register()
      requires STATE_EVENT in dispatcher.listeners && NETWORK_EVENT in dispatcher.listeners
      requires OBJECT_EVENT in dispatcher.listeners
      modifies dispatcher
      ensures dispatcher.listeners == old(dispatcher.listeners)[STATE_EVENT := [self]]
        [OBJECT_EVENT := old(dispatcher.listeners)[OBJECT_EVENT] + [self]][NETWORK_EVENT := [self]]
    {
      ghost var before: map<EventType, seq<ListenerId>> := dispatcher.listeners;
      dispatcher.ClearListeners(STATE_EVENT);
      dispatcher.ClearListeners(NETWORK_EVENT);
      dispatcher.AddEventListener(STATE_EVENT, self);
      assert [] + [self] == [self];
      dispatcher.AddEventListener(OBJECT_EVENT, self);
      dispatcher.AddEventListener(NETWORK_EVENT, self);
      assert dispatcher.listeners == before[STATE_EVENT := [self]][OBJECT_EVENT := before[OBJECT_EVENT] + [self]][NETWORK_EVENT := [self]];
    }

    /** `Destroy`: both node lists are emptied. */
    method Destroy()
      modifies this
      ensures entities == [] && worldNodes == [] && clients == old(clients)
    {
      entities := [];
      worldNodes := [];
    }

    /**
     * `SendScene`: nothing for a client the server does not know; otherwise
     * one message per node of `worldNodes`, in order, skipping nodes whose
     * type has no scene data.
     */
    method SendScene(clientId: uint32, codec: StringCodec) returns (writes: seq<seq<Byte>>)
      ensures clientId !in clients ==> writes == []
      ensures clientId in clients ==> writes == SceneMessages(Views(worldNodes), codec)
    {
      writes := [];
      if clientId !in clients {
        return;
      }
      writes := WriteScene(Views(worldNodes), codec);
    }

    /** `HandleDataInEvent`: the decoded event, if any, is queued. */
    method HandleDataInEvent(e: Event)
      requires Readable(e.data)
      modifies queue
      ensures queue.events == old(queue.events) + OptionToSeq(DecodeDataIn(e.data))
    {
      var decoded := ReadDataIn(e.data);
      if decoded.Some? {
        queue.AddEvent(decoded.value);
      }
    }

    /**
     * `HandleEvent`: a NETWORK join sends the scene to the joining client;
     * NETWORK data-in is decoded and queued; part, ping and pong are only
     * logged, and so is every other event.
     */
    method HandleEvent(e: Event, codec: StringCodec) returns (writes: seq<seq<Byte>>)
      requires e.eventType == NETWORK_EVENT && e.subType == NETWORK_DATA_IN ==> Readable(e.data)
      modifies queue
      ensures e.eventType == NETWORK_EVENT && e.subType == NETWORK_JOIN ==>
        queue.events == old(queue.events)
        && writes == if e.clientId in clients then SceneMessages(Views(worldNodes), codec) else []
      ensures e.eventType == NETWORK_EVENT && e.subType == NETWORK_DATA_IN ==>
        writes == [] && queue.events == old(queue.events) + OptionToSeq(DecodeDataIn(e.data))
      ensures !(e.eventType == NETWORK_EVENT && (e.subType == NETWORK_JOIN || e.subType == NETWORK_DATA_IN)) ==>
        writes == [] && queue.events == old(queue.events)
    {
      writes := [];
      if e.eventType == NETWORK_EVENT {
        if e.subType == NETWORK_JOIN {
          writes := SendScene(e.clientId, codec);
        } else if e.subType == NETWORK_DATA_IN {
          HandleDataInEvent(e);
        }
      }
    }
  }
}
