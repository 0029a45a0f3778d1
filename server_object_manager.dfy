/**
 * The server's object manager (src/managers/serverObjectManager.cc): it
 * reacts to object events only. A create builds a new plain WorldNode and
 * unserializes the event's data into it; an update unserializes its data
 * into the node created last, whatever object id the event names. Destroy
 * and other subtypes only log.
 *
 * The last-created node is a function-local `static` in the source, so it
 * is shared by every manager; the model keeps it as a field. The node map
 * `worldObjects` is never touched by this code and is not modelled.
 */
module ServerObjectManagers {
  import opened Bytes
  import opened Events
  import opened WorldNodes
  import opened Entities
  import opened NodeCodec

  class ServerObjectManager {
    /** The `static WorldNode *newNode` of `HandleEvent`: null until the first create. */
    var lastCreated: WorldNode?
    /** The node id counter the new nodes draw from. */
    const counter: IdCounter

    constructor (idCounter: IdCounter)
      ensures lastCreated == null && counter == idCounter
    {
      lastCreated := null;
      counter := idCounter;
    }

    /**
     * `HandleEvent`. A create makes a fresh plain node, with the next id,
     * holding what `Unserialize` reads from the data into the new node's
     * state, and makes it the last-created node. An update applies its data
     * to the last-created node, if there is one. Every other event changes
     * nothing.
     */
    method HandleEvent(e: Event, codec: StringCodec)
      modifies this, counter, lastCreated
      ensures e.eventType == OBJECT_EVENT && e.subType == OBJECT_CREATE ==>
        lastCreated != null && fresh(lastCreated) && lastCreated.kind == WorldNodeKind
        && counter.value == Inc(old(counter.value))
        && lastCreated.State() == UnserializeSpec(WorldNodeKind, NewWorldNodeState(counter.value), e.data, codec).state
        && (old(lastCreated) != null ==> old(lastCreated).State() == old(lastCreated.State()))
      ensures e.eventType == OBJECT_EVENT && e.subType == OBJECT_UPDATE ==>
        lastCreated == old(lastCreated) && counter.value == old(counter.value)
        && (lastCreated != null ==>
              lastCreated.State() == UnserializeSpec(lastCreated.kind, old(lastCreated.State()), e.data, codec).state)
      ensures !(e.eventType == OBJECT_EVENT && (e.subType == OBJECT_CREATE || e.subType == OBJECT_UPDATE)) ==>
        lastCreated == old(lastCreated) && counter.value == old(counter.value)
        && (lastCreated != null ==> lastCreated.State() == old(lastCreated.State()))
    {
      if e.eventType != OBJECT_EVENT {
        return;
      }
      if e.subType == OBJECT_CREATE {
        var newNode := new WorldNode(counter);
        var _ := Unserialize(newNode, e.data, codec);
        lastCreated := newNode;
      } else if e.subType == OBJECT_UPDATE {
        if lastCreated != null {
          var _ := Unserialize(lastCreated, e.data, codec);
        }
      }
    }
  }

  /** The id of a state after a round trip of `fs`: the sender's if "id" is among them, else unchanged. */
  lemma {:induction false} CopyEachTracksId(cp: (NodeState, string) -> NodeState, t: NodeState, fs: seq<string>, v: uint32)
    requires forall u: NodeState, name: string {:trigger cp(u, name)} :: cp(u, name).id == (if name == "id" then v else u.id)
    ensures CopyEach(cp, t, fs).id == (if "id" in fs then v else t.id)
    decreases |fs|
  {
    if fs != [] {
      assert ("id" in fs) <==> (fs[0] == "id" || "id" in fs[1..]);
      CopyEachTracksId(cp, cp(t, fs[0]), fs[1..], v);
    }
  }

  /** Only the "id" name touches the id: any other recognised field keeps it. */
  lemma CopierTracksId(kind: NodeKind, src: NodeState)
    ensures forall u: NodeState, name: string {:trigger FieldCopier(kind, src)(u, name)} ::
      FieldCopier(kind, src)(u, name).id == (if name == "id" then src.id else u.id)
  {
    forall u: NodeState, name: string
      ensures FieldCopier(kind, src)(u, name).id == (if name == "id" then src.id else u.id)
    {
      FieldOfSound(kind, name);
      match FieldOf(kind, name)
      case None =>
        if name == "id" {
          FieldOfName(kind, BaseF(IdField));
        }
      case Some(f) =>
        if f != BaseF(IdField) {
          assert Copy(u, src, f).id == u.id;
        }
    }
  }

  /**
   * A created node takes the payload's id: when the create data is a plain
   * node's serialization of a request naming "id" (followed by anything),
   * the new node's id is the sender's, not the counter's; without "id" it
   * keeps the counter's value. The other requested fields are copied too,
   * and every announced field is read.
   */
  lemma CreatedNodeId(c: uint32, src: NodeState, vars: seq<string>, more: seq<Byte>, codec: StringCodec)
    requires Fits(WorldNodeKind, src, Requested(vars), codec)
    requires BlobCount(FieldEncoder(WorldNodeKind, src, codec), Requested(vars)) < 0x100
    ensures UnserializeSpec(WorldNodeKind, NewWorldNodeState(c), Serialize(WorldNodeKind, src, vars, codec) + more, codec)
      == Parsed(CopyAll(WorldNodeKind, NewWorldNodeState(c), src, Requested(vars)), true)
    ensures UnserializeSpec(WorldNodeKind, NewWorldNodeState(c), Serialize(WorldNodeKind, src, vars, codec) + more, codec).state.id
      == if "id" in Requested(vars) then src.id else c
  {
    SerializeUnserialize(WorldNodeKind, NewWorldNodeState(c), src, vars, more, codec);
    CopierTracksId(WorldNodeKind, src);
    CopyEachTracksId(FieldCopier(WorldNodeKind, src), NewWorldNodeState(c), Requested(vars), src.id);
  }
}
