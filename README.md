# Below: scheduling, events and the binary field protocol

This project models the layer under Below's game loop and proves properties of it.
It covers:

- **Tasks.** A task carries an unsigned 32-bit dependency counter. When a task is destroyed, each task in its `dependents` list loses one dependency. The task queue and its duplicate, the task manager, hand out the first task whose counter is zero.
- **Events.** The event queue is a FIFO. The event dispatcher keeps one ordered listener list per event type and calls the whole list for an event of that type. The two label lookups map codes to fixed strings.
- **Wire helpers.** These write and read fixed-width integers and the raw bit patterns of floats and doubles.
- **Field protocol.** A node serializes to one count byte followed by one blob per field. A blob is a length byte, `name:`, then the value bytes. The field sets of `WorldNode`, `Entity` and `PhysicsObject` are chained: each layer handles its own names and hands every other name to the layer below.
- **Game states.** The server and client decode incoming payloads into object events. The server encodes the scene as one create message per node. The server object manager applies incoming create and update data to its last-created node. The client keeps two connection flags.
- **Containers.** The ring buffer works on two 64-bit counters. The template managers are keyed stores whose `Get` inserts a null entry for a missing key.

All operations run one after another. Mutexes, atomics and threads are absent.

Modelling choices:

- Floats are opaque 4-byte words and doubles opaque 8-byte words. Integers are little-endian.
- `Entity` and `PhysicsObject` are not separate classes. There is one `WorldNode` class that holds every layer's fields and records which constructor built it (its `kind`).
- Each layer's field codec is a pure function. The node-level methods are proved against these functions.
- `SerializeString` and `UnserializeString` are not defined in any file modelled here, so they are a parameter, a `StringCodec`. Only the round trip that a lemma explicitly asks for is assumed about it.
- Listeners are ids. Dispatching an event returns the ids it calls.

## Model

| member | source | states |
|---|---|---|
| Bytes.DecodeEncode | src/network/serializable.cc:40-61 | reading back the `width` bytes written for a value gives that value |
| Bytes.EncodeDecode | src/network/serializable.cc:7-22 | writing back a value read from some bytes gives exactly those bytes |
| Bytes.StringBytesRoundTrip | src/world/worldNode.cc:96-99 | a field name written as bytes and read back as a string is the same name |
| Tasks.Task.constructor | src/task.cc:10-18 | the task stores exactly the given name, function and dependency count, and starts with no dependents |
| Tasks.Task.Destroy | src/task.cc:20-29 | each task in `dependents` loses one dependency per occurrence in the list, in unsigned 32-bit arithmetic; only listed tasks' counters may change; names, functions and dependents lists stay |
| Tasks.DecByWithinRange | src/task.cc:26 | `k` decrements of a counter `x` with `k <= x` give `x - k`, which is zero exactly when `k == x`; decrementing past zero wraps to `x - k + 2^32` |
| Tasks.FirstReady | src/taskQueue.cc:15-25 | the index a front-to-back scan stops at: every earlier counter is positive, and the counter there, if any, is zero |
| Tasks.ReleasedWhenAllDestroyed | src/task.cc:33-36 | `HasDependenciesLeft` of a task created with `x` dependencies, after `k <= x` of them were destroyed, is false exactly when `k == x`: the task is released at the last one |
| Tasks.FirstReadyAt | src/taskQueue.cc:15-25 | an index with only positive counters before it and a zero counter at it (or the end) is FirstReady |
| Tasks.RemoveAt | src/taskQueue.cc:22 | erasing one element keeps the elements before it and shifts the ones after it down by one, in order |
| TaskQueues.TaskQueue.constructor | src/taskQueue.hh:19 | a new queue holds no tasks |
| TaskQueues.TaskQueue.GetTask | src/taskQueue.cc:4-28 | returns and removes the lowest-index task with no dependencies left, keeping the others in order; returns null with the queue unchanged when the queue is empty or every task has dependencies left; never returns a task with dependencies left |
| TaskQueues.TaskQueue.AddTask | src/taskQueue.cc:32-36 | the task is appended at the back, so the count grows by one |
| TaskQueues.TaskQueue.GetTaskCount | src/taskQueue.cc:40-44 | the number of queued tasks |
| TaskManagers.TaskManager.constructor | src/taskManager.hh:18 | a new manager holds no tasks |
| TaskManagers.TaskManager.GetTask | src/taskManager.cc:4-28 | the same first-ready removal as the task queue, with null and no change when no task is ready |
| TaskManagers.TaskManager.AddTask | src/taskManager.cc:32-36 | the task is appended at the back |
| TaskManagers.TaskManager.GetTaskCount | src/taskManager.cc:40-43 | the number of queued tasks |
| Events.NewEvent | src/events/event.cc:5-9 | a new event has type UNDEF_EVENT and subtype UNDEF_SUB_EVENT |
| Events.TypedEvent | src/server/serverGameState.cc:301-303 | an event of the given type and subtype whose other fields are those of a new event |
| Events.EventTypeToStr | src/events/event.cc:12-28 | the lookup is total and never returns an empty string |
| Events.EventSubTypeToStr | src/events/event.cc:31-73 | the lookup is total and never returns an empty string |
| Events.EventTypeLabels | src/events/event.cc:18-24 | each of the six listed types maps to its fixed label (e.g. OBJECT_EVENT to "Object Event") and every other value to "Unknown Event"; the label identifies a listed type |
| Events.EventSubTypeLabels | src/events/event.cc:37-69 | each of the 26 listed subtypes maps to its label and every other value to "Unknown Sub Event"; the label identifies a listed subtype |
| EventQueues.EventQueue.constructor | src/events/eventQueue.hh:22 | a new queue holds no events |
| EventQueues.EventQueue.GetEvent | src/events/eventQueue.cc:16-31 | null, with the queue unchanged, when it is empty; otherwise the oldest event, which leaves the front of the queue |
| EventQueues.EventQueue.AddEvent | src/events/eventQueue.cc:35-39 | the event is appended at the back |
| EventQueues.EventQueue.GetEventCount | src/events/eventQueue.cc:43-47 | the number of queued events |
| EventQueues.FifoOrder | src/events/eventQueue.cc:16-39 | events added behind pending ones come out after them, in the order they were added, and the drained queue then answers null |
| EventDispatchers.ListenersFor | src/events/eventDispatcher.cc:45-56 | reference definition: the listeners a log of registrations leaves on a type, in log order |
| EventDispatchers.ListenersForCounts | src/events/eventDispatcher.cc:54 | no de-duplication: a listener occurs on a type once per registration for that type, and registrations for other types add nothing |
| EventDispatchers.EventDispatcher.constructor | src/events/eventDispatcher.cc:4-15 | every type from UNDEF_EVENT up to, not including, EVENT_TYPE_COUNT has its own empty collection, and no other type has one |
| EventDispatchers.EventDispatcher.HandleEvent | src/events/eventDispatcher.cc:25-42 | the listeners registered for the event's type are called, once per registration, in registration order, and no others |
| EventDispatchers.EventDispatcher.AddEventListener | src/events/eventDispatcher.cc:45-56 | the listener is appended to its type's collection; every other collection is unchanged |
| EventDispatchers.EventDispatcher.ClearListeners | src/server/serverGameState.cc:52-54 | the type's collection is emptied; every other collection is unchanged |
| EventDispatchers.Replay | src/events/eventDispatcher.cc:25-56 | a fresh dispatcher fed a log of registrations calls, for an event, exactly the reference listeners of its type, in order, duplicates included |
| Serializable.SerializeUint8 | src/network/serializable.cc:7-10 | exactly one byte, the value, is appended |
| Serializable.SerializeUint16 | src/network/serializable.cc:13-16 | exactly two bytes are appended: the value's little-endian image |
| Serializable.SerializeUint32 | src/network/serializable.cc:19-22 | exactly four bytes are appended: the value's little-endian image |
| Serializable.SerializeFloat | src/network/serializable.cc:25-28 | the float's four-byte bit pattern is appended unchanged |
| Serializable.SerializeDouble | src/network/serializable.cc:31-34 | the double's eight-byte bit pattern is appended unchanged |
| Serializable.UnserializeUint8 | src/network/serializable.cc:40-45 | the byte at the read position is returned, and the position advances by one |
| Serializable.UnserializeUint16 | src/network/serializable.cc:48-53 | the next two bytes are read as a little-endian number, and the position advances by two |
| Serializable.UnserializeUint32 | src/network/serializable.cc:56-61 | the next four bytes are read as a little-endian number, and the position advances by four |
| Serializable.UnserializeFloat | src/network/serializable.cc:64-69 | the next four bytes are returned as they are, and the position advances by four |
| Serializable.UnserializeDouble | src/network/serializable.cc:72-77 | the next eight bytes are returned as they are, and the position advances by eight |
| Serializable.Uint32RoundTrip | src/network/serializable.cc:19-61 | a 32-bit value written after any prefix is read back unchanged once the prefix is consumed |
| Serializable.FloatAfterUint16RoundTrip | src/network/serializable.cc:13-69 | a 16-bit value and a float written in turn are read back in turn, both unchanged: each read sees the bytes after the previous one |
| WorldNodes.IdCounter.constructor | src/world/worldNode.cc:14 | the shared id counter starts at zero |
| WorldNodes.Inc | src/world/worldNode.cc:23 | unsigned 32-bit increment: one more, or 0 after the largest value |
| WorldNodes.WorldNode.constructor | src/world/worldNode.cc:21-30 | the id is the pre-incremented counter; parent 0, position (0, 5, -5), identity rotation, unit scale, no children (the object type is an assumption of the model, see "Left out") |
| WorldNodes.WorldNode.Entity | src/world/entity.cc:12-15 | a `WorldNode()` whose type is ENTITY_OBJECT_TYPE |
| WorldNodes.WorldNode.PhysicsObject | src/physics/physicsObject.cc:12-17 | an `Entity()` whose type is PHYSICS_OBJECT_TYPE, with mass 1 and a sphere collision shape of size 1 |
| WorldNodes.ConsecutiveIds | src/world/worldNode.cc:14-23 | a node built after another gets the next id, and a strictly larger one unless the counter wraps |
| WorldNodes.Vec3RoundTrip | src/world/worldNode.cc:254-256 | three float bit patterns written and read back are unchanged |
| WorldNodes.QuatRoundTrip | src/world/worldNode.cc:282-285 | four float bit patterns written and read back are unchanged |
| WorldNodes.BlobLength | src/world/worldNode.cc:191-192 | the length byte is the length of `name:` plus the value, modulo 256 |
| WorldNodes.BlobOf | src/world/worldNode.cc:189-201 | a blob is the length byte, the name's bytes, ':' and the value, and nothing else |
| WorldNodes.BaseFieldOf | src/world/worldNode.cc:139-186 | the base layer recognises only "id", "position", "rotation" and "scale", each as itself |
| WorldNodes.BaseFieldOfName | src/world/worldNode.cc:139-174 | every base field is recognised by its own name |
| WorldNodes.BaseValue | src/world/worldNode.cc:139-174 | a base field's value has its fixed size (4 for id, 12 for position and scale, 16 for rotation); the id is its 32-bit image |
| WorldNodes.SerializeBaseField | src/world/worldNode.cc:131-204 | a known name writes its blob, whose length byte is the name's length plus 1 plus the field's size; an unknown name writes nothing |
| WorldNodes.DecodeBase | src/world/worldNode.cc:220-323 | a base field is accepted exactly when its data has the field's fixed size, and the accepted field then holds exactly that data |
| WorldNodes.DecodeBaseField | src/world/worldNode.cc:208-337 | rejects an unknown name or data of the wrong size; otherwise the field holds exactly the data |
| WorldNodes.BaseRoundTrip | src/world/worldNode.cc:131-337 | decoding a base field's written value copies exactly that field from the sender and leaves every other field as it was |
| WorldNodes.ReadId | src/world/worldNode.cc:234 | four bytes read through a stream give their little-endian value |
| WorldNodes.UnserializeBaseField | src/world/worldNode.cc:208-337 | on the node: a known field with data of exactly its size is assigned and the answer is true; otherwise the node is untouched and the answer is false |
| Entities.EntityFieldOf | src/world/entity.cc:37-58 | the Entity layer recognises only "material", "texture" and "mesh" |
| Entities.EntityFieldOfName | src/world/entity.cc:37-58 | every Entity field is recognised by its own name |
| Entities.BaseNamesPassEntity | src/world/entity.cc:60-64 | base names are not Entity names, so they are handed to the base layer |
| Entities.EntityDefaultFields | src/world/entity.cc:19-26 | the base defaults followed by material, texture, mesh |
| Entities.ColorRoundTrip | src/world/entity.cc:109-112 | four colour bit patterns written and read back are unchanged |
| Entities.EntityValue | src/world/entity.cc:37-58 | material writes its 16 colour bytes; texture and mesh both write the texture string |
| Entities.SerializeEntityField | src/world/entity.cc:30-84 | own names write their blob unless its length byte comes out as 0 (modulo 256), in which case nothing is written; other names get the base layer's answer |
| Entities.DecodeEntity | src/world/entity.cc:95-137 | material is accepted exactly with 16 bytes and then holds them; texture and mesh always succeed, with "default" for empty data and the decoded string otherwise |
| Entities.DecodeEntityField | src/world/entity.cc:88-146 | own names are decoded by this layer; every other name gets the base layer's answer |
| Entities.EntityRoundTrip | src/world/entity.cc:30-146 | decoding a field's written value copies it; for texture and mesh this holds when the string codec reads back the texture and its encoding is not empty |
| Entities.MeshCarriesTexture | src/world/entity.cc:54-58 | the mesh blob does not depend on the mesh at all, and a receiver decodes the sender's texture into its mesh |
| Entities.UnserializeEntityField | src/world/entity.cc:88-146 | on the node: the new state and the answer are those of the Entity decoder; a rejected field leaves the node untouched |
| PhysicsObjects.PhysicsFieldOf | src/physics/physicsObject.cc:40-74 | the physics layer recognises only "velocity", "angVelocity", "mass" and "collisionShape" |
| PhysicsObjects.PhysicsFieldOfName | src/physics/physicsObject.cc:40-74 | every physics field is recognised by its own name |
| PhysicsObjects.LowerNamesPassPhysics | src/physics/physicsObject.cc:76-80 | base and Entity names are not physics names, so they are handed down |
| PhysicsObjects.PhysicsDefaultFields | src/physics/physicsObject.cc:21-29 | the Entity defaults followed by velocity, angVelocity, mass, collisionShape |
| PhysicsObjects.ShapeRoundTrip | src/physics/physicsObject.cc:170-174 | a collision shape's type byte and four floats written and read back are unchanged |
| PhysicsObjects.MassOf | src/physics/physicsObject.cc:151-154 | mass is read without a length check: data of four or more bytes gives its first four; shorter data is a prefix of the result, whose missing bytes are indeterminate in the source (see Left out) |
| PhysicsObjects.PhysicsValue | src/physics/physicsObject.cc:39-74 | each physics field writes its fixed size: 12, 16, 4, and 1 type byte plus 16 for the collision shape |
| PhysicsObjects.SerializePhysicsField | src/physics/physicsObject.cc:33-100 | own names always write their blob; other names get the Entity layer's answer |
| PhysicsObjects.DecodePhysics | src/physics/physicsObject.cc:111-175 | velocity needs exactly 12 bytes, angVelocity 16 and collisionShape 17, and the accepted field then holds exactly the data; mass always succeeds |
| PhysicsObjects.DecodePhysicsField | src/physics/physicsObject.cc:104-184 | own names are decoded by this layer; every other name gets the Entity layer's answer |
| PhysicsObjects.PhysicsRoundTrip | src/physics/physicsObject.cc:33-184 | decoding a physics field's written value copies exactly that field |
| PhysicsObjects.BaseNamesReachBase | src/physics/physicsObject.cc:177-181 | on a physics node a base name such as "position" is encoded and decoded by the base layer |
| PhysicsObjects.UnserializePhysicsField | src/physics/physicsObject.cc:104-184 | on the node: the new state and the answer are those of the physics decoder; a rejected field leaves the node untouched |
| NodeCodec.FieldOfSound | src/physics/physicsObject.cc:76-80 | the name a node recognises is the name of a field the node's layers own |
| NodeCodec.FieldOfName | src/physics/physicsObject.cc:76-80 | every field a node owns, through its own layer or a lower one, is recognised by its name |
| NodeCodec.SerializeField | src/world/worldNode.cc:131-204 | the virtual `SerializeField`: a name that none of the node's layers owns writes nothing; a written blob belongs to a field the node owns and is that field's value under the requested name |
| NodeCodec.DecodeField | src/world/worldNode.cc:208-337 | the virtual `UnserializeField`: a name that none of the node's layers owns is rejected, and only a field the node owns is ever assigned |
| NodeCodec.SerializeFieldDispatch | src/world/entity.cc:60-64 | the virtual `SerializeField` of a node is its own layer's, which hands unknown names down |
| NodeCodec.DecodeFieldDispatch | src/world/entity.cc:139-143 | the virtual `UnserializeField` of a node is its own layer's, which hands unknown names down |
| NodeCodec.DefaultFields | src/physics/physicsObject.cc:21-29 | every kind's default list starts with id, position, rotation, scale; Entity adds its three names, PhysicsObject then its four |
| NodeCodec.FieldRoundTrip | src/world/worldNode.cc:131-337 | decoding what a layer writes for one of its fields copies that field |
| NodeCodec.Requested | src/world/worldNode.cc:43-49 | an empty request means id, position, rotation, scale in that order; any other request is used as given |
| NodeCodec.Serialize | src/world/worldNode.cc:40-78 | one count byte, the number of requested names that wrote a blob (modulo 256), then those blobs in request order |
| NodeCodec.SerializeDefaults | src/server/serverGameState.cc:162 | the no-argument form: the serialization of the node's default fields |
| NodeCodec.UnknownNameSkipped | src/world/worldNode.cc:59-66 | a name that no layer of the node knows changes neither the blobs nor the count |
| NodeCodec.SerializeAllLayout | src/world/worldNode.cc:40-78 | a plain node's full serialization is count 4, then the id, position, rotation and scale blobs |
| NodeCodec.SplitAtColon | src/world/worldNode.cc:99 | the name is the bytes before the first ':', and it contains no ':'; with no ':' there is no split |
| NodeCodec.SplitAfterName | src/world/worldNode.cc:99 | a name without ':' followed by ':' splits right after the name |
| NodeCodec.FieldDataLength | src/world/worldNode.cc:106 | the data length is `L - |name| - 1` when that is not negative (it is computed modulo 256) |
| NodeCodec.ApplyFields | src/world/worldNode.cc:90-124 | with no fields left, the state is unchanged and every announced field has been read |
| NodeCodec.UnserializeWith | src/world/worldNode.cc:82-127 | empty data changes nothing; a zero count changes nothing and reads everything announced |
| NodeCodec.OneBlob | src/world/worldNode.cc:93-114 | reading one blob finds the name at its ':' and hands the handler the whole value, leaving the bytes after it |
| NodeCodec.FieldBlob | src/world/worldNode.cc:93-123 | reading the blob of a field the node owns copies that field and moves on to the next bytes |
| NodeCodec.BlobsRoundTrip | src/world/worldNode.cc:90-124 | the field loop over the blobs of a request applies each name's copy in turn, then goes on with what follows |
| NodeCodec.RoundTripWith | src/world/worldNode.cc:82-127 | a whole message, count byte first, reads back when every name does and the count fits its byte |
| NodeCodec.FieldsReadBack | src/world/worldNode.cc:120 | every requested field that fits reads back through the node's own handler |
| NodeCodec.SerializeUnserialize | src/world/worldNode.cc:40-127 | round trip: unserializing `Serialize(vars)` sets exactly the requested fields byte for byte and reads every announced field, whatever bytes follow |
| NodeCodec.PlainNodeRoundTrip | src/world/worldNode.cc:40-127 | a plain node's default serialization always reads back: id, position, rotation and scale are copied |
| NodeCodec.UnserializeField | src/world/worldNode.cc:120 | the virtual call on the node: new state and answer are those of the node's own layer's decoder |
| NodeCodec.ReadField | src/world/worldNode.cc:93-123 | one pass of the field loop on the stream does what the field step says: it stops with the node untouched, or handles the last field, or handles a field and leaves the rest unread |
| NodeCodec.ReadNameOnly | src/world/worldNode.cc:99-114 | a name that runs to the end of the data without ':' reaches the handler, with no data, only if its length byte announces none |
| NodeCodec.ReadNamedField | src/world/worldNode.cc:93-123 | the announced data after the ':' goes to the handler if it is all there; otherwise the loop stops |
| NodeCodec.ReadFields | src/world/worldNode.cc:82-124 | reads the count and then at most that many fields, stopping at the first rejected or missing one; the node ends in the state the field loop gives, with fields read before a stop kept |
| NodeCodec.Unserialize | src/world/worldNode.cc:82-127 | as written: the node takes the state the field loop gives, and the answer is always false |
| NodeCodec.UnserializeChecked | src/world/worldNode.cc:82-127 | as intended: the answer is true exactly when every announced field was read |
| NodeCodec.UnserializeAnswerIgnoresSuccess | src/world/worldNode.cc:126 | a serialized id reads back completely, yet the answer as written is false |
| ServerObjectManagers.ServerObjectManager.constructor | src/managers/serverObjectManager.cc:22 | there is no last-created node yet |
| ServerObjectManagers.ServerObjectManager.HandleEvent | src/managers/serverObjectManager.cc:8-55 | a create makes a fresh plain node with the next id, unserializes the data into it and makes it the last-created node; an update applies its data to the last-created node, if any, whatever its object id; destroy, other subtypes and non-object events change nothing |
| ServerObjectManagers.CopierTracksId | src/world/worldNode.cc:221-234 | only the "id" name changes a node's id |
| ServerObjectManagers.CreatedNodeId | src/managers/serverObjectManager.cc:30-31 | a node created from a plain node's serialization takes the sender's id when "id" was requested, and keeps the counter's id otherwise |
| DataIn.DecodeDataIn | src/server/serverGameState.cc:246-349 | an event comes out exactly when the type byte is valid and is OBJECT_EVENT and the subtype is valid and is create, destroy or update; it has that type and subtype |
| DataIn.DecodeEncodeEvent | src/server/serverGameState.cc:295-336 | the payload of an object event whose body fits the copy buffer is readable and decodes back to that event |
| DataIn.EncodeDecodeEvent | src/server/serverGameState.cc:295-336 | a decoded event re-encodes to the payload it came from (destroy: its first 7 bytes); create takes byte 3 and the remaining length - 4 bytes, update bytes 3..6 and the remaining length - 7 bytes |
| DataIn.ReadDataIn | src/server/serverGameState.cc:246-349 | the stream reads of the decoder give the event DecodeDataIn describes |
| ServerGameStates.SceneHeader | src/server/serverGameState.cc:152-154 | every scene message starts with OBJECT_EVENT, OBJECT_CREATE as two bytes and WORLD_NODE_OBJECT_TYPE |
| ServerGameStates.SceneMessages | src/server/serverGameState.cc:144-175 | at most one message per node |
| ServerGameStates.SceneMessageIsCreate | src/server/serverGameState.cc:152-167 | a node's scene message is the payload of a create event for a WORLD_NODE_OBJECT_TYPE object, entities included |
| ServerGameStates.SceneMessageDecodes | src/server/serverGameState.cc:144-175 | the data-in decoder reads a scene message back as the create event carrying the node's scene data |
| ServerGameStates.PlainSceneDataRepeats | src/server/serverGameState.cc:160-163 | a plain node's scene data is its default serialization written twice |
| ServerGameStates.PlainSceneDataReadsBack | src/server/serverGameState.cc:160-163 | a plain node's scene data, unserialized, copies the sender's id, position, rotation and scale; the second copy is not read |
| ServerGameStates.SceneMessagesOnePerNode | src/server/serverGameState.cc:144-175 | when every node is a plain node or an entity by type, there is exactly one message per node, in node order |
| ServerGameStates.OtherTypesSkipped | src/server/serverGameState.cc:170-171 | a node of any other type adds no message |
| ServerGameStates.WriteNode | src/server/serverGameState.cc:146-174 | the loop body writes the node's scene message, or nothing for a skipped node |
| ServerGameStates.WriteScene | src/server/serverGameState.cc:144-175 | the loop writes the scene's messages in node order |
| ServerGameStates.NewSceneStream | src/server/serverGameState.cc:146-154 | a new stream holds exactly the scene header |
| ServerGameStates.NewSceneNodes | src/server/serverGameState.cc:66-96 | a root node and two entities with consecutive ids, parented to the root, with the source's colours, positions and scales; root lists the first entity as its child and the first entity the second |
| ServerGameStates.ServerGameState.constructor | src/server/serverGameState.cc:37-39 | no nodes |
| ServerGameStates.ServerGameState.Create | src/server/serverGameState.cc:49-97 | STATE and NETWORK are emptied, then the state is registered for STATE, OBJECT and NETWORK (OBJECT keeps its listeners); the three scene nodes are appended to `worldNodes` and the two entities to `entities` |
| ServerGameStates.ServerGameState.Register | src/server/serverGameState.cc:51-64 | the listener part of Create |
| ServerGameStates.ServerGameState.Destroy | src/server/serverGameState.cc:101-105 | both node lists are emptied |
| ServerGameStates.ServerGameState.SendScene | src/server/serverGameState.cc:136-176 | nothing for an unknown client; otherwise the scene's messages, one per node of `worldNodes` with scene data, in order |
| ServerGameStates.ServerGameState.HandleDataInEvent | src/server/serverGameState.cc:246-350 | the decoded event, if any, is queued; nothing else is |
| ServerGameStates.ServerGameState.HandleEvent | src/server/serverGameState.cc:180-242 | a NETWORK join sends the scene to the joining client; NETWORK data-in is decoded and queued; every other event sends and queues nothing |
| ClientGameStates.ClientGameState.constructor | src/clientGameState.cc:34-38 | neither connected nor trying to connect |
| ClientGameStates.ClientGameState.Create | src/clientGameState.cc:54-80 | STATE, NETWORK, SDL_INPUT and SDL_WINDOW are emptied, then the state is registered for those four and for OBJECT, which keeps its listeners |
| ClientGameStates.ClientGameState.ClearCollections | src/clientGameState.cc:56-71 | the four collections are emptied |
| ClientGameStates.ClientGameState.Register | src/clientGameState.cc:74-79 | the state is added to the five collections |
| ClientGameStates.ClientGameState.Destroy | src/clientGameState.cc:84-92 | connected afterwards exactly when it was connected and the connection was down |
| ClientGameStates.ClientGameState.Connect | src/clientGameState.cc:114-143 | one new task named "TryConnectingTask" with no dependencies is appended to the task queue |
| ClientGameStates.ClientGameState.Tick | src/clientGameState.cc:96-110 | when neither flag is set, exactly one connect task with no dependencies is scheduled and the state is trying to connect; otherwise nothing is scheduled and the flags stay |
| ClientGameStates.ClientGameState.TickTwice | src/clientGameState.cc:96-103 | two ticks schedule at most one connect task |
| ClientGameStates.ClientGameState.HandleDataInEvent | src/clientGameState.cc:211-314 | the same decoder as the server: the decoded event, if any, is queued |
| ClientGameStates.ClientGameState.HandleEvent | src/clientGameState.cc:158-207 | by subtype only, whatever the type: join sets connected and clears trying; part clears connected and sets `stopClient`; data-in is decoded and queued; anything else changes nothing |
| RingBuffers.Inc64 | src/ringBuffer.hh:39 | unsigned 64-bit increment |
| RingBuffers.SizeAt | src/ringBuffer.hh:49-57 | `head - tail` when the tail is not ahead; otherwise `bufferSize - (tail - head)` in unsigned 64-bit arithmetic |
| RingBuffers.AvailableIffRoom | src/ringBuffer.hh:74-86 | with the head at most `bufferSize` ahead, the private `Available` says exactly whether it is less than `bufferSize` ahead |
| RingBuffers.AvailableAt | src/ringBuffer.hh:74-86 | the private `Available(h, t)`: with the tail not ahead, it is false exactly when the head differs from the tail and equals `tail + bufferSize` in 64-bit arithmetic, i.e. only for a full buffer |
| RingBuffers.BackSlotIsFree | src/ringBuffer.hh:26-34 | the slot `Back` hands out is not the slot of any live value |
| RingBuffers.PushKeepsBounds | src/ringBuffer.hh:37-40 | a push after a non-null `Back` keeps the head within bounds and adds one to the size |
| RingBuffers.PopKeepsBounds | src/ringBuffer.hh:43-46 | a pop after a non-null `Front` keeps the counters within bounds and takes one from the size |
| RingBuffers.RingBuffer.constructor | src/ringBuffer.hh:7-12 | `bufferSize` slots, head = tail = 0, size 0 and a null front |
| RingBuffers.RingBuffer.Front | src/ringBuffer.hh:15-23 | non-null exactly when tail < head, and then slot `tail % bufferSize` |
| RingBuffers.RingBuffer.Back | src/ringBuffer.hh:26-34 | non-null exactly when `Available(head, tail)`, and then slot `head % bufferSize` |
| RingBuffers.RingBuffer.Size | src/ringBuffer.hh:49-57 | `head - tail` while the tail is not ahead, 0 when they are equal |
| RingBuffers.RingBuffer.Available | src/ringBuffer.hh:60-63 | within bounds, true exactly when the head is less than `bufferSize` ahead |
| RingBuffers.RingBuffer.Push | src/ringBuffer.hh:37-40 | only the head moves on, by one; no slot changes |
| RingBuffers.RingBuffer.Pop | src/ringBuffer.hh:43-46 | only the tail moves on, by one; no slot changes |
| TemplateManagers.GetAfterAdd | src/managers/templateManager.hh:24-33 | after `Add(k, v)`, `Get(k)` answers `v` and inserts nothing |
| TemplateManagers.GetMissingInserts | src/managers/templateManager.hh:30-33 | `Get` of a missing key answers null and adds a null entry for that key alone |
| TemplateManagers.TouchKeepsAnswers | src/managers/templateManager.hh:30-33 | the null entry `Get` inserts changes no later answer |
| TemplateManagers.TouchIdempotent | src/managers/templateManager.hh:30-33 | a second `Get` of the same key changes nothing more |
| TemplateManagers.GetAfterRemove | src/managers/templateManager.hh:36-41 | after `Remove(k)` the key is absent and `Get(k)` answers null |
| TemplateManagers.OtherKeysUnchanged | src/managers/templateManager.hh:24-41 | `Add`, `Get` and `Remove` of one key leave every other key's presence and answer as they were |
| TemplateManagers.TemplateManager.constructor | src/managers/templateManager.hh:45 | a new manager holds no entries |
| TemplateManagers.TemplateManager.Add | src/managers/templateManager.hh:24-27 | the item is stored under the key, overwriting any previous value |
| TemplateManagers.TemplateManager.Get | src/managers/templateManager.hh:30-33 | the stored `shared_ptr` or null; a missing key is left holding null |
| TemplateManagers.TemplateManager.Remove | src/managers/templateManager.hh:36-41 | the stored `shared_ptr` or null is returned, and the key is absent afterwards |
| TemplateManagers.TemplateManager.Destroy | src/managers/templateManager.hh:14-17 | every entry is dropped |
| StringTemplateManagers.StringTemplateManager.constructor | src/templateManager.hh:45 | a new manager holds no entries |
| StringTemplateManagers.StringTemplateManager.Add | src/templateManager.hh:24-27 | the item is stored under the string key, overwriting any previous value |
| StringTemplateManagers.StringTemplateManager.Get | src/templateManager.hh:30-33 | the stored `shared_ptr` or null; a missing key is left holding null |
| StringTemplateManagers.StringTemplateManager.Remove | src/templateManager.hh:36-41 | the stored `shared_ptr` or null is returned, and the key is absent afterwards |
| StringTemplateManagers.StringTemplateManager.Destroy | src/templateManager.hh:14-17 | every entry is dropped |

## Left out

- Threads, mutexes and atomics: every operation is modelled as running alone. This covers worker threads, the thread pool, the self-re-enqueuing tasks and the locks in every modelled file.
- Sockets: the server, connection and client code is not part of this model. `server.GetClient` is a set of known client ids, `client->Write` is the list of messages a call returns, and `connection->IsConnected()` is the parameter `linkUp` of `ClientGameState.Destroy`.
- Float arithmetic: `ServerGameState::Tick`, `UpdateModelMatrix`, collision tests and rendering. Floats are only carried as bit patterns. The constants 0, 0.5, 1, 2, 5 and -5 are written as their IEEE-754 single-precision bit patterns.
- Logging, timers (`timer.Reset`, `timer.End`), `sleep_for` and `Render` have no modelled effect.
- `meshId`, `textureId` and the model matrix are not modelled node fields: the protocol never carries them.
- `NodeState.children` holds child node ids, where the scene setup pushes the child objects' `shared_ptr`s (src/server/serverGameState.cc:83, :96); the model does not capture shared ownership of a child or aliasing between a child in `children` and the same node in `worldNodes`/`entities`.
- WorldNodes.WorldNode.constructor: src/world/worldNode.hh as shown is out of date (it has no `type` member, declares no `SerializeField`/`UnserializeField`, and keeps `children` as `vector<unsigned int>`), and src/world/worldNode.cc:21-30 does not set a type; the model assumes that a plain node's type is WORLD_NODE_OBJECT_TYPE, which is what lets `SendScene`'s switch (src/server/serverGameState.cc:158-171) send the root node.
- The `Task()` default constructor is not modelled. It builds and discards a temporary, so its own fields stay uninitialised. `ClientGameState.Connect` sets the name, function and count right after calling it, so it is modelled with the three-argument constructor and those values.
- The `ClientGameState` destructor repeats `Destroy` with a null check on the connection; it is not modelled separately.
- The pure virtual `Load` members of both template managers have no body to model.
- RingBuffer.Available: the public `Available()` calls an undeclared `available`, so it would not compile if called. The model reads it as the private `Available(head, tail)`.
- RingBuffer.Front, RingBuffer.Back: a buffer of size 0 divides by zero in `% bufferSize`. The model requires a non-zero size exactly where a slot is computed.
- RingBuffer.Push: a head that wraps past 2^64 is modelled (`Inc64`). The bounds lemmas exclude it, because no 64-bit push counter reaches it.
- DataIn.Readable: payloads too short for the fields the decoder reads, and bodies longer than the 65535-byte copy buffer, are read past the end or overflow the stack in the source. Both decoders require them away.
- NodeCodec.ReadFields: where the source would read past the end of the data (a length byte or field data that is not there), the model stops the loop. The source instead goes on with indeterminate bytes.
- NodeCodec.Serialize: the C++ `assert` in `WorldNode::SerializeField` (src/world/worldNode.cc:195) is taken as compiled out. Base blobs have fixed lengths, so it never fires.
- NodeCodec.ReadFields: the C++ `assert( fieldDataLength > 0 )` in `WorldNode::Unserialize` (src/world/worldNode.cc:107) is also taken as compiled out, and so is `assert( streamLength > 0 )` in `WorldNode::UnserializeField` (src/world/worldNode.cc:212). Where a build with asserts enabled would abort on a field with no data, the model goes on and hands the empty data to the field's decoder. That empty data is what makes a name with no ':' acceptable (`ReadNameOnly`), and what gives texture and mesh their "default" value. A base field with empty data is rejected by its size check (`DecodeBaseField`).
- PhysicsObjects.MassOf: mass data shorter than four bytes leaves part of the read float indeterminate in the source (`UnserializeFloat` reads into an uninitialised value). The model fills the missing bytes with zeros, and its contract only promises that the data it has is a prefix of the result.
- ServerObjectManagers.ServerObjectManager: the last-created node is a function-local `static` in the source, shared by every manager. The model keeps it as a field of each manager. This makes no difference while the server creates a single manager, as it does.
- EventDispatchers.EventDispatcher.AddEventListener, EventDispatchers.EventDispatcher.ClearListeners, EventDispatchers.EventDispatcher.HandleEvent: the source indexes the listener table by the event type without a check, which is undefined for a type at or beyond `EVENT_TYPE_COUNT`. The model requires a type that has a collection.
- Serializable.UnserializeUint8, Serializable.UnserializeUint16, Serializable.UnserializeUint32, Serializable.UnserializeFloat, Serializable.UnserializeDouble: a read past the end of the stream leaves the value indeterminate in the source. The model requires the bytes to be there; callers that may run out (the field loop) check first and stop.
- Event numbering: the header that src/events/event.cc includes (src/events/event.hh:5-32) is out of date. It lacks most of the codes event.cc uses: NETWORK_PING/PONG, OBJECT_CREATE/DESTROY (it has OBJECT_CREATION/DESTROYED), the OBJECT_PARENT/CHILD codes, the SDL types and every SDL subtype. The model numbers the codes by the order of event.cc's switches instead: types UNDEF 0 to SDL_WINDOW 5, subtypes 0 to 25. As a result its values for STATE_RUN_START (6), STATE_RUN_PAUSE (7) and OBJECT_UPDATE (10) differ from that header's 4, 5 and 8. `EVENT_TYPE_COUNT` and `EVENT_SUB_TYPE_COUNT` are left abstract, although that header gives `EVENT_TYPE_COUNT` the value 4, which is below the SDL types event.cc labels. `PHYSICS_OBJECT_TYPE` is left unspecified.
- `WorldNode::GetDefaultFields` is not defined in the modelled files. It is taken to be id, position, rotation, scale, the list an empty request also falls back to. The no-argument `Serialize()` is taken to serialize the default fields.
- `SerializeString` / `UnserializeString` are not part of this model. Their layout and their round trip are parameters (`StringCodec`).
- TaskQueues.TaskQueue.GetTask, TaskManagers.TaskManager.GetTask: the early return for an empty queue is folded into the scan, because a scan of no tasks gives the same answer.
- The event subclasses (`JoinEvent`, `DataInEvent`, `ObjectCreateEvent`, ...) are one record holding the union of their fields.

## Findings

| source | as written | input that shows it | evidently intended | confidence | as-written member | corrected member |
|---|---|---|---|---|---|---|
| src/world/worldNode.cc:126 | `Unserialize` returns false after the field loop, even when every announced field was decoded | the serialization of a node's "id" field alone: count 1, then `[7]"id:"` and four id bytes; every field is read and the answer is false | true when every announced field was read, false on a missing name or a rejected field | not executed | NodeCodec.Unserialize (shown by NodeCodec.UnserializeAnswerIgnoresSuccess) | NodeCodec.UnserializeChecked |
