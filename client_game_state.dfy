/**
 * The client's game state (src/clientGameState.cc): it registers with the
 * event dispatcher, schedules one connection attempt at a time on the task
 * queue, follows the network's join and part events, and turns incoming
 * payloads into object events.
 *
 * The task queue, the event queue, the dispatcher and the `stopClient` flag
 * are the program's globals; the model gives the state references to the
 * first three and keeps the flag as a field. The live connection is not
 * part of this model: where the source asks it whether it is connected,
 * the answer is a parameter.
 */
module ClientGameStates {
  import opened Bytes
  import opened Wrappers
  import opened Events
  import opened EventQueues
  import opened EventDispatchers
  import opened Tasks
  import opened TaskQueues
  import opened DataIn

  /** The name of the task `Connect` schedules. */
  const CONNECT_TASK_NAME: string := "TryConnectingTask"
  /** The identity of the connecting lambda `Connect` gives the task. */
  const CONNECT_FUNCTION: FunctionRef := Some(0)

  class ClientGameState {
    /** `state.connected`: a join has been seen and no part since. */
    var connected: bool
    /** `state.tryingToConnect`: a connection task is scheduled and no join has been seen. */
    var tryingToConnect: bool
    /** The program's `stopClient` flag. */
    var stopClient: bool
    const taskQueue: TaskQueue
    const dispatcher: EventDispatcher
    const queue: EventQueue
    /** This state as a listener. */
    const self: ListenerId

    /** The flags never say both "connected" and "trying to connect". */
    predicate Consistent()
      reads this
    {
      !(connected && tryingToConnect)
    }

    /** Neither connected nor trying to connect. */
    constructor (tq: TaskQueue, d: EventDispatcher, q: EventQueue, id: ListenerId)
      ensures !connected && !tryingToConnect && !stopClient
      ensures taskQueue == tq && dispatcher == d && queue == q && self == id
      ensures Consistent()
    {
      connected := false;
      tryingToConnect := false;
      stopClient := false;
      taskQueue := tq;
      dispatcher := d;
      queue := q;
      self := id;
    }

    /**
     * `Create`: the STATE, NETWORK, SDL_INPUT and SDL_WINDOW collections are
     * emptied, then the state registers for those four and for OBJECT, which
     * keeps its other listeners.
     */
    method Create()
      requires STATE_EVENT in dispatcher.listeners && NETWORK_EVENT in dispatcher.listeners
      requires OBJECT_EVENT in dispatcher.listeners
      requires SDL_INPUT_EVENT in dispatcher.listeners && SDL_WINDOW_EVENT in dispatcher.listeners
      modifies dispatcher
      ensures dispatcher.listeners == old(dispatcher.listeners)[STATE_EVENT := [self]]
        [OBJECT_EVENT := old(dispatcher.listeners)[OBJECT_EVENT] + [self]][NETWORK_EVENT := [self]]
        [SDL_INPUT_EVENT := [self]][SDL_WINDOW_EVENT := [self]]
    {
      ClearCollections();
      assert [] + [self] == [self];
      Register();
    }

    /** The first half of `Create`: the STATE, NETWORK, SDL_INPUT and SDL_WINDOW collections are emptied. */
    method ClearCollections()
      requires STATE_EVENT in dispatcher.listeners && NETWORK_EVENT in dispatcher.listeners
      requires SDL_INPUT_EVENT in dispatcher.listeners && SDL_WINDOW_EVENT in dispatcher.listeners
      modifies dispatcher
      ensures dispatcher.listeners == old(dispatcher.listeners)[STATE_EVENT := []][NETWORK_EVENT := []]
        [SDL_INPUT_EVENT := []][SDL_WINDOW_EVENT := []]
    {
      dispatcher.ClearListeners(STATE_EVENT);
      dispatcher.ClearListeners(NETWORK_EVENT);
      dispatcher.ClearListeners(SDL_INPUT_EVENT);
      dispatcher.ClearListeners(SDL_WINDOW_EVENT);
    }

    /** The second half of `Create`: the state is added to STATE, OBJECT, NETWORK, SDL_INPUT and SDL_WINDOW. */
    method Register()
      requires STATE_EVENT in dispatcher.listeners && NETWORK_EVENT in dispatcher.listeners
      requires OBJECT_EVENT in dispatcher.listeners
      requires SDL_INPUT_EVENT in dispatcher.listeners && SDL_WINDOW_EVENT in dispatcher.listeners
      modifies dispatcher
      ensures dispatcher.listeners == old(dispatcher.listeners)
        [STATE_EVENT := old(dispatcher.listeners)[STATE_EVENT] + [self]]
        [OBJECT_EVENT := old(dispatcher.listeners)[OBJECT_EVENT] + [self]]
        [NETWORK_EVENT := old(dispatcher.listeners)[NETWORK_EVENT] + [self]]
        [SDL_INPUT_EVENT := old(dispatcher.listeners)[SDL_INPUT_EVENT] + [self]]
        [SDL_WINDOW_EVENT := old(dispatcher.listeners)[SDL_WINDOW_EVENT] + [self]]
    {
      dispatcher.AddEventListener(STATE_EVENT, self);
      dispatcher.AddEventListener(OBJECT_EVENT, self);
      dispatcher.AddEventListener(NETWORK_EVENT, self);
      dispatcher.AddEventListener(SDL_INPUT_EVENT, self);
      dispatcher.AddEventListener(SDL_WINDOW_EVENT, self);
    }

    /**
     * `Destroy`: when the state is connected and the connection says it is
     * (`linkUp`), it disconnects and is no longer connected; otherwise
     * nothing changes.
     */
    method Destroy(linkUp: bool)
      modifies this
      ensures connected == (old(connected) && !linkUp)
      ensures tryingToConnect == old(tryingToConnect) && stopClient == old(stopClient)
      ensures old(Consistent()) ==> Consistent()
    {
      if connected && linkUp {
        connected := false;
      }
    }

    /**
     * `Connect`: a new task named "TryConnectingTask", with the connecting
     * function and no dependencies, is appended to the task queue.
     */
    method Connect() returns (task: Task)
      modifies taskQueue
      ensures fresh(task) && taskQueue.queue == old(taskQueue.queue) + [task]
      ensures task.name == CONNECT_TASK_NAME && task.f == CONNECT_FUNCTION
      ensures task.dependencies == 0 && task.dependents == []
    {
      task := new Task(CONNECT_TASK_NAME, CONNECT_FUNCTION, 0);
      taskQueue.AddTask(task);
    }

    /**
     * `Tick`: when the state is neither connected nor trying to connect, a
     * connection task is scheduled and the state is trying to connect;
     * otherwise nothing is scheduled. Either way it is consistent afterwards
     * if it was before.
     */
    method Tick()
      modifies this, taskQueue
      ensures !old(connected) && !old(tryingToConnect) ==>
        tryingToConnect && |taskQueue.queue| == |old(taskQueue.queue)| + 1
        && taskQueue.queue[..|old(taskQueue.queue)|] == old(taskQueue.queue)
        && fresh(taskQueue.queue[|old(taskQueue.queue)|])
        && taskQueue.queue[|old(taskQueue.queue)|].name == CONNECT_TASK_NAME
        && taskQueue.queue[|old(taskQueue.queue)|].dependencies == 0
      ensures old(connected) || old(tryingToConnect) ==>
        tryingToConnect == old(tryingToConnect) && taskQueue.queue == old(taskQueue.queue)
      ensures connected == old(connected) && stopClient == old(stopClient)
      ensures old(Consistent()) ==> Consistent()
    {
      if !connected && !tryingToConnect {
        var _ := Connect();
        tryingToConnect := true;
      }
    }

    /**
     * Two ticks with no network event between them schedule at most one
     * connection task: the first one leaves the state trying to connect.
     */
    method TickTwice()
      modifies this, taskQueue
      ensures |taskQueue.queue| <= |old(taskQueue.queue)| + 1
      ensures !old(connected) ==> tryingToConnect
    {
      Tick();
      Tick();
    }

    /** `HandleDataInEvent`: the decoded event, if any, is queued. */
    method HandleDataInEvent(e: Event)
      requires Readable(e.data)
      modifies queue
      ensures queue.events == old(queue.events) + OptionToSeq(DecodeDataIn(e.data))
    {
      var decoded := ReadDataIn(e.data);
      if decoded.Some? {
        queue.AddEvent(decoded.value);
      }
    }

    /**
     * `HandleEvent`, which looks at the subtype only, whatever the type: a
     * join makes the state connected and no longer trying; a part makes it
     * disconnected and sets `stopClient`; data-in is decoded and queued;
     * anything else changes nothing.
     */
    method HandleEvent(e: Event)
      requires e.subType == NETWORK_DATA_IN ==> Readable(e.data)
      modifies this, queue
      ensures e.subType == NETWORK_JOIN ==>
        connected && !tryingToConnect && stopClient == old(stopClient)
      ensures e.subType == NETWORK_PART ==>
        !connected && tryingToConnect == old(tryingToConnect) && stopClient
      ensures e.subType == NETWORK_DATA_IN ==>
        queue.events == old(queue.events) + OptionToSeq(DecodeDataIn(e.data))
      ensures e.subType != NETWORK_JOIN && e.subType != NETWORK_PART ==>
        connected == old(connected) && tryingToConnect == old(tryingToConnect) && stopClient == old(stopClient)
      ensures e.subType != NETWORK_DATA_IN ==> queue.events == old(queue.events)
      ensures old(Consistent()) ==> Consistent()
    {
      if e.subType == NETWORK_JOIN {
        connected := true;
        tryingToConnect := false;
      } else if e.subType == NETWORK_PART {
        connected := false;
        stopClient := true;
      } else if e.subType == NETWORK_DATA_IN {
        HandleDataInEvent(e);
      }
    }
  }
}
