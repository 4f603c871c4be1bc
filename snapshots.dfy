/** The state broadcast to operator connections: a full snapshot of the
    session, pushed to logged connections only when it differs from the one
    pushed last. */
module Snapshots {

  import opened Wrappers
  import opened Protocol
  import opened Answering

  /** Everything an operator sees: the join code, the current question record
      and one view per pool slot, in slot order. */
  datatype Snapshot = Snapshot(code: Option<string>, question: Option<Question>, bots: seq<BotView>)

  /** Events the supervisor emits to an operator connection. */
  datatype ServerEvent = Logged | State(snapshot: Option<Snapshot>) | A2fResetNotice

  /** One operator connection: whether it has logged in, and what it has been
      sent so far, oldest first. */
  datatype Conn = Conn(logged: bool, inbox: seq<ServerEvent>)

  type ConnId = nat

  /** Sends `ev` to every logged connection; the others receive nothing. */
  function Broadcast(clients: map<ConnId, Conn>, ev: ServerEvent): map<ConnId, Conn>
  {
    map id | id in clients :: if clients[id].logged then clients[id].(inbox := clients[id].inbox + [ev]) else clients[id]
  }

  /** A broadcast reaches exactly the logged connections, appending the event
      to each of their inboxes; no connection is added or dropped. */
  lemma BroadcastReachesLogged(clients: map<ConnId, Conn>, ev: ServerEvent)
    ensures Broadcast(clients, ev).Keys == clients.Keys
    ensures forall id :: id in clients && clients[id].logged ==> Broadcast(clients, ev)[id] == Conn(true, clients[id].inbox + [ev])
    ensures forall id :: id in clients && !clients[id].logged ==> Broadcast(clients, ev)[id] == clients[id]
  {
  }

  /** The outcome of one state synchronisation: the last snapshot pushed and
      the connections afterwards. */
  datatype Published = Published(last: Option<Snapshot>, clients: map<ConnId, Conn>)

  /** Pushes `next` when it differs structurally from the last snapshot pushed;
      otherwise nothing is sent. In both cases `next` is the last snapshot
      afterwards. */
  function Sync(last: Option<Snapshot>, clients: map<ConnId, Conn>, next: Snapshot): Published
  {
    if last == Some(next) then Published(last, clients)
    else Published(Some(next), Broadcast(clients, State(Some(next))))
  }

  /** After a synchronisation `next` is the last snapshot pushed, no
      connection is added or dropped, and a connection gains the `STATE` event
      carrying `next` exactly when it is logged and `next` differs from the
      last snapshot pushed; otherwise it is left as it was. */
  lemma SyncDelivers(last: Option<Snapshot>, clients: map<ConnId, Conn>, next: Snapshot, id: ConnId)
    requires id in clients
    ensures Sync(last, clients, next).last == Some(next)
    ensures Sync(last, clients, next).clients.Keys == clients.Keys
    ensures Sync(last, clients, next).clients[id] ==
      if clients[id].logged && last != Some(next) then Conn(true, clients[id].inbox + [State(Some(next))])
      else clients[id]
  {
    BroadcastReachesLogged(clients, State(Some(next)));
  }

  /** The number of `STATE` events in an inbox. */
  function StateCount(inbox: seq<ServerEvent>): (n: nat)
    ensures n <= |inbox|
  {
    if inbox == [] then 0 else (if inbox[|inbox| - 1].State? then 1 else 0) + StateCount(inbox[..|inbox| - 1])
  }

  lemma {:induction false} StateCountAppend(inbox: seq<ServerEvent>, ev: ServerEvent)
    ensures StateCount(inbox + [ev]) == StateCount(inbox) + (if ev.State? then 1 else 0)
  {
    assert (inbox + [ev])[..|inbox|] == inbox;
  }

  /** Two synchronisations with the same snapshot and nothing changed in
      between push it exactly once: each logged connection gains one `STATE`
      event if the snapshot is new and none if it was already the last one,
      and unlogged connections gain nothing. */
  lemma SyncTwicePushesOnce(last: Option<Snapshot>, clients: map<ConnId, Conn>, next: Snapshot, id: ConnId)
    requires id in clients
    ensures var twice := Sync(Sync(last, clients, next).last, Sync(last, clients, next).clients, next);
      id in twice.clients &&
      StateCount(twice.clients[id].inbox)
        == StateCount(clients[id].inbox) + (if clients[id].logged && last != Some(next) then 1 else 0)
  {
    var once := Sync(last, clients, next);
    assert Sync(once.last, once.clients, next) == once;
    if clients[id].logged && last != Some(next) {
      StateCountAppend(clients[id].inbox, State(Some(next)));
    }
  }
}
