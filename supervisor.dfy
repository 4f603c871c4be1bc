/** The supervisor: the session state (join code, current question record,
    ordered pool of worker handles, last broadcast snapshot, operator
    connections and outstanding assistant requests) and one handler per
    inbound message. Handlers run one at a time, each to completion. */
module Supervisor {

  import opened Wrappers
  import opened Protocol
  import opened Answering
  import opened Snapshots
  import opened Validation
  import opened Worker
  import Framing

  /** How a handler leaves the operator connection it served. */
  datatype Reply = Kept | Closed(reason: string)

  /** A handle as created for a fresh worker process under `name`. */
  ghost predicate Reborn(b: Bot, name: string)
    reads b
  {
    b.wantedName == name && b.View() == Spawned(name) && b.buffer == ""
    && b.outbox == [] && b.Healthy()
  }

  /** A new worker handle under `name`, with the leader listeners attached
      when `leads`. */
  method Spawn(name: string, leads: bool) returns (b: Bot)
    ensures fresh(b) && Reborn(b, name) && b.leader == leads
  {
    b := new Bot(name);
    if leads {
      b.InstallLeader();
    }
  }

  function IsJoined(v: BotView): bool { v.joined }

  function IsChallenged(v: BotView): bool { v.a2f }

  class Session {
    /** The shared operator token. */
    const token: string
    var code: Option<string>
    var question: Option<Question>
    var bots: seq<Bot>
    var lastState: Option<Snapshot>
    var clients: map<ConnId, Conn>
    /** Assistant requests not yet answered: the answer labels each was
        asked with, in the order they were sent. */
    var pending: seq<seq<string>>
    /** Join retry intervals started by `ready` events and not yet cleared,
        each bound to the handle whose event started it. An interval outlives
        the removal of its handle. */
    var retries: seq<Bot>

    /** The per-slot views, in slot order. */
    function Views(): (r: seq<BotView>)
      reads this`bots, bots
      ensures |r| == |bots|
      ensures forall i :: 0 <= i < |bots| ==> r[i] == bots[i].View()
    {
      var bs := bots;
      seq(|bs|, i reads bs requires 0 <= i < |bs| => bs[i].View())
    }

    /** The snapshot of the current state. */
    function Snap(): Snapshot
      reads this`code, this`question, this`bots, bots
    {
      Snapshot(code, question, Views())
    }

    /** The pool's shape: no handle twice, exactly slot 0 carries the leader
        listeners, and every pooled process is alive with no complete line
        left unprocessed. */
    ghost predicate Pool()
      reads this`bots, bots
    {
      (forall i, j :: 0 <= i < j < |bots| ==> bots[i] != bots[j])
      && (forall i :: 0 <= i < |bots| ==> (bots[i].leader <==> i == 0))
      && (forall i :: 0 <= i < |bots| ==> bots[i].Healthy())
    }

    /** Between handlers: the pool is well-formed, operators have been sent the
        current snapshot, and an outstanding assistant request implies a
        question record. */
    ghost predicate Valid()
      reads this`code, this`question, this`bots, this`lastState, this`pending, bots
    {
      Pool() && lastState == Some(Snap()) && (|pending| > 0 ==> question.Some?)
    }

    /** The state at start-up, after the initial state synchronisation (no
        operator is connected yet, so nothing is pushed). */
    constructor (token: string)
      ensures Valid() && this.token == token
      ensures code.None? && question.None? && bots == [] && clients == map[] && pending == [] && retries == []
    {
      this.token := token;
      code, question, bots := None, None, [];
      clients, pending, retries := map[], [], [];
      lastState := Some(Snapshot(None, None, []));
    }

    /** State synchronisation: push the snapshot if it changed. */
    method SendState()
      modifies this`lastState, this`clients
      ensures Published(lastState, clients) == Sync(old(lastState), old(clients), Snap())
      ensures lastState == Some(Snap())
    {
      var next := Snap();
      if lastState == Some(next) {
        return;
      }
      lastState := Some(next);
      clients := Broadcast(clients, State(Some(next)));
    }

    /** Some slot waits for a two-factor answer. */
    predicate AnyWaiting()
      reads this, bots
    {
      exists i :: 0 <= i < |bots| && bots[i].a2f
    }

    /** What validating a command from connection `id` consults. The
        two-factor failure test is the one the handler performs as written,
        which never sees a reported failure. */
    function Ctx(id: ConnId): Context
      requires id in clients
      reads this, bots
    {
      Context(token, clients[id].logged, AnyWaiting(), A2fFailedAsRead, question, |bots|)
    }

    /** A new operator connection, not logged in. */
    method Connect(id: ConnId)
      requires id !in clients
      modifies this`clients
      ensures clients == old(clients)[id := Conn(false, [])]
    {
      clients := clients[id := Conn(false, [])];
    }

    /** The grace timer of connection `id` expires: a connection still not
        logged in is closed; a logged or already closed one is left alone. */
    method LoginTimeout(id: ConnId) returns (reply: Reply)
      modifies this`clients
      ensures id in old(clients) && !old(clients)[id].logged ==> reply == Closed(PleaseLogin) && clients == old(clients) - {id}
      ensures !(id in old(clients) && !old(clients)[id].logged) ==> reply == Kept && clients == old(clients)
    {
      if id in clients && !clients[id].logged {
        clients := clients - {id};
        return Closed(PleaseLogin);
      }
      return Kept;
    }

    /** Appends `c` to the outbox of exactly the slots whose view satisfies
        `sel`, in slot order; nothing else changes. */
    method SendWhere(sel: BotView -> bool, c: Command)
      requires Pool()
      modifies bots`outbox
      ensures Pool() && Views() == old(Views())
      ensures forall i :: 0 <= i < |bots| ==> bots[i].outbox == old(bots[i].outbox) + (if sel(bots[i].View()) then [c] else [])
    {
      var i := 0;
      while i < |bots|
        invariant 0 <= i <= |bots|
        invariant forall j :: 0 <= j < i ==> bots[j].outbox == old(bots[j].outbox) + (if sel(bots[j].View()) then [c] else [])
        invariant forall j :: i <= j < |bots| ==> bots[j].outbox == old(bots[j].outbox)
        invariant forall j :: 0 <= j < |bots| ==> bots[j].View() == old(bots[j].View())
        invariant Pool()
      {
        if sel(bots[i].View()) {
          bots[i].Send(c);
        }
        i := i + 1;
      }
      assert Views() == old(Views());
    }

    /** LOGIN accepted: the connection is logged and is sent `LOGGED` and
        then the last snapshot, changed or not. */
    method Login(id: ConnId)
      requires id in clients
      modifies this`clients
      ensures LoggedIn(id)
    {
      clients := clients[id := Conn(true, clients[id].inbox + [Logged, State(lastState)])];
    }

    /** Replaces every slot in place by a fresh worker with the same wanted
        name, killing the old one; the new slot 0 gets the leader listeners. */
    method RestartPool()
      requires Pool()
      modifies this`bots, bots`killed
      ensures Pool() && |bots| == |old(bots)|
      ensures forall i :: 0 <= i < |bots| ==> fresh(bots[i]) && Reborn(bots[i], old(bots[i].wantedName))
      ensures forall i :: 0 <= i < |old(bots)| ==> old(bots)[i].killed
    {
      var i := 0;
      while i < |bots|
        invariant 0 <= i <= |bots| == |old(bots)|
        invariant forall j :: 0 <= j < i ==> fresh(bots[j]) && Reborn(bots[j], old(bots[j].wantedName)) && old(bots)[j].killed
        invariant forall j :: i <= j < |bots| ==> bots[j] == old(bots)[j]
        invariant Pool()
      {
        var retired := bots[i];
        retired.Remove();
        var b := Spawn(retired.wantedName, i == 0);
        bots := bots[i := b];
        i := i + 1;
      }
    }

    /** SET_CODE accepted: with a truthy code already set the whole pool is
        restarted in place; then the new code is stored and the state synced. */
    method SetCode(c: string)
      requires Valid()
      modifies this`code, this`bots, this`lastState, this`clients, bots`killed
      ensures Valid() && CodeSet(c)
      ensures Truthy(old(code)) ==> forall i :: 0 <= i < |old(bots)| ==> old(bots)[i].killed
    {
      if Truthy(code) {
        RestartPool();
      }
      StoreCode(c);
    }

    /** Stores the join code and syncs the state. */
    method StoreCode(c: string)
      requires Pool() && (|pending| > 0 ==> question.Some?)
      modifies this`code, this`lastState, this`clients
      ensures Valid() && code == Some(c)
      ensures Published(lastState, clients) == Sync(old(lastState), old(clients), Snap())
    {
      code := Some(c);
      SendState();
    }

    /** ADD_BOT accepted: a fresh worker is appended; it leads only if the pool
        was empty. */
    method AddBot(name: string)
      requires Valid()
      modifies this`bots, this`lastState, this`clients
      ensures Valid() && Added(name)
    {
      var b := Spawn(name, |bots| == 0);
      bots := bots + [b];
      assert Pool();
      SendState();
    }

    /** REMOVE_BOT accepted: the slot's worker is killed and the slot removed,
        the other slots keep their order; if slot 0 went and a slot remains,
        the new slot 0 gets the leader listeners. */
    method RemoveBot(slot: nat)
      requires Valid() && slot < |bots|
      modifies this`bots, this`lastState, this`clients, bots`killed, bots`leader
      ensures Valid() && Removed(slot)
      ensures old(bots)[slot].killed && old(bots)[slot].leader == old(bots[slot].leader)
      ensures forall b :: b in old(bots) ==> b.outbox == old(b.outbox)
    {
      RetireSlot(slot);
      SendState();
    }

    /** Kills slot `slot` and closes the gap; the new slot 0 leads. */
    method RetireSlot(slot: nat)
      requires Pool() && slot < |bots|
      modifies this`bots, bots`killed, bots`leader
      ensures Pool()
      ensures bots == old(bots[..slot] + bots[slot + 1..])
      ensures old(bots)[slot].killed && old(bots)[slot].leader == old(bots[slot].leader)
      ensures Views() == old(Views()[..slot] + Views()[slot + 1..])
      ensures forall b :: b in old(bots) ==> b.outbox == old(b.outbox)
    {
      var retired := bots[slot];
      bots := bots[..slot] + bots[slot + 1..];
      assert forall j :: 0 <= j < |bots| ==> bots[j] == old(bots)[if j < slot then j else j + 1];
      assert Views() == old(Views()[..slot] + Views()[slot + 1..]);
      retired.Remove();
      if slot == 0 && |bots| > 0 {
        Lead();
      }
    }

    /** Attaches the leader listeners to slot 0, whose handle had none. */
    method Lead()
      requires |bots| > 0 && !bots[0].leader
      requires forall i, j :: 0 <= i < j < |bots| ==> bots[i] != bots[j]
      requires forall i :: 1 <= i < |bots| ==> !bots[i].leader && bots[i].Healthy()
      requires bots[0].Healthy()
      modifies {bots[0]}`leader
      ensures Pool() && Views() == old(Views())
      ensures bots[0].outbox == old(bots[0].outbox)
    {
      bots[0].InstallLeader();
      assert Views() == old(Views());
    }

    /** A2F accepted: the symbols go to exactly the slots waiting for them. */
    method RelayA2f(symbols: seq<string>)
      requires Valid()
      modifies bots`outbox
      ensures Valid() && Relayed(symbols)
    {
      SendWhere(IsChallenged, SendA2f(symbols));
    }

    /** The answer write shared by ANSWER and the assistant reply: record the
        index, sync the state, and send it to exactly the joined slots. */
    method WriteAnswer(idx: int)
      requires Valid() && question.Some?
      modifies this`question, this`lastState, this`clients, bots`outbox
      ensures Valid() && Answered(idx)
    {
      question := Some(Record(question.value, idx));
      SendState();
      SendWhere(IsJoined, Answer(idx));
    }

    /** One operator command from connection `id`: validated in order, closing
        the connection with the first failing check's reason and changing
        nothing else; otherwise carried out. */
    method HandleCommand(id: ConnId, command: string, msg: Message) returns (reply: Reply)
      requires Valid() && id in clients
      modifies this`code, this`question, this`bots, this`lastState, this`clients,
        bots`outbox, bots`killed, bots`leader
      ensures Valid()
      ensures var v := Validate(command, msg, old(Ctx(id)));
        v.Reject? ==> (reply == Closed(v.reason) && clients == old(clients) - {id}
          && code == old(code) && question == old(question) && bots == old(bots) && lastState == old(lastState)
          && Views() == old(Views()) && forall i :: 0 <= i < |bots| ==> bots[i].outbox == old(bots[i].outbox))
      ensures var v := Validate(command, msg, old(Ctx(id)));
        v.Accept? ==> (reply == Kept && Performed(id, v.value)
          && forall b :: b in Retired(v.value, old(code), old(bots)) ==>
            b.killed && b.leader == old(b.leader) && b.outbox == old(b.outbox))
    {
      var verdict := Validate(command, msg, Ctx(id));
      if verdict.Reject? {
        clients := clients - {id};
        return Closed(verdict.reason);
      }
      reply := Kept;
      Perform(id, verdict.value);
    }

    /** The workers an accepted command retires: the removed slot's, or on a
        code change with a code already set, the whole pool. */
    static function Retired(a: Action, code: Option<string>, pool: seq<Bot>): seq<Bot>
    {
      if a.DoRemove? && a.slot < |pool| then [pool[a.slot]]
      else if a.DoSetCode? && Truthy(code) then pool
      else []
    }

    /** LOGIN's effect: the connection is logged and is sent `LOGGED`, then
        the last snapshot, changed or not; nothing else changes. */
    twostate predicate LoggedIn(id: ConnId)
      reads this, bots
    {
      id in old(clients)
      && clients == old(clients)[id := Conn(true, old(clients[id].inbox) + [Logged, State(lastState)])]
      && lastState == old(lastState) && code == old(code) && question == old(question)
      && bots == old(bots) && Views() == old(Views())
      && forall i :: 0 <= i < |bots| ==> bots[i].outbox == old(bots[i].outbox)
    }

    /** SET_CODE's effect: with a truthy code already set, every slot holds a
        fresh worker with the old slot's wanted name; otherwise the pool is
        untouched. The code is stored and the state synced. */
    twostate predicate CodeSet(c: string)
      reads this, bots
    {
      code == Some(c) && question == old(question) && pending == old(pending) && |bots| == |old(bots)|
      && (Truthy(old(code)) ==> forall i :: 0 <= i < |bots| ==>
        fresh(bots[i]) && Reborn(bots[i], old(bots[i].wantedName)))
      && (!Truthy(old(code)) ==> (bots == old(bots) && Views() == old(Views())
        && forall i :: 0 <= i < |bots| ==> bots[i].outbox == old(bots[i].outbox)))
      && Published(lastState, clients) == Sync(old(lastState), old(clients), Snap())
    }

    /** ADD_BOT's effect: a fresh worker with the given wanted name is
        appended, the earlier slots are unchanged, and the state is synced. */
    twostate predicate Added(name: string)
      reads this, bots
    {
      |bots| == |old(bots)| + 1 && bots[..|old(bots)|] == old(bots)
      && fresh(bots[|bots| - 1]) && Reborn(bots[|bots| - 1], name)
      && Views()[..|old(bots)|] == old(Views())
      && (forall i :: 0 <= i < |old(bots)| ==> bots[i].outbox == old(bots[i].outbox))
      && code == old(code) && question == old(question) && pending == old(pending)
      && Published(lastState, clients) == Sync(old(lastState), old(clients), Snap())
    }

    /** A2F's effect: the symbols are sent to exactly the slots waiting for
        them; nothing else changes. */
    twostate predicate Relayed(symbols: seq<string>)
      reads this, bots
    {
      bots == old(bots) && Views() == old(Views())
      && (forall i :: 0 <= i < |bots| ==>
        bots[i].outbox == old(bots[i].outbox) + (if bots[i].a2f then [SendA2f(symbols)] else []))
      && code == old(code) && question == old(question) && lastState == old(lastState) && clients == old(clients)
    }

    /** The effect of an answer write: the index is recorded, the state
        synced, and the index sent to exactly the joined slots. */
    twostate predicate Answered(idx: int)
      reads this, bots
    {
      old(question).Some? && question == Some(Record(old(question).value, idx))
      && bots == old(bots) && Views() == old(Views())
      && (forall i :: 0 <= i < |bots| ==>
        bots[i].outbox == old(bots[i].outbox) + (if bots[i].joined then [Answer(idx)] else []))
      && code == old(code) && pending == old(pending)
      && Published(lastState, clients) == Sync(old(lastState), old(clients), Snap())
    }

    /** REMOVE_BOT's effect: exactly that slot is gone, the others keep their
        order and views, and the state is synced. */
    twostate predicate Removed(slot: nat)
      reads this, bots
    {
      slot < |old(bots)| && bots == old(bots[..slot] + bots[slot + 1..])
      && Views() == old(Views()[..slot] + Views()[slot + 1..])
      && (forall i :: 0 <= i < |bots| ==> bots[i].outbox == old(bots[if i < slot then i else i + 1].outbox))
      && code == old(code) && question == old(question) && pending == old(pending)
      && Published(lastState, clients) == Sync(old(lastState), old(clients), Snap())
    }

    /** The whole effect of an accepted command, but for the killing of the
        workers it retires, which `Retired` names. */
    twostate predicate Performed(id: ConnId, a: Action)
      reads this, bots
    {
      match a
      case DoLogin => LoggedIn(id)
      case DoSetCode(c) => CodeSet(c)
      case DoAddBot(name) => Added(name)
      case DoA2f(symbols) => Relayed(symbols)
      case DoAnswer(idx) => Answered(idx)
      case DoRemove(slot) => Removed(slot)
    }

    /** Carries out an accepted command. */
    method Perform(id: ConnId, a: Action)
      requires Valid() && id in clients
      requires a.DoRemove? ==> a.slot < |bots|
      requires a.DoAnswer? ==> question.Some?
      modifies this`code, this`question, this`bots, this`lastState, this`clients,
        bots`outbox, bots`killed, bots`leader
      ensures Valid() && Performed(id, a)
      ensures forall b :: b in Retired(a, old(code), old(bots)) ==>
        b.killed && b.leader == old(b.leader) && b.outbox == old(b.outbox)
    {
      match a {
        case DoLogin => Login(id);
        case DoSetCode(c) => SetCode(c);
        case DoAddBot(name) => AddBot(name);
        case DoA2f(symbols) => RelayA2f(symbols);
        case DoAnswer(idx) => WriteAnswer(idx);
        case DoRemove(slot) => RemoveBot(slot);
      }
    }

    /** The leader's `question` listener: a fresh record replaces the current
        one, the state is synced, and an assistant request is queued when the
        question text is truthy. */
    method LeaderQuestion(e: Event)
      requires Valid() && e.Asked?
      modifies this`question, this`lastState, this`clients, this`pending
      ensures Valid()
      ensures question == Some(NewRecord(e))
      ensures pending == old(pending) + (if Truthy(e.text) then [e.answers] else [])
      ensures Published(lastState, clients) == Sync(old(lastState), old(clients), Snap())
    {
      question := Some(NewRecord(e));
      SendState();
      if Truthy(e.text) {
        pending := pending + [e.answers];
      }
    }

    /** The leader's `end` listener: with a record present, the verdict is
        stored and the state synced; without one nothing happens. */
    method LeaderEnd(correct: bool)
      requires Valid()
      modifies this`question, this`lastState, this`clients
      ensures Valid()
      ensures question == if old(question).Some? then Some(EndRound(old(question).value, correct)) else old(question)
      ensures Published(lastState, clients) == Sync(old(lastState), old(clients), Snap())
    {
      if question.Some? {
        question := Some(EndRound(question.value, correct));
        SendState();
      }
    }

    /** Applies an event to the flags of slot `i` and to nothing else. */
    method DispatchAt(i: nat, e: Event)
      requires Pool() && i < |bots|
      modifies {bots[i]}`name, {bots[i]}`ready, {bots[i]}`joined, {bots[i]}`a2f, {bots[i]}`a2fFail
      ensures Pool()
      ensures bots[i].View() == Apply(old(bots[i].View()), e)
      ensures forall j :: 0 <= j < |bots| && j != i ==> bots[j].View() == old(bots[j].View())
      ensures bots[i].outbox == old(bots[i].outbox) && bots[i].buffer == old(bots[i].buffer)
    {
      bots[i].Dispatch(e);
    }

    /** An event that sets or clears flags: the common listeners sync the
        state; a two-factor reset also notifies the operators and `ready`
        starts a join retry timer. */
    method FlagEvent(i: nat, e: Event)
      requires Valid() && i < |bots|
      requires e.Ready? || e.A2fRequested? || e.A2fFailed? || e.A2fReset? || e.Joined?
      modifies this`lastState, this`clients, this`retries,
        {bots[i]}`name, {bots[i]}`ready, {bots[i]}`joined, {bots[i]}`a2f, {bots[i]}`a2fFail
      ensures Valid()
      ensures bots[i].View() == Apply(old(bots[i].View()), e)
      ensures forall j :: 0 <= j < |bots| && j != i ==> bots[j].View() == old(bots[j].View())
      ensures bots[i].outbox == old(bots[i].outbox) && bots[i].buffer == old(bots[i].buffer)
      ensures retries == old(retries) + (if e.Ready? then [bots[i]] else [])
      ensures var synced := Sync(old(lastState), old(clients), Snap()).clients;
        clients == if e.A2fReset? then Broadcast(synced, A2fResetNotice) else synced
    {
      DispatchAndSync(i, e);
      if e.Ready? {
        retries := retries + [bots[i]];
      } else if e.A2fReset? {
        clients := Broadcast(clients, A2fResetNotice);
      }
    }

    /** The common listeners' part of a flag event: the flags change and the
        state is synced. */
    method DispatchAndSync(i: nat, e: Event)
      requires Valid() && i < |bots|
      modifies this`lastState, this`clients,
        {bots[i]}`name, {bots[i]}`ready, {bots[i]}`joined, {bots[i]}`a2f, {bots[i]}`a2fFail
      ensures Valid()
      ensures bots[i].View() == Apply(old(bots[i].View()), e)
      ensures forall j :: 0 <= j < |bots| && j != i ==> bots[j].View() == old(bots[j].View())
      ensures bots[i].outbox == old(bots[i].outbox) && bots[i].buffer == old(bots[i].buffer)
      ensures Published(lastState, clients) == Sync(old(lastState), old(clients), Snap())
    {
      DispatchAt(i, e);
      SendState();
    }

    /** One decoded event from the worker in slot `i`: flag events go to the
        common listeners; `question` and `end` reach the leader's listeners
        when slot `i` is the leader; anything else is ignored. */
    method OnBotMessage(i: nat, e: Event)
      requires Valid() && i < |bots|
      modifies this`question, this`lastState, this`clients, this`pending, this`retries,
        {bots[i]}`name, {bots[i]}`ready, {bots[i]}`joined, {bots[i]}`a2f, {bots[i]}`a2fFail
      ensures Valid()
      ensures bots[i].View() == Apply(old(bots[i].View()), e)
      ensures forall j :: 0 <= j < |bots| && j != i ==> bots[j].View() == old(bots[j].View())
      ensures forall j :: 0 <= j < |bots| ==> bots[j].outbox == old(bots[j].outbox) && bots[j].buffer == old(bots[j].buffer)
      ensures retries == old(retries) + (if e.Ready? then [bots[i]] else [])
      ensures question ==
        if i == 0 && e.Asked? then Some(NewRecord(e))
        else if i == 0 && e.Ended? && old(question).Some? then Some(EndRound(old(question).value, e.correct))
        else old(question)
      ensures pending == old(pending) + (if i == 0 && e.Asked? && Truthy(e.text) then [e.answers] else [])
      ensures var synced := Sync(old(lastState), old(clients), Snap()).clients;
        clients == if e.A2fReset? then Broadcast(synced, A2fResetNotice) else synced
    {
      if e.Ready? || e.A2fRequested? || e.A2fFailed? || e.A2fReset? || e.Joined? {
        FlagEvent(i, e);
      } else {
        RoundEventsKeepFlags(bots[i].View(), e);
        RoundEvent(i == 0, e);
      }
    }

    /** A round event reaches the leader's listeners only from the leader;
        from any other slot it changes nothing. */
    method RoundEvent(leads: bool, e: Event)
      requires Valid()
      modifies this`question, this`lastState, this`clients, this`pending
      ensures Valid()
      ensures question ==
        if leads && e.Asked? then Some(NewRecord(e))
        else if leads && e.Ended? && old(question).Some? then Some(EndRound(old(question).value, e.correct))
        else old(question)
      ensures pending == old(pending) + (if leads && e.Asked? && Truthy(e.text) then [e.answers] else [])
      ensures Published(lastState, clients) == Sync(old(lastState), old(clients), Snap())
    {
      if e.Asked? && leads {
        LeaderQuestion(e);
      } else if e.Ended? && leads {
        LeaderEnd(e.correct);
      }
    }

    /** The worker in slot `i` exited: its exit flag is set and the state
        synced. */
    method OnBotExit(i: nat)
      requires Valid() && i < |bots|
      modifies this`lastState, this`clients, {bots[i]}`exited
      ensures Valid()
      ensures bots[i].View() == Exit(old(bots[i].View()))
      ensures forall j :: 0 <= j < |bots| && j != i ==> bots[j].View() == old(bots[j].View())
      ensures bots[i].outbox == old(bots[i].outbox) && bots[i].buffer == old(bots[i].buffer)
      ensures Published(lastState, clients) == Sync(old(lastState), old(clients), Snap())
    {
      bots[i].MarkExited();
      assert Pool();
      SendState();
    }

    /** A tick of retry interval `k`: with a truthy join code its worker is
        told to join under its wanted name and the interval is cleared;
        otherwise nothing happens. The worker may have left the pool. */
    method JoinTick(k: nat) returns (sent: bool)
      requires Valid() && k < |retries|
      modifies this`retries, {retries[k]}`outbox
      ensures Valid()
      ensures sent <==> Truthy(code)
      ensures retries == if sent then old(retries[..k] + retries[k + 1..]) else old(retries)
      ensures old(retries[k]).outbox == old(retries[k].outbox) + (if sent then [Join(code.value, old(retries[k].wantedName))] else [])
      ensures Views() == old(Views())
    {
      var b := retries[k];
      sent := Truthy(code);
      if sent {
        b.Send(Join(code.value, b.wantedName));
        retries := retries[..k] + retries[k + 1..];
        assert Views() == old(Views());
      }
    }

    /** The assistant's reply to pending request `k` arrives. The index is
        chosen against the labels the request was asked with; it is written to
        whichever record is current now, unless that record is settled, and
        then sent to exactly the joined slots. `pick` is the random fallback. */
    method OnAssistReply(k: nat, reply: Option<int>, pick: nat) returns (wrote: bool)
      requires Valid() && k < |pending| && (pick == 0 || pick < |pending[k]|)
      modifies this`pending, this`question, this`lastState, this`clients, bots`outbox
      ensures Valid()
      ensures pending == old(pending[..k] + pending[k + 1..])
      ensures wrote <==> !Settled(old(question).value)
      ensures wrote ==> Published(lastState, clients) == Sync(old(lastState), old(clients), Snap())
      ensures !wrote ==> lastState == old(lastState) && clients == old(clients)
      ensures question == Some(AutoWrite(old(question).value, ChooseAnswer(old(pending[k]), reply, pick)))
      ensures forall i :: 0 <= i < |bots| ==>
        bots[i].outbox == old(bots[i].outbox) + (if wrote && bots[i].joined then [Answer(ChooseAnswer(old(pending[k]), reply, pick))] else [])
      ensures Views() == old(Views())
    {
      var answers := pending[k];
      pending := pending[..k] + pending[k + 1..];
      var idx := ChooseAnswer(answers, reply, pick);
      var q := question.value;
      if Settled(q) {
        return false;
      }
      WriteAnswer(idx);
      wrote := true;
    }

    /** A chunk of output from the worker in slot `i`: the complete lines are
        cut off the buffer, and each that parses is handled in order; the
        decoded events are returned. */
    method OnBotOutput(i: nat, chunk: string, parse: string -> Option<Event>) returns (events: seq<Event>)
      requires Valid() && i < |bots|
      modifies this`question, this`lastState, this`clients, this`pending, this`retries,
        {bots[i]}`buffer, {bots[i]}`name, {bots[i]}`ready, {bots[i]}`joined, {bots[i]}`a2f, {bots[i]}`a2fFail
      ensures Valid()
      ensures forall j :: 0 <= j < |bots| && j != i ==> bots[j].View() == old(bots[j].View())
      ensures bots[i].buffer == Framing.Rest(old(bots[i].buffer) + chunk)
      ensures events == Framing.Decoded(Framing.Lines(old(bots[i].buffer) + chunk), parse)
    {
      var lines := Receive(i, chunk);
      events := [];
      var n := 0;
      while n < |lines|
        invariant 0 <= n <= |lines|
        invariant Valid()
        invariant forall j :: 0 <= j < |bots| && j != i ==> bots[j].View() == old(bots[j].View())
        invariant bots[i].buffer == Framing.Rest(old(bots[i].buffer) + chunk)
        invariant events == Framing.Decoded(lines[..n], parse)
      {
        Framing.DecodedAppend(lines[..n], [lines[n]], parse);
        assert lines[..n + 1] == lines[..n] + [lines[n]];
        match parse(lines[n]) {
          case Some(e) =>
            OnBotMessage(i, e);
            events := events + [e];
          case None =>
        }
        n := n + 1;
      }
      assert lines[..n] == lines;
    }

    /** One decoded event from a worker no longer in the pool (killed by
        REMOVE_BOT or by a restart). Its listeners are still attached: its
        flags change, `ready` starts a join retry, `a2freset` notifies the
        operators, and a former leader's `question` and `end` listeners still
        reach the current record. The pool is unchanged, so the state
        synchronisations of the flag listeners push nothing. */
    method OnStrayMessage(b: Bot, e: Event)
      requires Valid() && b !in bots
      modifies this`question, this`lastState, this`clients, this`pending, this`retries,
        b`name, b`ready, b`joined, b`a2f, b`a2fFail
      ensures Valid() && Views() == old(Views())
      ensures b.View() == Apply(old(b.View()), e)
      ensures b.outbox == old(b.outbox) && b.buffer == old(b.buffer) && b.leader == old(b.leader)
      ensures retries == old(retries) + (if e.Ready? then [b] else [])
      ensures question ==
        if b.leader && e.Asked? then Some(NewRecord(e))
        else if b.leader && e.Ended? && old(question).Some? then Some(EndRound(old(question).value, e.correct))
        else old(question)
      ensures pending == old(pending) + (if b.leader && e.Asked? && Truthy(e.text) then [e.answers] else [])
      ensures b.leader && (e.Asked? || e.Ended?) ==> Published(lastState, clients) == Sync(old(lastState), old(clients), Snap())
      ensures !(b.leader && (e.Asked? || e.Ended?)) ==> (lastState == old(lastState)
        && clients == if e.A2fReset? then Broadcast(old(clients), A2fResetNotice) else old(clients))
    {
      if e.Ready? || e.A2fRequested? || e.A2fFailed? || e.A2fReset? || e.Joined? {
        StrayFlagEvent(b, e);
      } else {
        RoundEventsKeepFlags(b.View(), e);
        RoundEvent(b.leader, e);
      }
    }

    /** The common listeners of a worker no longer in the pool. */
    method StrayFlagEvent(b: Bot, e: Event)
      requires Valid() && b !in bots
      requires e.Ready? || e.A2fRequested? || e.A2fFailed? || e.A2fReset? || e.Joined?
      modifies this`lastState, this`clients, this`retries,
        b`name, b`ready, b`joined, b`a2f, b`a2fFail
      ensures Valid() && Views() == old(Views())
      ensures b.View() == Apply(old(b.View()), e)
      ensures b.outbox == old(b.outbox) && b.buffer == old(b.buffer) && b.leader == old(b.leader)
      ensures retries == old(retries) + (if e.Ready? then [b] else [])
      ensures lastState == old(lastState)
      ensures clients == if e.A2fReset? then Broadcast(old(clients), A2fResetNotice) else old(clients)
    {
      StrayDispatchAndSync(b, e);
      if e.Ready? {
        retries := retries + [b];
      } else if e.A2fReset? {
        clients := Broadcast(clients, A2fResetNotice);
      }
    }

    /** The common listeners' part of a stray event: the flags change and the
        state synchronisation finds the snapshot unchanged. */
    method StrayDispatchAndSync(b: Bot, e: Event)
      requires Valid() && b !in bots
      modifies this`lastState, this`clients, b`name, b`ready, b`joined, b`a2f, b`a2fFail
      ensures Valid() && Views() == old(Views())
      ensures b.View() == Apply(old(b.View()), e)
      ensures b.outbox == old(b.outbox) && b.buffer == old(b.buffer) && b.leader == old(b.leader)
      ensures lastState == old(lastState) && clients == old(clients)
    {
      StrayDispatch(b, e);
      SendState();
    }

    /** Applies an event to the flags of a handle outside the pool; the pool
        and the session are untouched. */
    method StrayDispatch(b: Bot, e: Event)
      requires Valid() && b !in bots
      modifies b`name, b`ready, b`joined, b`a2f, b`a2fFail
      ensures Valid() && Views() == old(Views())
      ensures b.View() == Apply(old(b.View()), e)
      ensures b.outbox == old(b.outbox) && b.buffer == old(b.buffer) && b.leader == old(b.leader)
    {
      b.Dispatch(e);
      assert Views() == old(Views());
    }

    /** A worker no longer in the pool exits: its exit flag is set, and the
        state synchronisation that follows pushes nothing. */
    method OnStrayExit(b: Bot)
      requires Valid() && b !in bots
      modifies this`lastState, this`clients, b`exited
      ensures Valid() && Views() == old(Views())
      ensures b.View() == Exit(old(b.View()))
      ensures lastState == old(lastState) && clients == old(clients)
    {
      b.MarkExited();
      assert Views() == old(Views());
      SendState();
    }

    /** A chunk of output from a worker no longer in the pool: framed and
        decoded as for a pooled worker, each event handled by
        `OnStrayMessage`. */
    method OnStrayOutput(b: Bot, chunk: string, parse: string -> Option<Event>) returns (events: seq<Event>)
      requires Valid() && b !in bots
      modifies this`question, this`lastState, this`clients, this`pending, this`retries,
        b`buffer, b`name, b`ready, b`joined, b`a2f, b`a2fFail
      ensures Valid()
      ensures b.buffer == Framing.Rest(old(b.buffer) + chunk)
      ensures events == Framing.Decoded(Framing.Lines(old(b.buffer) + chunk), parse)
    {
      var lines := b.Feed(chunk);
      events := [];
      var n := 0;
      while n < |lines|
        invariant 0 <= n <= |lines|
        invariant Valid() && b !in bots
        invariant b.buffer == Framing.Rest(old(b.buffer) + chunk)
        invariant events == Framing.Decoded(lines[..n], parse)
      {
        Framing.DecodedAppend(lines[..n], [lines[n]], parse);
        assert lines[..n + 1] == lines[..n] + [lines[n]];
        match parse(lines[n]) {
          case Some(e) =>
            OnStrayMessage(b, e);
            events := events + [e];
          case None =>
        }
        n := n + 1;
      }
      assert lines[..n] == lines;
    }

    /** Appends a chunk to slot `i`'s buffer and cuts off its complete lines. */
    method Receive(i: nat, chunk: string) returns (lines: seq<string>)
      requires Valid() && i < |bots|
      modifies {bots[i]}`buffer
      ensures Valid()
      ensures lines == Framing.Lines(old(bots[i].buffer) + chunk)
      ensures bots[i].buffer == Framing.Rest(old(bots[i].buffer) + chunk)
    {
      lines := bots[i].Feed(chunk);
      Framing.RestHasNoNewline(old(bots[i].buffer) + chunk);
      assert Views() == old(Views());
    }
  }
}
