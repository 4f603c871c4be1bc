# Kahoot bots supervisor — a verified model

This project models the supervisor process of the Kahoot bots backend (`index.js`).
The supervisor has three parts:

- a pool of worker processes, each of which plays the quiz in a browser;
- operator connections over a WebSocket;
- an assistant that suggests answers.

The supervisor reacts to one message at a time, and each handler runs to completion. The model covers:

- **Framing** (`framing.dfy`): the worker stdout buffer. Complete newline-terminated lines are cut off its front, and lines that do not parse are skipped.
- **Protocol** (`protocol.dfy`): the worker events and commands, and the flag updates each event makes.
- **Worker** (`worker.dfy`): the `Bot` handle. It holds mutable flags, the stdout buffer, the commands written to the worker's stdin (`outbox`), the `killed` flag of the process, and whether the leader's listeners are attached.
- **Answering** (`answering.dfy`): the record of the current question. This covers:
  - creating a fresh record when a question arrives;
  - choosing an index from the assistant's reply;
  - writing the answer at most once (first writer wins);
  - storing the verdict at the end of the round.
- **Snapshots** (`snapshots.dfy`): `sendState`. It builds a snapshot of the session and pushes it to logged operators only when it differs from the last snapshot pushed.
- **Validation** (`validation.dfy`): the operator command checks. Each command is checked in the source's order, and the first failing check gives the reason the connection is closed with.
- **Supervisor** (`supervisor.dfy`): the `Session` class and one method per inbound message:
  - an operator command;
  - a connection opening, and its login timer expiring;
  - a worker output chunk, and a worker exit;
  - the same two for a worker that has left the pool, whose listeners stay attached;
  - a join-retry tick;
  - an assistant reply.

  Between handlers the class keeps the invariant `Valid()`:
  - no handle appears twice in the pool;
  - exactly slot 0 carries the leader listeners;
  - no pooled process has been killed (one that exited by itself stays in the pool), and none has a complete line left in its buffer;
  - the last snapshot pushed is the current state;
  - an outstanding assistant request implies that a question record exists.

## Model

| member | source | states |
|---|---|---|
| Framing.FirstNewline | index.js:69-70 | the first line ends at the returned position, which holds a newline; no newline comes before it |
| Framing.SplitStep | index.js:70-71 | one step splits the buffer into a newline-free line, its newline and the remainder, and the later lines are those of the remainder |
| Framing.FramingRoundTrip | index.js:66-80 | the lines taken, each followed by a newline and in order, then the remaining buffer, concatenate back to the old buffer plus the chunk |
| Framing.RestHasNoNewline | index.js:69 | the buffer left after a chunk holds no newline |
| Framing.LinesHaveNoNewline | index.js:70 | no line taken contains a newline |
| Framing.SplitOfFramed | index.js:66-80 | converse of the round trip: framing newline-free lines and a newline-free tail, then splitting, gives back exactly those lines and that tail |
| Framing.DecodedAppend | index.js:72-78 | decoding is line by line: decoding two runs of lines is decoding each and concatenating the messages, in order |
| Framing.GarbageLineSkipped | index.js:73-77 | a line that fails to parse is dropped, and the lines before and after it decode as if it were absent |
| Protocol.Apply | index.js:84-109 | `ready` sets ready; `a2f` sets a2f; `a2ffail` sets a2fFail; `a2freset` clears a2fFail; `joined` sets joined, takes the message's name and clears a2f; every flag is changed by those events only, and never the wanted name or the exit flag |
| Protocol.RoundEventsKeepFlags | index.js:103-108 | `question`, `playing`, `end` and unknown events change no flag |
| Protocol.ApplyIdempotent | index.js:84-102 | receiving an event twice has the effect of receiving it once |
| Protocol.Exit | index.js:111-114 | process exit sets the exit flag and changes nothing else |
| Worker.Bot.constructor | index.js:53-66 | a new handle has the wanted name it was created with, the flags of a fresh worker, an empty buffer, nothing sent, a live process and no leader listeners |
| Worker.Bot.Feed | index.js:66-80 | the buffer loop returns exactly the complete lines of old buffer plus chunk, in order, and leaves exactly the remainder in the buffer |
| Worker.Bot.Dispatch | index.js:84-109 | the flags after an event are those `Protocol.Apply` gives |
| Worker.Bot.MarkExited | index.js:111-114 | the flags after process exit are those `Protocol.Exit` gives |
| Worker.Bot.Send | index.js:117-135 | a command is appended to the worker's input as one line, after every earlier one |
| Worker.Bot.Remove | index.js:129-131 | the process is killed |
| Worker.Bot.InstallLeader | index.js:138-140 | the leader's listeners are attached to a handle that had none |
| Answering.NewRecord | index.js:142-151 | a question event creates a record with the event's fields, no answer, no verdict, and an assistant request pending exactly when the question text is non-empty |
| Answering.ChooseAnswer | index.js:172-178 | the index is reply−1 when that label exists and is non-empty, otherwise the random fallback; with labels present it is in range, and with none it is 0 |
| Answering.Record | index.js:184-185 | recording an index sets it as the answer, clears the pending flag and changes no other field |
| Answering.AutoWrite | index.js:182-186 | the assistant's write leaves a record that has an answer or a verdict unchanged; otherwise it records the index, clears the pending flag and changes no other field; the record is settled afterwards |
| Answering.EndRound | index.js:191-196 | `end` stores the verdict, clears the pending flag and changes no other field |
| Answering.FirstWriterWins | index.js:182 | once an answer is recorded, a later assistant write leaves it as it was |
| Answering.StaleAfterEnd | index.js:182 | an assistant reply arriving after the round ended leaves the record as it was |
| Snapshots.BroadcastReachesLogged | index.js:47 | a broadcast appends the event to exactly the logged connections' inboxes, and no connection is added or dropped |
| Snapshots.SyncDelivers | index.js:31-48 | after sync the new snapshot is the last one pushed; a connection gains one STATE event carrying it exactly when it is logged and the snapshot differs structurally from the last one; every other connection is unchanged |
| Snapshots.SyncTwicePushesOnce | index.js:45-47 | two syncs with nothing changed in between push the snapshot at most once to each connection, once exactly when it is logged and the snapshot is new |
| Validation.Field | index.js:230 | a field is absent (`undefined`) exactly when the message lacks the key, and otherwise has the message's value |
| Validation.UniqueIffDistinct | index.js:337-340 | the set-size duplicate test agrees with pairwise distinctness, in both directions |
| Validation.Strings | index.js:327-331 | an array whose items are all strings yields those strings, in order |
| Validation.CheckLogin | index.js:228-243 | LOGIN is accepted exactly when the token is the configured string; otherwise it is rejected with "Missing token", "Token must be a string" or "Invalid token", checked in that order |
| Validation.CheckCode | index.js:249-269 | SET_CODE is accepted exactly when logged and the code is a string of at most 8 decimal digits; otherwise "Please login", "Missing code", "Code must be a string" and "Invalid code" are each tied to their condition, in that order |
| Validation.CheckName | index.js:283-298 | ADD_BOT is accepted exactly when logged and the name is a string; otherwise "Please login", "Missing name" and "Name must be a string" are each tied to their condition, in that order |
| Validation.CheckA2f | index.js:305-350 | A2F is accepted exactly when logged, the payload is four distinct symbols, some slot waits and none has failed; the accepted sequence is the payload itself; each of the nine reasons ("Please login", missing, not an array, not 4 elements, a non-string, an unknown symbol, duplicates, no slot waiting, a failure) is tied to its condition, in the source's order |
| Validation.CheckA2fAsWritten | index.js:342-350 | as written, the failure test never rejects: acceptance does not depend on any reported failure |
| Validation.A2fFailureIgnoredAsWritten | index.js:347-350 | a well-formed payload, sent while one slot waits and one has reported a failure, is accepted as written but rejected with "A2f failed" by the intended check |
| Validation.CheckAnswer | index.js:354-384 | ANSWER is accepted exactly when logged, the answer is a number in [0, answersCount), a record exists and it has no answer; otherwise "Please login", "Missing answer", "Answer must be a number", "No question", "Invalid answer" and "Question already answered" are each tied to their condition, in that order |
| Validation.CheckRemove | index.js:392-413 | REMOVE_BOT is accepted exactly when logged and the id is a number naming an existing slot; otherwise "Please login", "Missing id", "Id must be a number" and "Invalid id" are each tied to their condition, in that order |
| Validation.Validate | index.js:226-421 | an accepted removal names an existing slot; an accepted answer is in range for an unanswered current record |
| Validation.LoginGate | index.js:226-421 | an unlogged connection gets "Please login" on every known command except LOGIN, before any field is read; an unknown command gets "Unknown command"; only LOGIN can be accepted from an unlogged connection, and exactly when it carries the configured token |
| Validation.AnswerAtMostOnce | index.js:381-384 | an ANSWER is never accepted once the record holds an answer, whoever wrote it |
| Supervisor.Spawn | index.js:199-216 | a new handle is fresh, carries the given wanted name, looks like a just-spawned worker, and carries the leader listeners exactly when asked |
| Supervisor.Session.Views | index.js:35-43 | the snapshot holds one view per slot, in slot order |
| Supervisor.Session.constructor | index.js:26-30 | start-up: no code, no question, an empty pool, no connection, and the snapshot of that state recorded as the last one pushed, as the initial `sendState()` at index.js:424 leaves it (nothing is pushed, since no operator is connected) |
| Supervisor.Session.SendState | index.js:31-48 | the last snapshot and the connections afterwards are exactly those `Snapshots.Sync` gives for the current state |
| Supervisor.Session.Connect | index.js:220 | a new connection starts unlogged, with an empty inbox |
| Supervisor.Session.LoginTimeout | index.js:221-224 | when the timer expires, a connection still unlogged is closed with "Please login"; otherwise nothing changes |
| Supervisor.Session.SendWhere | index.js:390 | a command is appended to exactly the slots whose view satisfies the selector; only outboxes change, so no flag and no buffer changes |
| Supervisor.Session.Login | index.js:245-247 | `LoggedIn`: the connection becomes logged and is sent LOGGED, then the last snapshot, even if unchanged; nothing else changes |
| Supervisor.Session.RestartPool | index.js:271-278 | every slot is replaced in place by a fresh worker with the same wanted name, and the old worker is killed; the pool length is unchanged and the new slot 0 leads; of the old workers only the killed flag can change |
| Supervisor.Session.SetCode | index.js:249-281 | `CodeSet`: with a non-empty previous code every slot holds a fresh worker with the old slot's wanted name and the old workers are killed; otherwise no slot, view or outbox changes; only killed flags are in the frame, so no buffer or leader flag changes; then the new code is stored and the state synced |
| Supervisor.Session.StoreCode | index.js:280-281 | the code is stored and the state synced |
| Supervisor.Session.AddBot | index.js:300-303 | `Added`: a fresh worker with the given wanted name is appended and the earlier slots and their views are unchanged; the new worker leads only when the pool was empty (pool invariant); the state is synced |
| Supervisor.Session.RemoveBot | index.js:409-418 | `Removed`: the slot's worker is killed, keeps its leader listeners or their absence, and exactly that slot is removed; the others keep their order, views and sent commands; only killed and leader flags are in the frame, so no buffer changes; the state is synced |
| Supervisor.Session.RetireSlot | index.js:415-417 | exactly that slot is removed and killed, the removed worker keeps its leader listeners or their absence, and a new slot 0 receives the leader listeners; only killed and leader flags can change, so no view, buffer or sent command changes |
| Supervisor.Session.Lead | index.js:417 | after the leader listeners are re-installed on slot 0, the pool invariant holds again; only slot 0's leader flag can change |
| Supervisor.Session.RelayA2f | index.js:352 | `Relayed`: the symbols are sent to exactly the slots with a pending challenge; only outboxes change |
| Supervisor.Session.WriteAnswer | index.js:386-390 | `Answered`: the index is recorded as the answer, the state is synced, and then the index is sent to exactly the joined slots; only outboxes of the pool change |
| Supervisor.Session.HandleCommand | index.js:226-421 | a rejected command closes the connection with the first failing check's reason and changes nothing else; an accepted command keeps the connection, has its action's whole effect (`Performed`) and kills the workers it retires, which are sent nothing and keep their leader listeners or their absence; only outboxes, killed and leader flags of the pool are in the frame, so no buffer or view changes beyond what `Performed` says; as written, the two-factor failure test never rejects (`Ctx` passes `A2fFailedAsRead`) |
| Supervisor.Session.Perform | index.js:245-418 | `Performed`: each accepted action has the whole effect its handler states (`LoggedIn`, `CodeSet`, `Added`, `Relayed`, `Answered`, `Removed`), including which outboxes change, and the workers it retires are killed, are sent nothing and keep their leader listeners or their absence; only outboxes, killed and leader flags of the pool are in the frame |
| Supervisor.Session.LeaderQuestion | index.js:140-155 | a fresh record replaces the current one, the state is synced, and an assistant request is queued exactly when the question text is non-empty |
| Supervisor.Session.LeaderEnd | index.js:191-196 | with a record present the verdict is stored and the state synced; with none nothing changes |
| Supervisor.Session.DispatchAt | index.js:84-102 | an event changes the flags of its own slot only, as `Protocol.Apply` gives |
| Supervisor.Session.FlagEvent | index.js:202-214 | a flag event updates its slot and syncs the state; `a2freset` also notifies every logged operator; `ready` starts a join-retry interval for that worker |
| Supervisor.Session.DispatchAndSync | index.js:211-214 | the slot's flags change as the event says, and then the state is synced |
| Supervisor.Session.OnBotMessage | index.js:84-109 | a decoded event updates its slot's flags; `question` and `end` change the record only when they come from slot 0; retries, pending requests and operator events change as the listeners say |
| Supervisor.Session.RoundEvent | index.js:103-108 | `question` and `end` reach the leader listeners only from the leader; from any other slot, or for `playing` and unknown events, nothing changes |
| Supervisor.Session.OnBotExit | index.js:111-115 | the exit flag of that slot is set, its outbox and buffer and every other view are unchanged, and the state is synced |
| Supervisor.Session.JoinTick | index.js:204-209 | a tick with a non-empty code sends one join command with the code and the wanted name, then clears the interval; without a code nothing happens; only that handle's outbox is in the frame |
| Supervisor.Session.OnAssistReply | index.js:155-189 | the reply is turned into an index against the labels the request was made with; it is written to the current record unless that record is settled, and only then synced to the operators and sent to exactly the joined slots; a discarded reply pushes nothing |
| Supervisor.Session.OnBotOutput | index.js:66-80 | a chunk leaves the framing remainder in the buffer and handles exactly the lines that parse, in order; only that slot's buffer and event flags are in the frame, and every other slot's view is unchanged |
| Supervisor.Session.OnStrayMessage | index.js:84-109 | an event from a worker no longer in the pool still updates its flags, starts a join retry on `ready`, notifies operators on `a2freset`, and, from a former leader, replaces or settles the current record; the pool is unchanged, only the handle's event flags are in its frame, and only the former leader's listeners can push a new snapshot |
| Supervisor.Session.StrayFlagEvent | index.js:202-214 | the common listeners of a worker outside the pool: its flags change, the sync pushes nothing, `ready` adds a retry and `a2freset` notifies the logged operators; only the handle's event flags are in the frame |
| Supervisor.Session.StrayDispatchAndSync | index.js:211-214 | the flags of a worker outside the pool change as the event says and the sync that follows finds the snapshot unchanged; only the handle's event flags are in the frame |
| Supervisor.Session.StrayDispatch | index.js:84-102 | an event changes the flags of a handle outside the pool as `Protocol.Apply` gives, and only its event flags are in the frame; the pool's views are unchanged |
| Supervisor.Session.OnStrayExit | index.js:111-115 | a worker outside the pool that exits gets its exit flag set, which is the only field of it in the frame, and nothing is pushed |
| Supervisor.Session.OnStrayOutput | index.js:66-80 | output of a worker outside the pool is framed and decoded like a pooled worker's, each event handled by `OnStrayMessage`; only the handle's buffer and event flags are in the frame |
| Supervisor.Session.Receive | index.js:67-71 | the chunk is appended and the complete lines are cut off, keeping the session invariant; only that slot's buffer is in the frame |

## Left out

- The worker program (`bot.js`) is not part of this model. It automates the browser and its stdin framing is its own. Only the messages it exchanges with the supervisor are modelled (`Protocol.Event`, `Protocol.Command`).
- The assistant API call and prompt are left out (`index.js:7-24`, `159-170`). The reply arrives as a separate later event, `OnAssistReply`, whose input is the integer read from the reply, or `None` when the reply's content could not be parsed (the `try` at `index.js:173-176`).
- The `await` becomes the queue `pending` of outstanding requests, which remembers the labels each request was made with. As in the source, the reply is written to whichever record is current when it arrives.
- `Math.random` becomes the parameter `pick`. It is a valid index, or 0 when there are no labels: with no labels the source yields 0, and `ChooseAnswer` states this case.
- Process plumbing is left out: spawning, pipes and `kill`. A worker's stdin is its `outbox`, `kill` is the `killed` flag, and exit is an input event. Forwarding stderr is left out.
- Real time becomes explicit events:
  - the 100 ms join retry is `JoinTick` over the `retries` field;
  - the 10 s login timer is `LoginTimeout`.

  A retry interval keeps its worker after the worker leaves the pool, as in the source.
- The WebSocket server, configuration loading and console logging are left out. Operator connections are a map from connection ids to the logged flag and the events sent to the connection.
- JSON is not parsed or serialised:
  - messages are `Json` values and snapshots are datatypes;
  - structural equality stands for comparing the serialised strings;
  - a worker line's parser is the parameter `parse`.
- Numbers are integers. A fractional ANSWER or REMOVE_BOT value is accepted or rejected by the source as a JavaScript number; the model does not represent it.
- Some source types are narrowed:
  - an event's `correct` is a boolean;
  - `name` is an optional string;
  - a `question` event's `answers` is always a list of strings, and `answersCount` and `allowedAnswers` are integers. The worker may send no `answers` at all (`bot.js:167`), and the counts are whatever the quiz page gave.
- Two failures inside the leader's asynchronous `question` listener escape it and are not modelled. With a non-empty question text and no `answers`, building the prompt (`index.js:166`) throws. A rejected assistant request (`index.js:159`) is outside the `try` at `index.js:173-176`. In both cases the record already synced with its pending flag set stays as it is, and the request never gets a reply. The model does not represent a failed request: an entry of `pending` stays outstanding until `OnAssistReply` answers it.
- A worker line that parses to `null` makes the source throw while dispatching (reading `event` of `null`); the model has no such line, since `parse` yields an event or nothing. Any other value whose `event` is none of the known names, a number, string, boolean or array included, is `Unrecognised` and ignored, as in the source.
- Each output chunk is taken as an already-decoded string. The source appends each chunk to a string as it arrives (index.js:68), so a multi-byte character split between two chunks turns into replacement characters; the model does not represent bytes.
- Supervisor.Session.OnBotOutput: states the buffer and the decoded events, not the combined effect of handling them. That effect is stated one event at a time by `OnBotMessage`, which the loop calls.
- Supervisor.Session.OnStrayOutput: states the buffer and the decoded events, not the combined effect of handling them, which `OnStrayMessage` states one event at a time.

## Findings

| source | as written | input that shows it | evidently intended | confidence | as-written member | corrected member |
|---|---|---|---|---|---|---|
| index.js:347-350 | the "A2f failed" check reads the property `a2fFailed`, which is never written; the flag a failed attempt sets is `a2fFail` (index.js:57, 93), so the check never rejects | LOGIN done; one slot with `a2f` set and one with `a2fFail` set; A2F with `["triangle","diamond","circle","square"]` is relayed | reject with "A2f failed" while any slot has reported a failed attempt | not executed | Validation.A2fFailureIgnoredAsWritten | Validation.CheckA2f |

The session handler (`Supervisor.Session.HandleCommand`) follows the code as written: its validation context passes `A2fFailedAsRead` as the failure test, so a reported failure never blocks the relay. `Validation.CheckA2f`, with the failure flag of every slot, is the intended check.
