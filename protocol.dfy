/** The messages exchanged with a worker process, and what an inbound event
    does to the flags the supervisor keeps for that worker. */
module Protocol {

  import opened Wrappers

  /** A decoded JSON value, as far as the supervisor inspects one. Numbers are
      integers here; objects are never looked into. */
  datatype Json =
    | JNull
    | JBool(b: bool)
    | JNum(n: int)
    | JStr(s: string)
    | JArr(items: seq<Json>)
    | JObj

  /** An event line from a worker, once decoded. `Unrecognised` stands for any
      JSON value whose `event` field is none of the known ones. */
  datatype Event =
    | Ready
    | A2fRequested
    | A2fFailed
    | A2fReset
    | Joined(name: Option<string>)
    | Asked(qtype: string, answersCount: int, allowedAnswers: int, text: Option<string>, answers: seq<string>)
    | Playing(timeLeft: int)
    | Ended(correct: bool)
    | Unrecognised

  /** A command line to a worker. */
  datatype Command =
    | Join(code: string, name: string)
    | SendA2f(symbols: seq<string>)
    | Answer(index: int)

  /** What the supervisor shows of one worker: the name asked for, the name
      the quiz accepted, and the lifecycle flags. */
  datatype BotView = BotView(
    wantedName: string,
    name: Option<string>,
    ready: bool,
    joined: bool,
    a2f: bool,
    a2fFail: bool,
    exited: bool)

  /** A freshly spawned worker: nothing reported yet. */
  function Spawned(wantedName: string): BotView
  {
    BotView(wantedName, None, false, false, false, false, false)
  }

  /** The flag updates of one inbound event. Each flag is changed by exactly
      the events named in its ensures clause and by no other; the wanted name
      and the exit flag are never changed by an event line. */
  function Apply(v: BotView, e: Event): (r: BotView)
    ensures r.wantedName == v.wantedName && r.exited == v.exited
    ensures r.ready == (e.Ready? || v.ready)
    ensures r.joined == (e.Joined? || v.joined)
    ensures r.name == (if e.Joined? then e.name else v.name)
    ensures r.a2f == (if e.Joined? then false else e.A2fRequested? || v.a2f)
    ensures r.a2fFail == (if e.A2fReset? then false else e.A2fFailed? || v.a2fFail)
  {
    match e
    case Ready => v.(ready := true)
    case A2fRequested => v.(a2f := true)
    case A2fFailed => v.(a2fFail := true)
    case A2fReset => v.(a2fFail := false)
    case Joined(name) => v.(joined := true, name := name, a2f := false)
    case Asked(_, _, _, _, _) => v
    case Playing(_) => v
    case Ended(_) => v
    case Unrecognised => v
  }

  /** Events that only concern the question round leave every flag alone. */
  lemma RoundEventsKeepFlags(v: BotView, e: Event)
    requires e.Asked? || e.Playing? || e.Ended? || e.Unrecognised?
    ensures Apply(v, e) == v
  {
  }

  /** Receiving the same event twice has the effect of receiving it once. */
  lemma ApplyIdempotent(v: BotView, e: Event)
    ensures Apply(Apply(v, e), e) == Apply(v, e)
  {
  }

  /** The process-exit notification: only the exit flag changes. */
  function Exit(v: BotView): (r: BotView)
    ensures r.exited
    ensures r.(exited := v.exited) == v
  {
    v.(exited := true)
  }
}
