/** The supervisor's handle on one worker process: the flags it keeps from the
    worker's events, the buffer of its output stream, and the commands written
    to its input. The process itself is represented by the `outbox` of
    commands sent to it and the `killed` flag. */
module Worker {

  import opened Wrappers
  import opened Protocol
  import Framing

  class Bot {
    /** The name the operator asked for; fixed when the handle is created. */
    const wantedName: string
    var name: Option<string>
    var ready: bool
    var joined: bool
    var a2f: bool
    var a2fFail: bool
    var exited: bool
    /** Output received from the worker that is not yet a complete line. */
    var buffer: string
    /** Commands written to the worker's input, oldest first. */
    var outbox: seq<Command>
    /** The process has been killed. */
    var killed: bool
    /** The leader's question and end listeners are attached to this handle. */
    var leader: bool

    /** The flags as an operator sees them. */
    function View(): BotView
      reads this`name, this`ready, this`joined, this`a2f, this`a2fFail, this`exited
    {
      BotView(wantedName, name, ready, joined, a2f, a2fFail, exited)
    }

    /** The process is alive and no complete line waits in the buffer. */
    ghost predicate Healthy()
      reads this`killed, this`buffer
    {
      !killed && '\n' !in buffer
    }

    /** A freshly spawned worker: no event seen, nothing sent, no listener
        beyond the common ones. */
    constructor (wantedName: string)
      ensures this.wantedName == wantedName && View() == Spawned(wantedName)
      ensures buffer == "" && outbox == [] && !killed && !leader
    {
      this.wantedName := wantedName;
      name := None;
      ready, joined, a2f, a2fFail, exited := false, false, false, false, false;
      buffer := "";
      outbox := [];
      killed, leader := false, false;
    }

    /** Appends a chunk of output to the buffer and cuts every complete line
        off its front, returning the lines in order. */
    method Feed(chunk: string) returns (lines: seq<string>)
      modifies this`buffer
      ensures lines == Framing.Lines(old(buffer) + chunk)
      ensures buffer == Framing.Rest(old(buffer) + chunk)
    {
      buffer := buffer + chunk;
      ghost var whole := buffer;
      lines := [];
      while '\n' in buffer
        invariant Framing.Lines(whole) == lines + Framing.Lines(buffer)
        invariant Framing.Rest(whole) == Framing.Rest(buffer)
        decreases |buffer|
      {
        var k := Framing.FirstNewline(buffer);
        Framing.Unfold(buffer);
        var line := buffer[..k];
        ghost var before := lines;
        buffer := buffer[k + 1..];
        lines := lines + [line];
        assert before + ([line] + Framing.Lines(buffer)) == lines + Framing.Lines(buffer);
      }
      Framing.Unfold(buffer);
    }

    /** The worker's event handler: each event sets or clears its own flags. */
    method Dispatch(e: Event)
      modifies this`name, this`ready, this`joined, this`a2f, this`a2fFail
      ensures View() == Apply(old(View()), e)
    {
      match e {
        case Ready => ready := true;
        case A2fRequested => a2f := true;
        case A2fFailed => a2fFail := true;
        case A2fReset => a2fFail := false;
        case Joined(n) =>
          joined := true;
          name := n;
          a2f := false;
        case _ =>
      }
    }

    /** The process-exit notification. */
    method MarkExited()
      modifies this`exited
      ensures View() == Exit(old(View()))
    {
      exited := true;
    }

    /** Writes one command line to the worker. */
    method Send(c: Command)
      modifies this`outbox
      ensures outbox == old(outbox) + [c]
    {
      outbox := outbox + [c];
    }

    /** Kills the process. */
    method Remove()
      modifies this`killed
      ensures killed
    {
      killed := true;
    }

    /** Attaches the leader's question and end listeners. */
    method InstallLeader()
      requires !leader
      modifies this`leader
      ensures leader
    {
      leader := true;
    }
  }
}
