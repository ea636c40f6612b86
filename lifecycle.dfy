/**
 * The server's lifecycle: the module-level `server` handle (set or null) and the
 * status shown in the status bar, changed by `startServer`, `stopServer`, the
 * toggle command and the POST handler's no-workspace branch. Each call is taken
 * as one atomic step whose asynchronous outcome is given as an input.
 */
module Lifecycle {

  import opened Optional
  import opened StatusBar
  import opened Search

  /** How `app.listen(PORT)` turns out, or that no workspace folder is open so listen is never tried. */
  datatype ListenOutcome = NoWorkspace | Bound | AddrInUse | OtherError(message: string)

  /** Why a start was rejected. */
  datatype StartError = NoWorkspaceOpen | PortInUse | ListenFailed(message: string)

  /** How the promise returned by `startServer` settles. */
  datatype Settlement = Resolved | Rejected(reason: StartError)

  /** `bound`: the module-level `server` is set; `status`: what the status bar last showed. */
  datatype ServerState = ServerState(bound: bool, status: Status)

  /** The state after `activate`: no server, status bar showing "stopped". */
  const Activated := ServerState(false, Stopped)

  /** The status bar shows "running" only while the server handle is set. */
  predicate Invariant(s: ServerState) {
    s.status == Running ==> s.bound
  }

  /** `startServer`: its new state and how its promise settles. */
  function StartStep(s: ServerState, o: ListenOutcome): (r: (ServerState, Settlement))
    ensures r.1 == Resolved <==> o == Bound
    ensures r.1 == Resolved ==> r.0.bound && r.0.status == Running
    ensures r.1.Rejected? ==> r.0.status == Error
    ensures o == NoWorkspace ==> r.0.bound == s.bound && r.1 == Rejected(NoWorkspaceOpen)
    ensures o == AddrInUse ==> !r.0.bound && r.1 == Rejected(PortInUse)
    ensures o.OtherError? ==> !r.0.bound && r.1 == Rejected(ListenFailed(o.message))
  {
    match o
    case NoWorkspace => (s.(status := Error), Rejected(NoWorkspaceOpen))
    case Bound => (ServerState(true, Running), Resolved)
    case AddrInUse => (ServerState(false, Error), Rejected(PortInUse))
    case OtherError(message) => (ServerState(false, Error), Rejected(ListenFailed(message)))
  }

  /** `stopServer`: closes the server if there is one; always ends stopped. */
  function StopStep(s: ServerState): (t: ServerState)
    ensures !t.bound && t.status == Stopped
  {
    ServerState(false, Stopped)
  }

  /** The toggle command: stop when the handle is set, start otherwise; a rejection is only logged. */
  function ToggleStep(s: ServerState, o: ListenOutcome): (t: ServerState)
    ensures s.bound ==> !t.bound && t.status == Stopped
    ensures !s.bound ==> (t.bound <==> o == Bound)
    ensures !s.bound ==> (t.status == Running <==> o == Bound)
    ensures !s.bound && o != Bound ==> t.status == Error
  {
    if s.bound then StopStep(s) else StartStep(s, o).0
  }

  /** The POST handler's effect on the lifecycle: with no workspace open it marks the status bar as errored. */
  function RequestStep(s: ServerState, workspaceOpen: bool): (t: ServerState)
    ensures t.bound == s.bound
    ensures !workspaceOpen ==> t.status == Error
    ensures workspaceOpen ==> t == s
  {
    if workspaceOpen then s else s.(status := Error)
  }

  /** Stopping twice leaves the same state as stopping once, whatever the state was. */
  lemma StopIdempotent(s: ServerState)
    ensures StopStep(StopStep(s)) == StopStep(s)
    ensures StopStep(s) == StopStep(Activated)
  {
  }

  /** From a state without a server, a successful start and then a toggle come back to stopped. */
  lemma StartThenToggleStops(s: ServerState, o: ListenOutcome)
    requires !s.bound
    ensures ToggleStep(StartStep(s, Bound).0, o) == Activated
    ensures ToggleStep(ToggleStep(s, Bound), o) == Activated
  {
  }

  /** Anything the extension can be asked to do to the lifecycle. */
  datatype Event =
    | StartCommand(outcome: ListenOutcome)
    | StopCommand
    | ToggleCommand(outcome: ListenOutcome)
    | PostRequest(workspaceOpen: bool)

  /** The state after one event; every event keeps the invariant, and a stop always ends stopped. */
  function Next(s: ServerState, e: Event): (t: ServerState)
    ensures Invariant(s) ==> Invariant(t)
    ensures e == StopCommand ==> t == Activated
  {
    match e
    case StartCommand(o) => StartStep(s, o).0
    case StopCommand => StopStep(s)
    case ToggleCommand(o) => ToggleStep(s, o)
    case PostRequest(open) => RequestStep(s, open)
  }

  /** The state after a sequence of events, in order. */
  function Run(s: ServerState, events: seq<Event>): ServerState
    decreases |events|
  {
    if events == [] then s else Run(Next(s, events[0]), events[1..])
  }

  /** Every sequence of events keeps the invariant. */
  lemma {:induction false} RunKeepsInvariant(s: ServerState, events: seq<Event>)
    requires Invariant(s)
    ensures Invariant(Run(s, events))
    decreases |events|
  {
    if events != [] {
      RunKeepsInvariant(Next(s, events[0]), events[1..]);
    }
  }

  /** Whatever happened since activation, a "running" status bar means a server handle is set. */
  lemma ReachableStatesKeepInvariant(events: seq<Event>)
    ensures Invariant(Run(Activated, events))
  {
    RunKeepsInvariant(Activated, events);
  }

  /** A stop command ends every run of events in the stopped state. */
  lemma {:induction false} RunEndingInStop(s: ServerState, events: seq<Event>)
    ensures Run(s, events + [StopCommand]) == Activated
    decreases |events|
  {
    if events != [] {
      assert (events + [StopCommand])[1..] == events[1..] + [StopCommand];
      RunEndingInStop(Next(s, events[0]), events[1..]);
    }
  }

  /** The module-level `server` handle and the status bar's status. */
  class Controller {
    var bound: bool
    var status: Status

    /** The controller's state as a value. */
    function State(): ServerState
      reads this
    {
      ServerState(bound, status)
    }

    /** `activate`: the status bar starts as "stopped" and no server exists. */
    constructor ()
      ensures State() == Activated
    {
      bound := false;
      status := Stopped;
    }

    /** `startServer`. */
    method StartServer(outcome: ListenOutcome) returns (settled: Settlement)
      modifies this
      ensures (State(), settled) == StartStep(old(State()), outcome)
    {
      if outcome == NoWorkspace {
        status := Error;
        settled := Rejected(NoWorkspaceOpen);
        return;
      }
      bound := true;
      if outcome == Bound {
        status := Running;
        settled := Resolved;
      } else if outcome == AddrInUse {
        status := Error;
        bound := false;
        settled := Rejected(PortInUse);
      } else {
        status := Error;
        bound := false;
        settled := Rejected(ListenFailed(outcome.message));
      }
    }

    /** `stopServer`. */
    method StopServer()
      modifies this
      ensures State() == StopStep(old(State()))
    {
      if bound {
        bound := false;
        status := Stopped;
      } else {
        status := Stopped;
      }
    }

    /** The toggle command; a rejected start is caught and logged. */
    method Toggle(outcome: ListenOutcome)
      modifies this
      ensures State() == ToggleStep(old(State()), outcome)
    {
      if bound {
        StopServer();
      } else {
        var _ := StartServer(outcome);
      }
    }

    /**
     * The POST handler: with no workspace open it marks the status bar as
     * errored and sends nothing; otherwise it scans the files and replies.
     */
    method HandlePost(workspaceOpen: bool, files: seq<FileEntry>, m: Matcher) returns (reply: Option<Reply>)
      modifies this
      ensures State() == RequestStep(old(State()), workspaceOpen)
      ensures reply == if workspaceOpen then Some(Respond(FirstHit(files, m))) else None
    {
      if !workspaceOpen {
        status := Error;
        reply := None;
        return;
      }
      var r := FindFirstMatch(files, m);
      reply := Some(Respond(r));
    }
  }
}
