// Which event goes to which session's log: src/conversation/persistence.rs, with the
// events of src/conversation/session_log.rs. Timestamps and index rows are left out.
module SessionLog {
  import opened Common
  import opened Turns

  type SessionId = string

  datatype LogEvent =
    | SessionStarted
    | TurnEnqueued(turnId: TurnId, seqNo: nat, prompt: string)
    | TurnSettled(
        turnId: TurnId, settledKind: string, text: Option<string>, finishReason: Option<string>,
        errorKind: Option<string>, message: Option<string>)
    | Compacted(coveredThroughSeq: nat, summary: string)
    | SummaryGenerated(summary: string)

  function SettledKindName(kind: SettledKind): string {
    match kind
    case Completed => "completed"
    case NeedsConfiguration => "needsConfiguration"
    case Error => "error"
    case Cancelled => "cancelled"
  }

  function SettledEvent(id: TurnId, result: TurnResult): LogEvent {
    TurnSettled(id, SettledKindName(result.kind), result.text, result.finishReason, result.errorKind, result.message)
  }

  type Logs = map<SessionId, seq<LogEvent>>

  /** Appending creates the file when it is missing. */
  function Appended(logs: Logs, session: SessionId, event: LogEvent): Logs {
    logs[session := (if session in logs then logs[session] else []) + [event]]
  }

  /** Where an enqueue can fail: the two writes of a session start, then its own two. */
  datatype StorageFault = NoFault | StartAppendFault | StartRowFault | EnqueueAppendFault | EnqueueRowFault

  /** What the surroundings contribute to one enqueue: an unused session id and a fault. */
  datatype Env = Env(freshSession: SessionId, fault: StorageFault)

  function FaultMessage(fault: StorageFault): string {
    match fault
    case StartAppendFault => "could not append session-start event"
    case StartRowFault => "could not upsert session row"
    case EnqueueAppendFault => "could not append turn-enqueued event"
    case _ => "could not update session row"
  }

  /** The value of the persistence object together with the logs on disk. */
  datatype Disk = Disk(current: Option<SessionId>, turnSessions: map<TurnId, SessionId>, logs: Logs) {
    function EnsureSession(env: Env): Disk {
      if current.Some? || env.fault.StartAppendFault? then this
      else if env.fault.StartRowFault? then this.(logs := Appended(logs, env.freshSession, SessionStarted))
      else Disk(Some(env.freshSession), turnSessions, Appended(logs, env.freshSession, SessionStarted))
    }

    function OnEnqueue(id: TurnId, seqNo: nat, prompt: string, env: Env): Disk {
      var started := EnsureSession(env);
      if started.current.None? || env.fault.EnqueueAppendFault? then started
      else
        var session := started.current.value;
        started.(logs := Appended(started.logs, session, TurnEnqueued(id, seqNo, prompt)),
                 turnSessions := started.turnSessions[id := session])
    }

    predicate EnqueueSucceeds(env: Env) {
      if current.None? then env.fault.NoFault? else !env.fault.EnqueueAppendFault? && !env.fault.EnqueueRowFault?
    }

    function OnSettle(id: TurnId, result: TurnResult): Disk {
      if id !in turnSessions then this
      else this.(turnSessions := turnSessions - {id},
                 logs := Appended(logs, turnSessions[id], SettledEvent(id, result)))
    }

    /** Settles every unsettled turn as cancelled in the current session's log. */
    function CancelUnsettled(turns: seq<Turn>): Disk
      requires current.Some?
      decreases |turns|
    {
      if turns == [] then this
      else
        var before := CancelUnsettled(turns[..|turns| - 1]);
        var last := turns[|turns| - 1];
        if last.state == Settled then before
        else before.(logs := Appended(before.logs, current.value, SettledEvent(last.id, CANCELLED)),
                     turnSessions := before.turnSessions - {last.id})
    }

    function OnClear(turns: seq<Turn>): Disk {
      if current.None? then this else CancelUnsettled(turns).(current := None)
    }

    function AppendToCurrent(event: LogEvent): Disk {
      if current.None? then this else this.(logs := Appended(logs, current.value, event))
    }

    function Attach(session: SessionId): Disk {
      Disk(Some(session), map[], logs)
    }
  }
}

module Persistence {
  import opened Common
  import opened Turns
  import opened SessionLog

  class SessionPersistence {
    var currentSession: Option<SessionId>
    var turnSessions: map<TurnId, SessionId>
    var logs: Logs

    ghost function View(): Disk
      reads this
    {
      Disk(currentSession, turnSessions, logs)
    }

    constructor (logs: Logs)
      ensures View() == Disk(None, map[], logs)
    {
      currentSession, turnSessions, this.logs := None, map[], logs;
    }

    method EnsureSession(env: Env) returns (session: Option<SessionId>)
      modifies this
      ensures View() == old(View()).EnsureSession(env)
      ensures session == currentSession
    {
      if currentSession.None? {
        if env.fault.StartAppendFault? {
          return None;
        }
        logs := Appended(logs, env.freshSession, SessionStarted);
        if env.fault.StartRowFault? {
          return None;
        }
        currentSession := Some(env.freshSession);
      }
      return currentSession;
    }

    method OnEnqueue(id: TurnId, seqNo: nat, prompt: string, env: Env) returns (ok: bool)
      modifies this
      ensures View() == old(View()).OnEnqueue(id, seqNo, prompt, env)
      ensures ok <==> old(View()).EnqueueSucceeds(env)
    {
      var session := EnsureSession(env);
      if session.None? || env.fault.EnqueueAppendFault? {
        return false;
      }
      logs := Appended(logs, session.value, TurnEnqueued(id, seqNo, prompt));
      turnSessions := turnSessions[id := session.value];
      return !env.fault.EnqueueRowFault?;
    }

    method OnSettle(id: TurnId, result: TurnResult)
      modifies this
      ensures View() == old(View()).OnSettle(id, result)
    {
      if id in turnSessions {
        var session := turnSessions[id];
        turnSessions := turnSessions - {id};
        logs := Appended(logs, session, SettledEvent(id, result));
      }
    }

    method OnClear(turns: seq<Turn>)
      modifies this
      ensures View() == old(View()).OnClear(turns)
    {
      if currentSession.None? {
        return;
      }
      for i := 0 to |turns|
        invariant View() == old(View()).CancelUnsettled(turns[..i])
        invariant currentSession == old(currentSession)
      {
        assert turns[..i + 1][..i] == turns[..i];
        if turns[i].state != Settled {
          logs := Appended(logs, currentSession.value, SettledEvent(turns[i].id, CANCELLED));
          turnSessions := turnSessions - {turns[i].id};
        }
      }
      assert turns[..|turns|] == turns;
      currentSession := None;
    }

    method AppendToCurrent(event: LogEvent)
      modifies this
      ensures View() == old(View()).AppendToCurrent(event)
    {
      if currentSession.Some? {
        logs := Appended(logs, currentSession.value, event);
      }
    }

    method AttachSession(session: SessionId)
      modifies this
      ensures View() == old(View()).Attach(session)
    {
      currentSession := Some(session);
      turnSessions := map[];
    }
  }
}
