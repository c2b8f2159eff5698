/**
  The progress tracker the analysts report to: one status record per agent,
  updated only while tracking is started, and a line printed (styled by the
  status text) whenever an update changes something.
*/
module Progress {
  import opened Wrappers
  import opened Text

  /** The `{"status": ..., "ticker": ...}` record of one agent. */
  datatype AgentStatus = AgentStatus(status: string, ticker: Option<string>)

  /** The record an agent gets on its first update. */
  const Blank: AgentStatus := AgentStatus("", None)

  /** The record of `agent` before an update: its entry, or the blank record. */
  function Current(m: map<string, AgentStatus>, agent: string): AgentStatus
  {
    if agent in m then m[agent] else Blank
  }

  /** The record after `update_status(agent, ticker, status)`: a missing ticker
      or an empty status keeps the current one. */
  function Merged(current: AgentStatus, ticker: Option<string>, status: string): (r: AgentStatus)
    ensures r.ticker == if ticker.Some? then ticker else current.ticker
    ensures r.status == if status != "" then status else current.status
  {
    AgentStatus(if status != "" then status else current.status,
                if ticker.Some? then ticker else current.ticker)
  }

  /** The status map after an update: the agent is registered (with the blank
      record if it was absent) and then holds the merged record. */
  function Updated(m: map<string, AgentStatus>, agent: string, ticker: Option<string>, status: string)
    : (r: map<string, AgentStatus>)
    ensures r.Keys == m.Keys + {agent}
    ensures r[agent] == Merged(Current(m, agent), ticker, status)
    ensures forall other :: other in m && other != agent ==> r[other] == m[other]
  {
    m[agent := Merged(Current(m, agent), ticker, status)]
  }

  /** Repeating an update changes nothing more. */
  lemma UpdateIdempotent(m: map<string, AgentStatus>, agent: string, ticker: Option<string>, status: string)
    ensures Updated(Updated(m, agent, ticker, status), agent, ticker, status) == Updated(m, agent, ticker, status)
  {
  }

  /** Updates of two different agents commute. */
  lemma UpdatesCommute(m: map<string, AgentStatus>, a: string, ta: Option<string>, sa: string,
                       b: string, tb: Option<string>, sb: string)
    requires a != b
    ensures Updated(Updated(m, a, ta, sa), b, tb, sb) == Updated(Updated(m, b, tb, sb), a, ta, sa)
  {
    var left := Updated(Updated(m, a, ta, sa), b, tb, sb);
    var right := Updated(Updated(m, b, tb, sb), a, ta, sa);
    assert left.Keys == right.Keys;
    forall k | k in left.Keys
      ensures left[k] == right[k]
    {
    }
  }

  /** An update with neither a ticker nor a status only registers the agent. */
  lemma EmptyUpdateRegisters(m: map<string, AgentStatus>, agent: string)
    ensures Updated(m, agent, None, "") == m[agent := Current(m, agent)]
    ensures agent in m ==> Updated(m, agent, None, "") == m
  {
  }

  /** Whether an update changes the agent's record, which is when it prints. */
  predicate Changes(m: map<string, AgentStatus>, agent: string, ticker: Option<string>, status: string)
  {
    Merged(Current(m, agent), ticker, status) != Current(m, agent)
  }

  /** The three stylings of a printed status. */
  datatype StatusKind = Success | Failure | Pending

  /** The styling `_print_status` picks; `None` for an empty status, which is not printed. */
  function Classify(status: string): (k: Option<StatusKind>)
    ensures k.None? <==> status == ""
    ensures k == Some(Success) <==> status != "" && (Lower(status) == "done" || Contains(Lower(status), "complete"))
    ensures k == Some(Failure) ==> Contains(Lower(status), "error") && !Contains(Lower(status), "complete")
    ensures k == Some(Pending) ==> !Contains(Lower(status), "error") && !Contains(Lower(status), "complete")
  {
    if status == "" then None
    else if Lower(status) == "done" || Contains(Lower(status), "complete") then Some(Success)
    else if Contains(Lower(status), "error") then Some(Failure)
    else Some(Pending)
  }

  /** The agents' final statuses: "Done" and "Error" in any case are styled as
      success and failure. */
  lemma ClassifyFinalStatuses()
    ensures Classify("Done") == Some(Success)
    ensures Classify("DONE") == Some(Success)
    ensures Classify("Error") == Some(Failure)
    ensures Classify("Analysis complete") == Some(Success)
  {
    assert Lower("Error") == "error";
    assert OccursAt(Lower("Error"), "error", 0);
    assert !Contains(Lower("Error"), "complete");
    var s := Lower("Analysis complete");
    assert s == "analysis complete";
    assert OccursAt(s, "complete", 9);
  }

  /** One printed status line: styling, agent, ticker (when non-empty) and status.
      The display name, padding and colours of the source are not modelled. */
  datatype Line = Line(kind: StatusKind, agent: string, ticker: Option<string>, status: string)

  /** The line `_print_status` prints for a record, if any. */
  function LineFor(agent: string, info: AgentStatus): (l: Option<Line>)
    ensures l.Some? <==> info.status != ""
    ensures l.Some? ==> l.value.status == info.status && Classify(info.status) == Some(l.value.kind)
    ensures l.Some? ==> l.value.agent == agent
    ensures l.Some? ==> (l.value.ticker.Some? <==> info.ticker.Some? && info.ticker.value != "")
    ensures l.Some? && l.value.ticker.Some? ==> info.ticker == l.value.ticker
  {
    match Classify(info.status)
    case None => None
    case Some(kind) =>
      Some(Line(kind, agent, if info.ticker.Some? && info.ticker.value != "" then info.ticker else None, info.status))
  }

  /** `AgentProgress`. The lock is not modelled: every method runs atomically. */
  class AgentProgress {
    var agentStatus: map<string, AgentStatus>
    var started: bool
    /** Kept for the overwrite logic, which the source leaves disabled: never filled. */
    var lastLines: map<string, int>

    /** Statuses are only recorded while started, and the line memory stays empty. */
    predicate Valid()
      reads this
    {
      (!started ==> agentStatus == map[]) && lastLines == map[]
    }

    constructor()
      ensures Valid()
      ensures agentStatus == map[] && !started && lastLines == map[]
    {
      agentStatus := map[];
      started := false;
      lastLines := map[];
    }

    /** `start`: marks tracking as started; starting twice changes nothing. */
    method Start()
      modifies this
      requires Valid()
      ensures Valid()
      ensures started
      ensures agentStatus == old(agentStatus) && lastLines == old(lastLines)
    {
      if !started {
        started := true;
      }
    }

    /** `stop`: when started, marks tracking as stopped and clears all records. */
    method Stop()
      modifies this
      requires Valid()
      ensures Valid()
      ensures !started
      ensures agentStatus == map[] && lastLines == map[]
    {
      if started {
        started := false;
        agentStatus := map[];
        lastLines := map[];
      }
    }

    /** `update_status`: ignored unless started; otherwise records the merged
        status, and prints (returns) a line when the record changed. */
    method UpdateStatus(agentName: string, ticker: Option<string>, status: string) returns (printed: Option<Line>)
      modifies this
      requires Valid()
      ensures Valid()
      ensures started == old(started) && lastLines == old(lastLines)
      ensures !old(started) ==> agentStatus == old(agentStatus) && printed.None?
      ensures old(started) ==> agentStatus == Updated(old(agentStatus), agentName, ticker, status)
      ensures printed ==
        if old(started) && Changes(old(agentStatus), agentName, ticker, status)
        then LineFor(agentName, agentStatus[agentName]) else None
    {
      printed := None;
      if !started {
        return;
      }
      if agentName !in agentStatus {
        agentStatus := agentStatus[agentName := Blank];
      }
      var currentTicker := agentStatus[agentName].ticker;
      var currentStatus := agentStatus[agentName].status;
      var newTicker := if ticker.Some? then ticker else currentTicker;
      var newStatus := if status != "" then status else currentStatus;
      if newTicker != currentTicker || newStatus != currentStatus {
        agentStatus := agentStatus[agentName := AgentStatus(newStatus, newTicker)];
        printed := LineFor(agentName, agentStatus[agentName]);
      }
    }
  }

  /** A started tracker prints a success line when an agent reports "Done"
      after another status, and nothing when it reports "Done" again. */
  method DoneIsPrintedAsSuccess(agent: string, ticker: string) returns (last: Option<Line>, again: Option<Line>)
    ensures last == Some(Line(Success, agent, if ticker != "" then Some(ticker) else None, "Done"))
    ensures again.None?
  {
    var p := new AgentProgress();
    p.Start();
    var first := p.UpdateStatus(agent, Some(ticker), "Analyzing");
    last := p.UpdateStatus(agent, Some(ticker), "Done");
    ClassifyFinalStatuses();
    again := p.UpdateStatus(agent, Some(ticker), "Done");
  }
}
