/** The services that call a protected tool, as sequential code among other actors
    (backend/app/approved_execution.py, backend/app/executions/recovery.py). */
module ApprovedExecution {
  import opened Values
  import A = ApprovalModel
  import L = LedgerModel
  import E = ExecutionProtocol
  import LI = LedgerInvariant
  import D = Deployment
  import DR = DurableRun
  import O = ToolOutcomes
  import opened Site

  /** What one call of a service meets outside: registry, clock readings, faults and the tool itself. */
  datatype Conditions = Conditions(
    permitted: bool, registered: bool, inputValid: bool,
    candidateId: ExecutionId, created: Time, updated: Time, claimFault: Fault,
    reclaimNow: Time, reclaimFault: Fault,
    outcome: E.Outcome, finishNow: Time, finishFault: Fault)

  /** A stored success that matches the request is what execute() returns. */
  lemma ReplayIsBacked(modes: E.Modes, w: D.World, row: L.ToolExecution, req: E.Request)
    requires D.Inv(modes, w)
    requires L.Lookup(w.ledger.core.rows, req.SlotOf()) == Some(row)
    requires E.Replay(row, req).Returned?
    ensures E.Replay(row, req).call == req.call
    ensures DR.FromLedger(w, req.task, req.approval)(req.call) == Ok(E.Replay(row, req).content)
  {
    assert LI.CellOk(modes, w.business.rows.approvals, req.SlotOf(), LI.CellAt(w.ledger.core, req.SlotOf()));
    assert row.Call() == req.call;
  }

  /** A claim taken for this request. */
  ghost predicate ClaimFor(row: L.ToolExecution, approval: ApprovalId, task: TaskId, call: ToolCall) {
    row.taskId == task && row.approvalId == approval && row.Call() == call
  }

  /** A success that was written and acknowledged is what execute() returns from now on. */
  lemma FinishIsBacked(modes: E.Modes, w: D.World, me: ActorId, row: L.ToolExecution, outcome: E.Outcome, now: Time,
                       fault: Fault,
                       approval: ApprovalId, task: TaskId, call: ToolCall)
    requires D.Inv(modes, w) && E.PhaseOf(w.ledger, me) == E.Called(row, outcome) && ClaimFor(row, approval, task, call)
    ensures var v := D.Next(modes, w, D.OnLedger(E.Finish(me, now, fault)));
            var p := E.PhaseOf(v.ledger, me);
            p.Done? && (p.reply.Returned? ==> p.reply.call == call && DR.FromLedger(v, task, approval)(call) == Ok(p.reply.content))
  {
    var v := D.Next(modes, w, D.OnLedger(E.Finish(me, now, fault)));
    assert LI.PhaseOk(modes, w.business.rows.approvals, w.ledger.core, E.PhaseOf(w.ledger, me));
    FinishStored(modes, w, me, row, outcome, now, fault);
    if E.PhaseOf(v.ledger, me).reply.Returned? {
      D.NextKeeps(modes, w, D.OnLedger(E.Finish(me, now, fault)));
      SuccessIsBacked(modes, v, E.Verdict(row, outcome, now).value, approval, task, call);
    }
  }

  /** What the caller is told was stored. */
  lemma FinishStored(modes: E.Modes, w: D.World, me: ActorId, row: L.ToolExecution, outcome: E.Outcome, now: Time,
                     fault: Fault)
    requires E.PhaseOf(w.ledger, me) == E.Called(row, outcome) && LI.Backed(LI.CellAt(w.ledger.core, row.SlotOf()), row)
    ensures var v := D.Next(modes, w, D.OnLedger(E.Finish(me, now, fault)));
            var p := E.PhaseOf(v.ledger, me);
            && p.Done?
            && (p.reply.Returned? ==>
                  && p.reply.call == row.Call() && E.Verdict(row, outcome, now).Ok?
                  && var stored := E.Verdict(row, outcome, now).value;
                  && stored.SameIdentity(row) && stored.status.SUCCEEDED? && stored.result == Some(p.reply.content)
                  && L.Lookup(v.ledger.core.rows, row.SlotOf()) == Some(stored))
  {
    var candidate := E.Verdict(row, outcome, now).value;
    if L.FinishError(w.ledger.core.rows, candidate, Some(row.updatedAt), fault).None? {
      LI.FinishLands(w.ledger.core, row, candidate, fault);
    }
  }

  /** A success under this approval is what execute() returns. */
  lemma SuccessIsBacked(modes: E.Modes, w: D.World, row: L.ToolExecution, approval: ApprovalId, task: TaskId,
                        call: ToolCall)
    requires D.Inv(modes, w) && L.Lookup(w.ledger.core.rows, row.SlotOf()) == Some(row)
    requires ClaimFor(row, approval, task, call) && row.status.SUCCEEDED? && row.result.Some?
    ensures DR.FromLedger(w, task, approval)(call) == Ok(row.result.value)
  {
    assert LI.CellOk(modes, w.business.rows.approvals, row.SlotOf(), LI.CellAt(w.ledger.core, row.SlotOf()));
  }

  /** The table and the reply of the finishing step, spelled out. */
  lemma FinishInOneStep(modes: E.Modes, w: D.World, me: ActorId, row: L.ToolExecution, c: Conditions)
    requires E.PhaseOf(w.ledger, me) == E.Called(row, c.outcome) && row.WellFormed() && row.status.EXECUTING?
    ensures var v := D.Next(modes, w, D.OnLedger(E.Finish(me, c.finishNow, c.finishFault)));
            var verdict := E.Verdict(row, c.outcome, c.finishNow);
            && verdict.Ok? && v.business == w.business
            && v.ledger.core.rows == L.FinishedTable(w.ledger.core.rows, verdict.value, Some(row.updatedAt),
                                                     c.finishFault)
            && E.PhaseOf(v.ledger, me) == E.Done(E.FinalReply(row, c.outcome,
                 L.FinishError(w.ledger.core.rows, verdict.value, Some(row.updatedAt), c.finishFault)))
  {
  }

  predicate Wins(claimed: Result<L.Claimed>) {
    claimed.Ok? && claimed.value.won
  }

  /** What the loser of a claim replies: an error, or a replay of the winner's row. */
  function LosingReply(claimed: Result<L.Claimed>, req: E.Request): E.Reply {
    match claimed
    case Err(e) => E.Raised(e)
    case Ok(Claimed(row, _)) => E.Replay(row, req)
  }

  /** The claiming step: its table, and where it leaves the actor. */
  lemma ClaimStepped(modes: E.Modes, w: D.World, me: ActorId, req: E.Request, c: Conditions)
    requires E.PhaseOf(w.ledger, me) == E.Missing(req)
    ensures var candidate := L.Candidate(c.candidateId, req.task, req.approval, req.call, c.created, c.updated);
            var claimed := L.ClaimReply(w.ledger.core.rows, candidate, c.claimFault);
            var v := D.Next(modes, w, D.OnLedger(E.Claim(me, c.candidateId, c.created, c.updated, c.claimFault)));
            && v.business == w.business && v.ledger.core.rows == L.ClaimedTable(w.ledger.core.rows, candidate, c.claimFault)
            && E.PhaseOf(v.ledger, me) == if Wins(claimed) then E.Holding(claimed.value.row)
                                          else E.Done(LosingReply(claimed, req))
  {
    AfterClaim(w.ledger, me, req, L.Candidate(c.candidateId, req.task, req.approval, req.call, c.created, c.updated),
               c.claimFault);
  }

  lemma AfterClaim(s: E.State, me: ActorId, req: E.Request, candidate: L.ToolExecution, fault: Fault)
    ensures var t, claimed := E.AfterClaim(s, me, req, candidate, fault), L.ClaimReply(s.core.rows, candidate, fault);
            && t.core.rows == L.ClaimedTable(s.core.rows, candidate, fault)
            && E.PhaseOf(t, me) == if Wins(claimed) then E.Holding(claimed.value.row)
                                   else E.Done(LosingReply(claimed, req))
  {
    assert E.ClaimCore(s.core, candidate, fault).rows == L.ClaimedTable(s.core.rows, candidate, fault);
  }

  /** A claim finds the row that it lost to, or stored its own. */
  lemma ClaimedRow(rows: L.Ledger, candidate: L.ToolExecution, fault: Fault)
    requires L.ClaimReply(rows, candidate, fault).Ok?
    ensures var claimed := L.ClaimReply(rows, candidate, fault).value;
            if claimed.won then claimed.row == candidate
            else L.Lookup(rows, candidate.SlotOf()) == Some(claimed.row) && L.ClaimedTable(rows, candidate, fault) == rows
  {
  }

  /** The winner holds a claim for this call; a content that the loser replays is backed. */
  lemma {:induction false} ClaimOutcome(modes: E.Modes, w: D.World, me: ActorId, req: E.Request, c: Conditions)
    requires D.Inv(modes, w) && E.PhaseOf(w.ledger, me) == E.Missing(req)
    ensures var candidate := L.Candidate(c.candidateId, req.task, req.approval, req.call, c.created, c.updated);
            var claimed := L.ClaimReply(w.ledger.core.rows, candidate, c.claimFault);
            var v := D.Next(modes, w, D.OnLedger(E.Claim(me, c.candidateId, c.created, c.updated, c.claimFault)));
            if Wins(claimed) then ClaimFor(claimed.value.row, req.approval, req.task, req.call)
            else var reply := LosingReply(claimed, req);
                 reply.Returned? ==> reply.call == req.call
                                     && DR.FromLedger(v, req.task, req.approval)(req.call) == Ok(reply.content)
  {
    var candidate := L.Candidate(c.candidateId, req.task, req.approval, req.call, c.created, c.updated);
    var claimed := L.ClaimReply(w.ledger.core.rows, candidate, c.claimFault);
    if claimed.Ok? {
      ClaimStepped(modes, w, me, req, c);
      ClaimedRow(w.ledger.core.rows, candidate, c.claimFault);
      if !claimed.value.won && E.Replay(claimed.value.row, req).Returned? {
        ReplayIsBacked(modes, w, claimed.value.row, req);
      }
    }
  }

  /** What execute() makes of the row it reads, if there is one; otherwise the tool must be registered and its input
      valid. */
  function ReadReply(found: Option<L.ToolExecution>, req: E.Request, registered: bool,
                     inputValid: bool): Option<E.Reply> {
    if found.Some? then Some(E.Replay(found.value, req))
    else if !registered then Some(E.Raised(ToolNotFound))
    else if !inputValid then Some(E.Raised(InvalidInput))
    else None
  }

  /** The reading step of execute(), spelled out. */
  lemma ReadOutcome(modes: E.Modes, w: D.World, me: ActorId, req: E.Request, registered: bool, inputValid: bool)
    requires D.Inv(modes, w) && E.PhaseOf(w.ledger, me) == E.Authorized(req) && req.entry.Execute?
    ensures var v := D.Next(modes, w, D.OnLedger(E.Read(me, registered, inputValid)));
            var reply := ReadReply(L.Lookup(w.ledger.core.rows, req.SlotOf()), req, registered, inputValid);
            && v.business == w.business && v.ledger.core.rows == w.ledger.core.rows
            && (match reply
                case None => E.PhaseOf(v.ledger, me) == E.Missing(req)
                case Some(r) =>
                  E.PhaseOf(v.ledger, me) == E.Done(r)
                  && (r.Returned? ==> r.call == req.call && DR.FromLedger(v, req.task, req.approval)(req.call) == Ok(r.content)))
  {
    var found := L.Lookup(w.ledger.core.rows, req.SlotOf());
    if found.Some? && E.Replay(found.value, req).Returned? {
      ReplayIsBacked(modes, w, found.value, req);
    }
  }

  /** What recover() makes of the row it reads. */
  datatype Found = Cached | Retried(row: L.ToolExecution) | Refused(error: Error)

  function Finding(found: Option<L.ToolExecution>, req: E.Request, registered: bool, mode: IdempotencyMode): Found
    requires req.entry.Recover?
  {
    if found.None? then Refused(ReplayBlocked)
    else if !E.Matches(found.value, req) then Refused(IdentityConflict)
    else if found.value.status.SUCCEEDED? then Cached
    else if found.value.updatedAt > req.entry.staleBefore then Refused(ReplayBlocked)
    else if !registered then Refused(ToolNotFound)
    else if mode.NONE? then Refused(ReplayBlocked)
    else Retried(found.value)
  }

  /** The reading step of recover(), spelled out. */
  lemma FindingOutcome(modes: E.Modes, w: D.World, me: ActorId, req: E.Request, registered: bool, inputValid: bool)
    requires E.PhaseOf(w.ledger, me) == E.Authorized(req) && req.entry.Recover?
    ensures var v := D.Next(modes, w, D.OnLedger(E.Read(me, registered, inputValid)));
            && v.business == w.business && v.ledger.core.rows == w.ledger.core.rows
            && E.PhaseOf(v.ledger, me) == (
                 match Finding(L.Lookup(w.ledger.core.rows, req.SlotOf()), req, registered, modes(req.call.name))
                 case Cached => E.Entered(req.(entry := E.Execute))
                 case Retried(row) => E.Stale(req, row)
                 case Refused(e) => E.Done(E.Raised(e)))
  {
  }

  /** The reclaiming step: its table, and where it leaves the actor. */
  lemma ReclaimStepped(modes: E.Modes, w: D.World, me: ActorId, req: E.Request, expected: L.ToolExecution,
                       c: Conditions)
    requires E.PhaseOf(w.ledger, me) == E.Stale(req, expected) && req.entry.Recover?
    ensures var v := D.Next(modes, w, D.OnLedger(E.Reclaim(me, c.reclaimNow, c.reclaimFault)));
            && v.business == w.business
            && v.ledger.core.rows == L.ReclaimedTable(w.ledger.core.rows, expected, req.entry.staleBefore, c.reclaimNow,
                                                      c.reclaimFault)
            && E.PhaseOf(v.ledger, me) == (
                 match L.ReclaimReply(w.ledger.core.rows, expected, req.entry.staleBefore, c.reclaimNow, c.reclaimFault)
                 case Err(e) => E.Done(E.Raised(e))
                 case Ok(None) => E.Done(E.Raised(ReplayBlocked))
                 case Ok(Some(row)) => E.Holding(row))
  {
  }

  /** A granted recovery claim is one for this call. */
  lemma ReclaimOutcome(modes: E.Modes, w: D.World, me: ActorId, req: E.Request, expected: L.ToolExecution,
                       staleBefore: Time, now: Time, fault: Fault)
    requires D.Inv(modes, w) && E.PhaseOf(w.ledger, me) == E.Stale(req, expected)
    ensures var reply := L.ReclaimReply(w.ledger.core.rows, expected, staleBefore, now, fault);
            reply.Ok? && reply.value.Some? ==> ClaimFor(reply.value.value, req.approval, req.task, req.call)
  {
    assert LI.PhaseOk(modes, w.business.rows.approvals, w.ledger.core, E.PhaseOf(w.ledger, me));
  }

  /** The steps that execute() takes after it was entered, in this order, unless it returns or raises earlier. */
  function ExecuteScript(me: ActorId, c: Conditions): seq<D.Step> {
    [D.OnLedger(E.Validate(me, c.permitted)),
     D.OnLedger(E.Read(me, c.registered, c.inputValid)),
     D.OnLedger(E.Claim(me, c.candidateId, c.created, c.updated, c.claimFault)),
     D.OnLedger(E.Invoke(me, c.outcome)),
     D.OnLedger(E.Finish(me, c.finishNow, c.finishFault))]
  }

  /** The steps that recover() takes; after a stored success it goes on as execute(). */
  function RecoverScript(me: ActorId, c: Conditions, cached: bool): seq<D.Step> {
    [D.OnLedger(E.Validate(me, c.permitted)),
     D.OnLedger(E.Read(me, c.registered, c.inputValid))]
    + (if cached then ExecuteScript(me, c)
       else [D.OnLedger(E.Reclaim(me, c.reclaimNow, c.reclaimFault)),
             D.OnLedger(E.Invoke(me, c.outcome)),
             D.OnLedger(E.Finish(me, c.finishNow, c.finishFault))])
  }

  /** After its claim recover() calls and settles as execute() does. */
  lemma SharedEnding(me: ActorId, c: Conditions)
    ensures var rest := RecoverScript(me, c, false)[2..];
            && rest != [] && rest[0] == RecoverScript(me, c, false)[2] && rest[1..] == ExecuteScript(me, c)[3..]
  {
  }

  lemma ScriptParts(me: ActorId, c: Conditions)
    ensures var script := ExecuteScript(me, c);
            && |script| == 5 && script[1..][0..1] == [script[1]] && script[1..][1..] == script[2..]
            && script[2..] != [] && script[2..][0] == script[2] && script[2..][1..] == script[3..]
  {
  }

  /** Own steps went from before to after along the first k entries of the script. */
  ghost predicate Upto(before: seq<D.Step>, after: seq<D.Step>, script: seq<D.Step>, k: nat) {
    k <= |script| && after == before + script[..k]
  }

  /** ... perhaps not to its end. */
  ghost predicate Followed(before: seq<D.Step>, after: seq<D.Step>, script: seq<D.Step>) {
    exists k: nat :: Upto(before, after, script, k)
  }

  /** One more part of the script. */
  lemma Further(before: seq<D.Step>, mid: seq<D.Step>, after: seq<D.Step>, script: seq<D.Step>, k: nat, n: nat)
    requires Upto(before, mid, script, k) && k + n <= |script| && after == mid + script[k..k + n]
    ensures Upto(before, after, script, k + n) && Followed(before, after, script)
  {
    assert script[..k + n] == script[..k] + script[k..k + n];
    assert Upto(before, after, script, k + n);
  }

  lemma FollowedFrom(before: seq<D.Step>, mid: seq<D.Step>, after: seq<D.Step>, script: seq<D.Step>, k: nat)
    requires Upto(before, mid, script, k) && Followed(mid, after, script[k..])
    ensures Followed(before, after, script)
  {
    var n: nat :| Upto(mid, after, script[k..], n);
    assert script[k..][..n] == script[k..k + n];
    Further(before, mid, after, script, k, n);
  }

  /** The first step, and what followed it. */
  lemma FirstThen(before: seq<D.Step>, mid: seq<D.Step>, after: seq<D.Step>, script: seq<D.Step>)
    requires script != [] && mid == before + [script[0]] && Followed(mid, after, script[1..])
    ensures Followed(before, after, script)
  {
    Further(before, before, mid, script, 0, 1);
    FollowedFrom(before, mid, after, script, 1);
  }

  lemma FirstThenAll(before: seq<D.Step>, mid: seq<D.Step>, after: seq<D.Step>, script: seq<D.Step>)
    requires script != [] && mid == before + [script[0]] && after == mid + script[1..]
    ensures Followed(before, after, script)
  {
    Further(before, before, mid, script, 0, 1);
    Further(before, mid, after, script, 1, |script| - 1);
  }

  lemma FirstOnly(before: seq<D.Step>, after: seq<D.Step>, script: seq<D.Step>)
    requires script != [] && after == before + [script[0]]
    ensures Followed(before, after, script)
  {
    Further(before, before, after, script, 0, 1);
  }

  class ApprovedToolExecutionService {
    const site: Site
    const me: ActorId

    constructor (site: Site, me: ActorId)
      ensures this.site == site && this.me == me
    {
      this.site, this.me := site, me;
    }

    function Phase(): E.Phase
      reads site
    {
      E.PhaseOf(site.world.ledger, me)
    }

    /** This actor's own steps so far. */
    ghost function Own(): seq<D.Step>
      reads site
    {
      Mine(me, site.trace)
    }

    /** The account grew, and by this actor's own steps alone when nobody else takes part. */
    twostate predicate Extends()
      reads site
    {
      && old(site.trace) <= site.trace
      && (old(site.others) == [] ==> site.others == [] && Strange() == old(Strange()))
    }

    /** How many steps of others the account holds. */
    ghost function Strange(): int
      reads site
    {
      |site.trace| - |Own()|
    }

    /** What holds whenever a service returns: a lawful account, and an honest reply. */
    ghost predicate Answered(approval: ApprovalId, task: TaskId, call: ToolCall, reply: E.Reply)
      reads site, site.store, site.executions
    {
      && site.Valid()
      && Phase() == E.Done(reply)
      && (reply.Returned? ==> reply.call == call && DR.FromLedger(site.world, task, approval)(call) == Ok(reply.content))
    }

    /** The last step of all is the terminal write of this claim: the row tells the outcome of the tool, and so does
        the reply. */
    ghost predicate Settled(claim: L.ToolExecution, c: Conditions, reply: E.Reply)
      reads site, site.executions
    {
      && site.trace != [] && Last(site.trace) == D.OnLedger(E.Finish(me, c.finishNow, c.finishFault))
      && var before := D.Run(site.modes, D.INITIAL, site.trace[..|site.trace| - 1]).ledger.core.rows;
         && O.Wrote(before, site.executions.rows, claim, c.outcome, c.finishNow, c.finishFault)
         && O.Replied(before, claim, c.outcome, c.finishFault, reply)
    }

    /** One more step of this actor, which the table already shows. */
    method Note(act: E.Action)
      requires act.actor == me && site.Accounted() && site.store.All() == site.world.business.rows
      requires site.executions.rows == E.Next(site.modes, site.world.business.rows.approvals, site.world.ledger,
                                              act).core.rows
      modifies site
      ensures site.Valid() && site.world == D.Next(site.modes, old(site.world), D.OnLedger(act))
      ensures Phase() == E.PhaseOf(E.Next(site.modes, old(site.world).business.rows.approvals, old(site.world).ledger,
                                          act), me)
      ensures Extends() && Own() == old(Own()) + [D.OnLedger(act)]
    {
      site.Note(D.OnLedger(act));
    }

    /** The same for the terminal write, which ends the account. */
    method NoteFinish(c: Conditions)
      requires site.Accounted() && site.store.All() == site.world.business.rows
      requires site.executions.rows == Finished(c).core.rows
      modifies site
      ensures site.Valid()
      ensures site.world == D.Next(site.modes, old(site.world), D.OnLedger(E.Finish(me, c.finishNow, c.finishFault)))
      ensures Phase() == E.PhaseOf(old(Finished(c)), me)
      ensures Extends() && Own() == old(Own()) + [D.OnLedger(E.Finish(me, c.finishNow, c.finishFault))]
      ensures site.trace != [] && Last(site.trace) == D.OnLedger(E.Finish(me, c.finishNow, c.finishFault))
      ensures D.Run(site.modes, D.INITIAL, site.trace[..|site.trace| - 1]) == old(site.world)
    {
      ghost var trace := site.trace;
      site.Note(D.OnLedger(E.Finish(me, c.finishNow, c.finishFault)));
      assert site.trace[..|site.trace| - 1] == trace;
    }

    function Finished(c: Conditions): E.State
      reads site
    {
      E.Next(site.modes, site.world.business.rows.approvals, site.world.ledger,
             E.Finish(me, c.finishNow, c.finishFault))
    }

    /** Permission, then a persisted APPROVED row for exactly this call. */
    method Validate(approval: ApprovalId, task: TaskId, call: ToolCall, permitted: bool, ghost entry: E.Entry)
      returns (failure: Option<Error>)
      requires site.Valid() && Phase() == E.Entered(E.Request(entry, approval, task, call))
      modifies site
      ensures site.Valid() && Extends()
      ensures failure.None? ==> Phase() == E.Authorized(E.Request(entry, approval, task, call))
      ensures failure.Some? ==> Phase() == E.Done(E.Raised(failure.value))
      ensures Own() == old(Own()) + [D.OnLedger(E.Validate(me, permitted))]
    {
      site.Reached();
      var found := site.store.GetApproval(approval);
      if !permitted {
        failure := Some(PermissionDenied);
      } else if found.None? || found.value.status != A.APPROVED || found.value.id != approval || found.value.taskId != task
         || found.value.callId != call.id || found.value.toolName != call.name || found.value.arguments != call.arguments {
        failure := Some(ResumeAuthorization);
      } else {
        failure := None;
      }
      Note(E.Validate(me, permitted));
    }

    /** A cached success, or the reason why the stored row must not be replayed. */
    method Replay(execution: L.ToolExecution, candidate: L.ToolExecution) returns (reply: E.Reply)
      ensures reply == E.Replay(execution, E.Request(E.Execute, candidate.approvalId, candidate.taskId,
                                                     candidate.Call()))
    {
      if execution.taskId != candidate.taskId || execution.callId != candidate.callId || execution.approvalId != candidate.approvalId
         || execution.toolName != candidate.toolName || execution.arguments != candidate.arguments {
        return E.Raised(IdentityConflict);
      }
      if execution.status == L.SUCCEEDED && execution.result.Some? {
        return E.Returned(ToolCall(execution.callId, execution.toolName, execution.arguments), execution.result.value);
      }
      if execution.status == L.UNKNOWN {
        return E.Raised(OutcomeUnknown);
      }
      reply := E.Raised(ReplayBlocked);
    }

    /** The others act. */
    method Interleave()
      requires site.Valid()
      modifies site, site.store, site.executions
      ensures site.Valid() && Extends() && Phase() == old(Phase())
      ensures Own() == old(Own())
    {
      var batch := site.Others(me);
      MineConcat(me, old(site.trace), batch);
    }

    /** Start a call of a service. */
    method Enter(req: E.Request)
      requires site.Valid() && (Phase().Idle? || Phase().Done?)
      modifies site
      ensures site.Valid() && Extends() && Phase() == E.Entered(req)
      ensures Own() == old(Own()) + [D.OnLedger(E.Begin(me, req))]
    {
      Note(E.Begin(me, req));
    }

    /** Claim once, call the tool once, settle the row; or return what the ledger already holds. */
    method Execute(approval: ApprovalId, task: TaskId, call: ToolCall, c: Conditions) returns (reply: E.Reply)
      requires site.Valid() && (Phase().Idle? || Phase().Done?)
      modifies site, site.store, site.executions
      ensures Answered(approval, task, call, reply) && Extends()
      ensures Followed(old(Own()) + [D.OnLedger(E.Begin(me, E.Request(E.Execute, approval, task, call)))], Own(),
                       ExecuteScript(me, c))
    {
      Enter(E.Request(E.Execute, approval, task, call));
      reply := ExecuteEntered(approval, task, call, c);
    }

    method ExecuteEntered(approval: ApprovalId, task: TaskId, call: ToolCall, c: Conditions) returns (reply: E.Reply)
      requires site.Valid() && Phase() == E.Entered(E.Request(E.Execute, approval, task, call))
      modifies site, site.store, site.executions
      ensures Answered(approval, task, call, reply) && Extends()
      ensures Followed(old(Own()), Own(), ExecuteScript(me, c))
    {
      ghost var own := Own();
      Interleave();
      var failure := Validate(approval, task, call, c.permitted, E.Execute);
      if failure.Some? {
        FirstOnly(own, Own(), ExecuteScript(me, c));
        return E.Raised(failure.value);
      }
      ghost var validated := Own();
      reply := ExecuteAuthorized(approval, task, call, c);
      FirstThen(own, validated, Own(), ExecuteScript(me, c));
    }

    method ExecuteAuthorized(approval: ApprovalId, task: TaskId, call: ToolCall, c: Conditions) returns (reply: E.Reply)
      requires site.Valid() && Phase() == E.Authorized(E.Request(E.Execute, approval, task, call))
      modifies site, site.store, site.executions
      ensures Answered(approval, task, call, reply) && Extends()
      ensures Followed(old(Own()), Own(), ExecuteScript(me, c)[1..])
    {
      ghost var own, script := Own(), ExecuteScript(me, c)[1..];
      var candidate := L.Candidate(c.candidateId, task, approval, call, c.created, c.updated);
      ScriptParts(me, c);
      Interleave();
      var answered;
      answered, reply := ReadExisting(candidate, approval, task, call, c);
      if answered {
        FirstOnly(own, Own(), script);
      } else {
        ghost var missing := Own();
        reply := ExecuteMissing(candidate, approval, task, call, c);
        FirstThen(own, missing, Own(), script);
      }
    }

    method ExecuteMissing(candidate: L.ToolExecution, approval: ApprovalId, task: TaskId, call: ToolCall, c: Conditions)
      returns (reply: E.Reply)
      requires site.Valid() && Phase() == E.Missing(E.Request(E.Execute, approval, task, call))
      requires candidate == L.Candidate(c.candidateId, task, approval, call, c.created, c.updated)
      modifies site, site.store, site.executions
      ensures Answered(approval, task, call, reply) && Extends()
      ensures Followed(old(Own()), Own(), ExecuteScript(me, c)[2..])
    {
      ghost var own, script := Own(), ExecuteScript(me, c)[2..];
      ScriptParts(me, c);
      Interleave();
      var won, execution;
      won, execution, reply := ClaimCandidate(candidate, approval, task, call, c);
      if won {
        ghost var claimed := Own();
        reply := ExecuteClaimed(execution, approval, task, call, c);
        FirstThenAll(own, claimed, Own(), script);
      } else {
        FirstOnly(own, Own(), script);
      }
    }

    /** A stored row is replayed; otherwise the tool must be registered and its input valid. */
    method ReadExisting(candidate: L.ToolExecution, approval: ApprovalId, task: TaskId, call: ToolCall, c: Conditions)
      returns (answered: bool, reply: E.Reply)
      requires site.Valid() && Phase() == E.Authorized(E.Request(E.Execute, approval, task, call))
      requires candidate == L.Candidate(c.candidateId, task, approval, call, c.created, c.updated)
      modifies site
      ensures site.Valid() && Extends()
      ensures answered ==> Answered(approval, task, call, reply)
      ensures !answered ==> Phase() == E.Missing(E.Request(E.Execute, approval, task, call))
      ensures Own() == old(Own()) + [ExecuteScript(me, c)[1]]
    {
      site.Reached();
      ReadOutcome(site.modes, site.world, me, E.Request(E.Execute, approval, task, call), c.registered, c.inputValid);
      answered, reply := TryReplay(candidate, c);
      Note(E.Read(me, c.registered, c.inputValid));
    }

    method TryReplay(candidate: L.ToolExecution, c: Conditions) returns (answered: bool, reply: E.Reply)
      ensures var req := E.Request(E.Execute, candidate.approvalId, candidate.taskId, candidate.Call());
              ReadReply(L.Lookup(site.executions.rows, req.SlotOf()), req, c.registered, c.inputValid) == if answered then Some(reply) else None
    {
      var existing := site.executions.Get(candidate.taskId, candidate.callId);
      answered, reply := true, E.Raised(ReplayBlocked);
      if existing.Some? {
        reply := Replay(existing.value, candidate);
      } else if !c.registered {
        reply := E.Raised(ToolNotFound);
      } else if !c.inputValid {
        reply := E.Raised(InvalidInput);
      } else {
        answered := false;
      }
    }

    /** The insert decides who may call the tool. */
    method ClaimCandidate(candidate: L.ToolExecution, approval: ApprovalId, task: TaskId, call: ToolCall, c: Conditions)
      returns (won: bool, execution: L.ToolExecution, reply: E.Reply)
      requires site.Valid() && Phase() == E.Missing(E.Request(E.Execute, approval, task, call))
      requires candidate == L.Candidate(c.candidateId, task, approval, call, c.created, c.updated)
      modifies site, site.executions
      ensures site.Valid() && Extends()
      ensures won ==> Phase() == E.Holding(execution) && ClaimFor(execution, approval, task, call)
      ensures !won ==> Answered(approval, task, call, reply)
      ensures Own() == old(Own()) + [ExecuteScript(me, c)[2]]
    {
      site.Reached();
      ClaimStepped(site.modes, site.world, me, E.Request(E.Execute, approval, task, call), c);
      ClaimOutcome(site.modes, site.world, me, E.Request(E.Execute, approval, task, call), c);
      won, execution, reply := TryClaim(candidate, c.claimFault);
      Note(E.Claim(me, c.candidateId, c.created, c.updated, c.claimFault));
    }

    method TryClaim(candidate: L.ToolExecution, fault: Fault)
      returns (won: bool, execution: L.ToolExecution, reply: E.Reply)
      modifies site.executions
      ensures site.executions.rows == L.ClaimedTable(old(site.executions.rows), candidate, fault)
      ensures won <==> Wins(L.ClaimReply(old(site.executions.rows), candidate, fault))
      ensures won ==> L.ClaimReply(old(site.executions.rows), candidate, fault).value.row == execution
      ensures !won ==> reply == LosingReply(L.ClaimReply(old(site.executions.rows), candidate, fault),
                                            E.Request(E.Execute, candidate.approvalId, candidate.taskId,
                                                      candidate.Call()))
    {
      var claimed := site.executions.Claim(candidate, fault);
      won, execution := false, candidate;
      match claimed {
        case Err(e) => reply := E.Raised(e);
        case Ok(Claimed(row, inserted)) =>
          execution := row;
          won := inserted;
          reply := Replay(row, candidate);
      }
    }

    /** The tool is called exactly once per claim; its outcome is written under the claim's generation. */
    method ExecuteClaimed(execution: L.ToolExecution, approval: ApprovalId, task: TaskId, call: ToolCall, c: Conditions)
      returns (reply: E.Reply)
      requires site.Valid() && Phase() == E.Holding(execution) && ClaimFor(execution, approval, task, call)
      modifies site, site.store, site.executions
      ensures Answered(approval, task, call, reply) && Extends()
      ensures Own() == old(Own()) + ExecuteScript(me, c)[3..]
      ensures Settled(execution, c, reply)
    {
      ghost var own := Own();
      CallTool(execution, c.outcome);
      ghost var called := Own();
      reply := Settle(execution, approval, task, call, c);
      assert Own() == called + [D.OnLedger(E.Finish(me, c.finishNow, c.finishFault))];
      assert called == own + [D.OnLedger(E.Invoke(me, c.outcome))];
    }

    method CallTool(execution: L.ToolExecution, outcome: E.Outcome)
      requires site.Valid() && Phase() == E.Holding(execution)
      modifies site, site.store, site.executions
      ensures site.Valid() && Extends() && Phase() == E.Called(execution, outcome)
      ensures Own() == old(Own()) + [D.OnLedger(E.Invoke(me, outcome))]
    {
      Interleave();
      Note(E.Invoke(me, outcome));
      Interleave();
    }

    method Settle(execution: L.ToolExecution, approval: ApprovalId, task: TaskId, call: ToolCall, c: Conditions)
      returns (reply: E.Reply)
      requires site.Valid() && Phase() == E.Called(execution, c.outcome) && ClaimFor(execution, approval, task, call)
      modifies site, site.executions
      ensures Answered(approval, task, call, reply) && Extends()
      ensures Own() == old(Own()) + [ExecuteScript(me, c)[4]]
      ensures Settled(execution, c, reply)
      ensures O.Replied(old(site.executions.rows), execution, c.outcome, c.finishFault, reply)
    {
      site.Reached();
      O.FinishTells(site.modes, site.world.business.rows.approvals, site.world.ledger, me, execution, c.outcome,
                    c.finishNow, c.finishFault);
      FinishIsBacked(site.modes, site.world, me, execution, c.outcome, c.finishNow, c.finishFault, approval, task,
                     call);
      ClaimIsWellFormed();
      FinishInOneStep(site.modes, site.world, me, execution, c);
      reply := WriteOutcome(execution, c);
      NoteFinish(c);
    }

    lemma ClaimIsWellFormed()
      requires site.Valid() && Phase().Called?
      ensures Phase().row.WellFormed() && Phase().row.status.EXECUTING?
    {
      site.Reached();
      assert LI.PhaseOk(site.modes, site.world.business.rows.approvals, site.world.ledger.core, Phase());
    }

    /** Success, known absence of an effect, or an unknown outcome. */
    method WriteOutcome(execution: L.ToolExecution, c: Conditions) returns (reply: E.Reply)
      requires execution.WellFormed() && execution.status.EXECUTING?
      modifies site.executions
      ensures var terminal := E.Verdict(execution, c.outcome, c.finishNow).value;
              && site.executions.rows == L.FinishedTable(old(site.executions.rows), terminal, Some(execution.updatedAt),
                                                         c.finishFault)
              && reply == E.FinalReply(execution, c.outcome,
                            L.FinishError(old(site.executions.rows), terminal, Some(execution.updatedAt),
                                          c.finishFault))
    {
      match c.outcome {
        case NoEffect =>
          var _ := PersistFailure(execution, L.FAILED, "known_no_effect", c);
          reply := E.Raised(FailedWithoutEffect);
        case Unsure =>
          var _ := PersistFailure(execution, L.UNKNOWN, "outcome_unknown", c);
          reply := E.Raised(OutcomeUnknown);
        case OtherError =>
          var lost := PersistFailure(execution, L.UNKNOWN, "outcome_unknown", c);
          reply := if lost then E.Raised(ToolFailed) else E.Raised(OutcomeUnknown);
        case Content(text) =>
          var terminal := execution.Finish(L.SUCCEEDED, Some(text), None, c.finishNow);
          var failure := site.executions.Finish(terminal.value, Some(execution.updatedAt), c.finishFault);
          reply := if failure.Some? then E.Raised(failure.value) else E.Returned(execution.Call(), text);
      }
    }

    /** Did writing the failure itself fail? The original error is raised either way. */
    method PersistFailure(execution: L.ToolExecution, status: L.ExecutionStatus, code: string, c: Conditions)
      returns (lost: bool)
      requires execution.WellFormed() && execution.status.EXECUTING?
      requires (status.FAILED? || status.UNKNOWN?) && code != ""
      modifies site.executions
      ensures var terminal := execution.Finish(status, None, Some(code), c.finishNow).value;
              && site.executions.rows == L.FinishedTable(old(site.executions.rows), terminal, Some(execution.updatedAt),
                                                         c.finishFault)
              && lost == L.FinishError(old(site.executions.rows), terminal, Some(execution.updatedAt),
                                       c.finishFault).Some?
    {
      var terminal := execution.Finish(status, None, Some(code), c.finishNow);
      var failure := site.executions.Finish(terminal.value, Some(execution.updatedAt), c.finishFault);
      lost := failure.Some?;
    }

    /** One explicit recovery attempt: a cached success, or a new claim on an abandoned row of a retryable tool. */
    method Recover(approval: ApprovalId, task: TaskId, call: ToolCall, staleBefore: Time, c: Conditions)
      returns (reply: E.Reply, ghost cached: bool)
      requires site.Valid() && (Phase().Idle? || Phase().Done?)
      modifies site, site.store, site.executions
      ensures Answered(approval, task, call, reply) && Extends()
      ensures Followed(old(Own()) + [D.OnLedger(E.Begin(me, E.Request(E.Recover(staleBefore), approval, task, call)))],
                       Own(),
                       RecoverScript(me, c, cached))
    {
      Enter(E.Request(E.Recover(staleBefore), approval, task, call));
      reply, cached := RecoverEntered(approval, task, call, staleBefore, c);
    }

    method RecoverEntered(approval: ApprovalId, task: TaskId, call: ToolCall, staleBefore: Time, c: Conditions)
      returns (reply: E.Reply, ghost cached: bool)
      requires site.Valid() && Phase() == E.Entered(E.Request(E.Recover(staleBefore), approval, task, call))
      modifies site, site.store, site.executions
      ensures Answered(approval, task, call, reply) && Extends()
      ensures Followed(old(Own()), Own(), RecoverScript(me, c, cached))
    {
      ghost var own := Own();
      Interleave();
      var failure := Validate(approval, task, call, c.permitted, E.Recover(staleBefore));
      cached := false;
      if failure.Some? {
        FirstOnly(own, Own(), RecoverScript(me, c, false));
        return E.Raised(failure.value), false;
      }
      ghost var validated := Own();
      reply, cached := RecoverAuthorized(approval, task, call, staleBefore, c);
      FirstThen(own, validated, Own(), RecoverScript(me, c, cached));
    }

    method RecoverAuthorized(approval: ApprovalId, task: TaskId, call: ToolCall, staleBefore: Time, c: Conditions)
      returns (reply: E.Reply, ghost cached: bool)
      requires site.Valid() && Phase() == E.Authorized(E.Request(E.Recover(staleBefore), approval, task, call))
      modifies site, site.store, site.executions
      ensures Answered(approval, task, call, reply) && Extends()
      ensures Followed(old(Own()), Own(), RecoverScript(me, c, cached)[1..])
    {
      ghost var own := Own();
      Interleave();
      var found;
      found, reply := ReadAbandoned(approval, task, call, staleBefore, c);
      ghost var read := Own();
      cached := Phase().Entered?;
      ghost var script := RecoverScript(me, c, cached)[1..];
      if Phase().Entered? {
        reply := ExecuteEntered(approval, task, call, c);
        assert script[1..] == ExecuteScript(me, c);
        FirstThen(own, read, Own(), script);
      } else if found.Some? {
        reply := RecoverStale(found.value, approval, task, call, staleBefore, c);
        assert script[1..] == RecoverScript(me, c, false)[2..];
        FirstThen(own, read, Own(), script);
      } else {
        FirstOnly(own, read, script);
      }
    }

    method RecoverStale(execution: L.ToolExecution, approval: ApprovalId, task: TaskId, call: ToolCall,
                        staleBefore: Time, c: Conditions)
      returns (reply: E.Reply)
      requires site.Valid() && Phase() == E.Stale(E.Request(E.Recover(staleBefore), approval, task, call), execution)
      modifies site, site.store, site.executions
      ensures Answered(approval, task, call, reply) && Extends()
      ensures Followed(old(Own()), Own(), RecoverScript(me, c, false)[2..])
    {
      ghost var own, script := Own(), RecoverScript(me, c, false)[2..];
      SharedEnding(me, c);
      Interleave();
      var claimed;
      claimed, reply := ReclaimAbandoned(execution, approval, task, call, staleBefore, c);
      if claimed.Some? {
        ghost var reclaimed := Own();
        reply := ExecuteClaimed(claimed.value, approval, task, call, c);
        FirstThenAll(own, reclaimed, Own(), script);
      } else {
        FirstOnly(own, Own(), script);
      }
    }

    method ReadAbandoned(approval: ApprovalId, task: TaskId, call: ToolCall, staleBefore: Time, c: Conditions)
      returns (found: Option<L.ToolExecution>, reply: E.Reply)
      requires site.Valid() && Phase() == E.Authorized(E.Request(E.Recover(staleBefore), approval, task, call))
      modifies site
      ensures site.Valid() && Extends()
      ensures Phase().Entered? ==> Phase() == E.Entered(E.Request(E.Execute, approval, task, call))
      ensures !Phase().Entered? && found.Some? ==>
                Phase() == E.Stale(E.Request(E.Recover(staleBefore), approval, task, call), found.value)
      ensures !Phase().Entered? && found.None? ==> Answered(approval, task, call, reply)
      ensures Own() == old(Own()) + [RecoverScript(me, c, false)[1]]
    {
      ghost var req := E.Request(E.Recover(staleBefore), approval, task, call);
      FindingOutcome(site.modes, site.world, me, req, c.registered, c.inputValid);
      var finding := Find(approval, task, call, staleBefore, c.registered);
      match finding {
        case Cached => found, reply := None, E.Raised(ReplayBlocked);
        case Retried(row) => found, reply := Some(row), E.Raised(ReplayBlocked);
        case Refused(e) => found, reply := None, E.Raised(e);
      }
      Note(E.Read(me, c.registered, c.inputValid));
    }

    method Find(approval: ApprovalId, task: TaskId, call: ToolCall, staleBefore: Time, registered: bool)
      returns (finding: Found)
      ensures var req := E.Request(E.Recover(staleBefore), approval, task, call);
              finding == Finding(L.Lookup(site.executions.rows, req.SlotOf()), req, registered, site.modes(call.name))
    {
      var execution := site.executions.Get(task, call.id);
      if execution.None? {
        return Refused(ReplayBlocked);
      }
      if execution.value.taskId != task || execution.value.approvalId != approval || execution.value.callId != call.id
         || execution.value.toolName != call.name || execution.value.arguments != call.arguments {
        return Refused(IdentityConflict);
      }
      if execution.value.status == L.SUCCEEDED {
        return Cached;
      }
      if execution.value.updatedAt > staleBefore {
        return Refused(ReplayBlocked);
      }
      if !registered {
        return Refused(ToolNotFound);
      }
      if site.modes(call.name) != EXTERNAL_KEY && site.modes(call.name) != INHERENT {
        return Refused(ReplayBlocked);
      }
      finding := Retried(execution.value);
    }

    method ReclaimAbandoned(execution: L.ToolExecution, approval: ApprovalId, task: TaskId, call: ToolCall,
                            staleBefore: Time, c: Conditions)
      returns (claimed: Option<L.ToolExecution>, reply: E.Reply)
      requires site.Valid() && Phase() == E.Stale(E.Request(E.Recover(staleBefore), approval, task, call), execution)
      modifies site, site.executions
      ensures site.Valid() && Extends()
      ensures claimed.Some? ==> Phase() == E.Holding(claimed.value) && ClaimFor(claimed.value, approval, task, call)
      ensures claimed.None? ==> Answered(approval, task, call, reply)
      ensures Own() == old(Own()) + [RecoverScript(me, c, false)[2]]
    {
      site.Reached();
      ghost var req := E.Request(E.Recover(staleBefore), approval, task, call);
      ReclaimStepped(site.modes, site.world, me, req, execution, c);
      ReclaimOutcome(site.modes, site.world, me, req, execution, staleBefore, c.reclaimNow, c.reclaimFault);
      var result := site.executions.ClaimRecovery(execution, staleBefore, c.reclaimNow, c.reclaimFault);
      claimed := None;
      match result {
        case Err(e) => reply := E.Raised(e);
        case Ok(None) => reply := E.Raised(ReplayBlocked);
        case Ok(Some(row)) => claimed, reply := Some(row), E.Raised(ReplayBlocked);
      }
      Note(E.Reclaim(me, c.reclaimNow, c.reclaimFault));
    }
  }
}
