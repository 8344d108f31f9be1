/** Operator recovery of a workflow that a crash left between its approval and the checkpoint of its tool node. */
module WindowRecovery {
  import opened Values
  import TM = TaskModel
  import A = ApprovalModel
  import L = LedgerModel
  import B = BusinessProtocol
  import E = ExecutionProtocol
  import LI = LedgerInvariant
  import D = Deployment
  import G = AgentGraph
  import R = AgentRuntime
  import DR = DurableRun
  import I = Invocations
  import opened RecoveryRules
  import TR = TaskRecovery
  import TS = TaskServices
  import SA = SecondAttempt

  /** The site shows this flow, its actor is between two calls, and nobody else is at work. */
  ghost predicate Resting(recovery: TR.TaskRecoveryService, modes: E.Modes, f: DR.Flow)
    reads recovery.service.site, recovery.service.site.store, recovery.service.site.executions
  {
    && recovery.Valid() && recovery.service.site.modes == modes && recovery.service.site.world == f.world
    && recovery.service.Alone()
    && (recovery.service.Hold().Free? || recovery.service.Hold().Captured?)
    && (recovery.service.Phase().Idle? || recovery.service.Phase().Done?)
  }

  /** The stored checkpoints show it as well. */
  ghost predicate AtRest(recovery: TR.TaskRecoveryService, modes: E.Modes, task: TaskId, f: DR.Flow)
    reads recovery.service.runtime, recovery.service.site, recovery.service.site.store, recovery.service.site.executions
  {
    var runtime := recovery.service.runtime;
    Resting(recovery, modes, f) && runtime.Valid() && R.Stored(runtime.saved, task)
    && R.Latest(runtime.saved, task) == f.cp
  }

  /** The registry knows the pending tool, the clock has reached the Task's stamp, and the claim meets no fault. */
  ghost predicate Fair(g: DR.Setting, f: DR.Flow, capability: Capability, c: TR.Circumstances)
    requires f.cp.state.pending.Some? && f.cp.state.taskId in f.world.business.rows.tasks
  {
    && capability(f.cp.state.pending.value.call.name) == Some(g.modes(f.cp.state.pending.value.call.name))
    && f.world.business.rows.tasks[f.cp.state.taskId].updatedAt <= c.writeNow && c.writeFault == Fine
  }

  /** What recovery reads of a world at rest. */
  function Shown(w: D.World, task: TaskId, c: TR.Circumstances): Reading {
    Reading(TS.Find(w.business.rows.tasks, task), c.evidence, TR.Cutoff(c), w.ledger.core.rows,
            w.business.rows.approvals)
  }

  predicate Yielding(w: D.World, task: TaskId, c: TR.Circumstances) {
    task in w.business.rows.tasks ==> TR.Yields(w.business.rows.tasks, w.business.rows.tasks[task], c)
  }

  /* ---- recover() with nobody else at work ---- */

  /** What a recovery came to: its decision, the attempt on an abandoned call, its ending and its report, the world after
      its claim, and where it ended in the ledger protocol. */
  datatype Course = Course(d: Decision, redo: TR.Redo, ending: TR.Ending, reply: Result<TR.RecoveryOutcome>,
                           claimed: D.World, phase: E.Phase)

  /** The decision on the tables as they are; a dispatch that need not give way is handed over exactly when its attempt
      raised, and otherwise continued from the claimed row, with the reply for the tables that show the claim. */
  ghost predicate CarriedOut(modes: E.Modes, me: ActorId, w: D.World, task: TaskId, capability: Capability,
                             c: TR.Circumstances, o: Course) {
    && o.d == Classify(task, Shown(w, task, c), capability)
    && (o.d.Dispatch? ==> task in w.business.rows.tasks)
    && (o.ending.GaveWay? <==> !o.d.Dispatch? || Yielding(w, task, c))
    && TR.RedoFits(o.redo, o.d, o.ending)
    && (!o.ending.GaveWay? ==> Continued(modes, me, w, w.business.rows.tasks[task], c, o))
  }

  ghost predicate Continued(modes: E.Modes, me: ActorId, w: D.World, row: TM.TaskRow, c: TR.Circumstances, o: Course)
    requires o.d.Dispatch?
  {
    && D.Inv(modes, o.claimed) && o.claimed.ledger == w.ledger
    && o.claimed.business.rows == TR.ClaimedRows(w.business.rows, row, c)
    && o.phase == E.PhaseOf(D.Run(modes, o.claimed, TR.Redone(me, o.redo, o.d.approval, row.id, o.d.call, c)).ledger,
                            me)
    && (o.ending.HandedOver? <==> o.redo.Redo? && o.phase.Done? && o.phase.reply.Raised?)
    && (o.redo.Redo? ==> o.phase.Done?)
    && (o.ending.Resumed? ==>
          && TR.ResumedOn(o.ending, o.claimed.business.rows, TR.ClaimOf(row, c.writeNow), c)
          && o.reply == if o.ending.t.reply.Ok? then Ok(TR.RECOVERED) else Err(o.ending.t.reply.error))
  }

  /** An actor's own steps after a recovery on these tables. */
  function After(own: seq<D.Step>, me: ActorId, w: D.World, task: TaskId, c: TR.Circumstances, o: Course): seq<D.Step> {
    var found := TS.Find(w.business.rows.tasks, task);
    own + TR.Reads(me, task, found) + TR.Deeds(me, o.d, found, o.redo, o.ending, c)
  }

  /** A claim that is granted writes the row of the Task and nothing else. */
  lemma ClaimLands(modes: E.Modes, met: D.World, before: D.World, me: ActorId, row: TM.TaskRow, c: TR.Circumstances)
    requires D.Inv(modes, met) && TR.SameTables(before, met) && B.HoldOf(met.business, me) == B.Captured(row)
    requires TR.ClaimReply(before.business.rows.tasks, row, c.writeNow, c.writeFault) == Ok(true)
    ensures var w := D.Next(modes, met, TS.Writing(me, TM.ClaimRecovery, c.writeNow, c.writeFault));
            D.Inv(modes, w) && w.ledger == before.ledger
            && w.business.rows == TR.ClaimedRows(before.business.rows, row, c)
  {
    D.NextKeeps(modes, met, TS.Writing(me, TM.ClaimRecovery, c.writeNow, c.writeFault));
    TS.WriteStep(met.business, me, row, TR.ClaimOf(row, c.writeNow), TM.ClaimRecovery, c.writeNow, c.writeFault);
  }

  /** recover() with nobody else at work: the decision on the tables as they are, carried out unless it must yield. */
  method Undisturbed(recovery: TR.TaskRecoveryService, task: TaskId, capability: Capability, c: TR.Circumstances)
    returns (reply: Result<TR.RecoveryOutcome>, ghost o: Course)
    requires recovery.Valid() && recovery.service.runtime.Valid() && recovery.service.Alone()
    requires recovery.service.Hold().Free? || recovery.service.Hold().Captured?
    requires recovery.service.Phase().Idle? || recovery.service.Phase().Done?
    modifies recovery.service.site, recovery.service.site.store
    modifies recovery.service.site.executions, recovery.service.runtime
    ensures recovery.Valid() && reply == o.reply && recovery.service.Phase() == o.phase
    ensures CarriedOut(recovery.service.site.modes, recovery.service.me, old(recovery.service.site.world), task,
                       capability, c, o)
    ensures recovery.service.Own() == After(old(recovery.service.Own()), recovery.service.me,
                                            old(recovery.service.site.world), task, c, o)
    ensures o.d.Dispatch? ==> c.evidence.Evidence?
                              && recovery.service.RuntimeCalled(task, TR.EntryOf(o.d, c.evidence), c.outside,
                                                                TR.TakenBy(o.ending))
    ensures !o.d.Dispatch? ==> unchanged(recovery.service.runtime)
  {
    ghost var before, site := recovery.service.site.world, recovery.service.site;
    ghost var d, r, at, redo, ending, moved;
    reply, d, r, at, redo, ending, moved := recovery.Recover(task, capability, c);
    ghost var met := TR.Moment(site.modes, site.trace, at.decided);
    ghost var claimed := recovery.AfterClaim(met, c);
    o := Course(d, redo, ending, reply, claimed, recovery.service.Phase());
    assert r == Shown(before, task, c);
    if !ending.GaveWay? {
      D.Reachable(site.modes, site.trace[..at.decided]);
      ContinuesAsTold(recovery, met, before, r.task.value, c, o, at.decided + 1);
    }
  }

  /** What recover() promises of a dispatch that went on, in terms of the tables before it. */
  lemma ContinuesAsTold(recovery: TR.TaskRecoveryService, met: D.World, before: D.World, row: TM.TaskRow,
                        c: TR.Circumstances, o: Course,
                        from: nat)
    requires o.d.Dispatch? && !o.ending.GaveWay? && o.phase == recovery.service.Phase()
    requires o.claimed == recovery.AfterClaim(met, c)
    requires D.Inv(recovery.service.site.modes, met)
    requires TR.SameTables(before, met) && B.HoldOf(met.business, recovery.service.me) == B.Captured(row)
    requires recovery.Carried(met.business.rows.tasks, o.reply, o.ending, row, o.d, c, from)
    requires TR.RedoFits(o.redo, o.d, o.ending)
    requires recovery.Foreseen(o.claimed, o.redo, o.ending, TR.ClaimOf(row, c.writeNow), o.d, c)
    ensures Continued(recovery.service.site.modes, recovery.service.me, before, row, c, o)
  {
    ClaimLands(recovery.service.site.modes, met, before, recovery.service.me, row, c);
  }

  /* ---- the window ---- */

  /** A dispatch exactly when the ledger row lets it, and then it does not give way. */
  predicate Decided(g: DR.Setting, f: DR.Flow, o: Course)
    requires f.cp.state.pending.Some?
  {
    var p, rows := f.cp.state.pending.value, f.world.ledger.core.rows;
    var slot := L.Slot(f.cp.state.taskId, p.call.id);
    && o.d == (if Continuable(rows, slot, p.id, g.modes(p.call.name))
               then Dispatch(p.id, p.call, L.Lookup(rows, slot), f.cp.next.ApprovalPause?) else Review(false))
    && (!o.ending.GaveWay? <==> Continuable(rows, slot, p.id, g.modes(p.call.name)))
  }

  /** What recover() comes to in the window: a dispatch exactly when the ledger row lets it, which goes through the ledger
      first exactly for an abandoned attempt, is handed over exactly when that attempt raised, and never when the tool
      serves; otherwise the claimed row is continued. */
  ghost predicate Expected(g: DR.Setting, f: DR.Flow, c: TR.Circumstances, o: Course)
    requires f.cp.state.pending.Some? && f.cp.state.taskId in f.world.business.rows.tasks
  {
    var b, rows := f.world.business.rows, f.world.ledger.core.rows;
    var task, slot := b.tasks[f.cp.state.taskId], L.Slot(f.cp.state.taskId, f.cp.state.pending.value.call.id);
    && Decided(g, f, o)
    && (o.redo.Redo? <==> !o.ending.GaveWay? && slot in rows && !rows[slot].Settled())
    && (o.ending.HandedOver? <==> o.redo.Redo? && o.phase.Done? && o.phase.reply.Raised?)
    && (SA.Serves(c.tool) ==> !o.ending.HandedOver?)
    && (o.ending.Resumed? ==>
          && TR.ResumedOn(o.ending, TR.ClaimedRows(b, task, c), TR.ClaimOf(task, c.writeNow), c)
          && o.reply == if o.ending.t.reply.Ok? then Ok(TR.RECOVERED) else Err(o.ending.t.reply.error))
  }

  /** The decision and the claim on the tables of the flow. */
  lemma {:induction false} DispatchIsOwed(g: DR.Setting, messages: seq<G.Message>, f: DR.Flow, capability: Capability,
                                          c: TR.Circumstances)
    requires DR.Inv(g, messages, f) && QuietWindow(f, TR.Cutoff(c)) && Fair(g, f, capability, c)
    requires c.evidence.Evidence? && c.evidence.checkpoint == f.cp && !TR.Superseded(c)
    ensures var p, rows := f.cp.state.pending.value, f.world.ledger.core.rows;
            var slot := L.Slot(f.cp.state.taskId, p.call.id);
            && Classify(f.cp.state.taskId, Shown(f.world, f.cp.state.taskId, c), capability) ==
                 (if Continuable(rows, slot, p.id, g.modes(p.call.name))
                  then Dispatch(p.id, p.call, L.Lookup(rows, slot), f.cp.next.ApprovalPause?) else Review(false))
            && !Yielding(f.world, f.cp.state.taskId, c)
  {
    ClassifiedInWindow(g, messages, f, c.evidence.checkpointId, TR.Cutoff(c), capability);
    assert Shown(f.world, f.cp.state.taskId, c) == ReadingOf(f, c.evidence.checkpointId, TR.Cutoff(c));
    ClaimsAreGranted(g.modes, f.world, f.cp.state.taskId, L.Slot(f.cp.state.taskId, f.cp.state.pending.value.call.id),
                     TR.Cutoff(c), c.writeNow);
  }

  /** In the window the pending request is authorized. */
  lemma AuthorizedInWindow(g: DR.Setting, messages: seq<G.Message>, f: DR.Flow, cutoff: Time)
    requires DR.Inv(g, messages, f) && QuietWindow(f, cutoff)
    ensures var p := f.cp.state.pending.value; A.Authorizes(f.world.business.rows.approvals, p.id, f.cp.state.taskId,
                                                            p.call)
  {
  }

  /** An attempt that was left open in the window may be made again, before and after the claim of the Task. */
  lemma {:induction false} RetriableInWindow(g: DR.Setting, messages: seq<G.Message>, f: DR.Flow, cutoff: Time,
                                             claimed: D.World)
    requires DR.Inv(g, messages, f) && QuietWindow(f, cutoff)
    requires claimed.ledger == f.world.ledger && claimed.business.rows.approvals == f.world.business.rows.approvals
    requires var p, rows := f.cp.state.pending.value, f.world.ledger.core.rows;
             var slot := L.Slot(f.cp.state.taskId, p.call.id);
             Continuable(rows, slot, p.id, g.modes(p.call.name)) && slot in rows && !rows[slot].Settled()
    ensures var p := f.cp.state.pending.value;
            SA.Retriable(g.modes, claimed, E.Request(E.Recover(cutoff), p.id, f.cp.state.taskId, p.call))
  {
    var p := f.cp.state.pending.value;
    var slot := L.Slot(f.cp.state.taskId, p.call.id);
    AuthorizedInWindow(g, messages, f, cutoff);
    RowUnderApproval(g.modes, f.world, slot, p);
    assert LI.CellOk(g.modes, f.world.business.rows.approvals, slot, LI.CellAt(f.world.ledger.core, slot));
    assert !(f.world.ledger.core.rows[slot].updatedAt > cutoff);
  }

  /** A second attempt on a tool that serves is answered. */
  lemma {:induction false} AnsweredInWindow(g: DR.Setting, messages: seq<G.Message>, f: DR.Flow, c: TR.Circumstances,
                                            claimed: D.World,
                                            me: ActorId, redo: TR.Redo)
    requires DR.Inv(g, messages, f) && QuietWindow(f, TR.Cutoff(c)) && SA.Serves(c.tool) && redo.Redo?
    requires E.PhaseOf(f.world.ledger, me).Idle? || E.PhaseOf(f.world.ledger, me).Done?
    requires D.Inv(g.modes, claimed)
             && claimed.ledger == f.world.ledger && claimed.business.rows.approvals == f.world.business.rows.approvals
    requires var p, rows := f.cp.state.pending.value, f.world.ledger.core.rows;
             var slot := L.Slot(f.cp.state.taskId, p.call.id);
             Continuable(rows, slot, p.id, g.modes(p.call.name)) && slot in rows && !rows[slot].Settled()
    ensures var p := f.cp.state.pending.value;
            SA.AnsweredIfOver(g.modes, claimed, me, p.call, c.tool.outcome.text,
                              TR.Redone(me, redo, p.id, f.cp.state.taskId, p.call, c))
  {
    var p := f.cp.state.pending.value;
    RetriableInWindow(g, messages, f, TR.Cutoff(c), claimed);
    SA.AttemptAnswers(g.modes, claimed, me, p.id, f.cp.state.taskId, p.call, redo, c);
  }

  /** recover() on the tables of a flow in the window. */
  lemma {:induction false} ExpectedInWindow(g: DR.Setting, messages: seq<G.Message>, f: DR.Flow, capability: Capability,
                                            c: TR.Circumstances,
                                            me: ActorId, o: Course)
    requires DR.Inv(g, messages, f) && QuietWindow(f, TR.Cutoff(c)) && Fair(g, f, capability, c)
    requires c.evidence.Evidence? && c.evidence.checkpoint == f.cp && !TR.Superseded(c)
    requires E.PhaseOf(f.world.ledger, me).Idle? || E.PhaseOf(f.world.ledger, me).Done?
    requires CarriedOut(g.modes, me, f.world, f.cp.state.taskId, capability, c, o)
    ensures Expected(g, f, c, o)
  {
    DispatchIsOwed(g, messages, f, capability, c);
    ExpectedOnceDecided(g, messages, f, c, me, o);
  }

  lemma {:induction false} ExpectedOnceDecided(g: DR.Setting, messages: seq<G.Message>, f: DR.Flow, c: TR.Circumstances,
                                               me: ActorId, o: Course)
    requires DR.Inv(g, messages, f) && QuietWindow(f, TR.Cutoff(c))
    requires E.PhaseOf(f.world.ledger, me).Idle? || E.PhaseOf(f.world.ledger, me).Done?
    requires Decided(g, f, o) && TR.RedoFits(o.redo, o.d, o.ending)
    requires !o.ending.GaveWay? ==>
              Continued(g.modes, me, f.world, f.world.business.rows.tasks[f.cp.state.taskId], c, o)
    ensures Expected(g, f, c, o)
  {
    if SA.Serves(c.tool) && o.redo.Redo? {
      AnsweredInWindow(g, messages, f, c, o.claimed, me, o.redo);
    }
  }

  /** The runtime lets the continuation in that recovery asks for. */
  lemma RuntimeLetsIn(f: DR.Flow, cutoff: Time, saved: R.Saver, d: Decision)
    requires QuietWindow(f, cutoff)
    requires R.Stored(saved, f.cp.state.taskId) && R.Latest(saved, f.cp.state.taskId) == f.cp
    requires var p, task := f.cp.state.pending.value, f.cp.state.taskId;
             d.Dispatch? && d.approval == p.id && d.atPause == f.cp.next.ApprovalPause?
    ensures var p, task := f.cp.state.pending.value, f.cp.state.taskId;
            I.LetsIn(saved, task, TR.EntryOf(d, R.Evidence(|saved[task]|, f.cp)), true)
  {
  }

  /** The pending request is authorized; given permission as well, the resumed workflow was let in and went on from the
      checkpoint of the flow. */
  ghost predicate LetIn(f: DR.Flow, o: Course, permitted: bool)
    requires f.cp.state.pending.Some?
  {
    var p := f.cp.state.pending.value;
    && A.Authorizes(f.world.business.rows.approvals, p.id, f.cp.state.taskId, p.call)
    && (permitted && o.ending.Resumed? ==>
          && o.ending.t.visit.joined.Some?
          && var i := o.ending.t.visit.joined.value;
             R.Invoked(f.cp, i.env, i.command, i.limit, i.cp, i.reply, i.nodes, i.turns)
             && i.reply == o.ending.t.visit.said)
  }

  /** At every point of the window, recover() reads what the flow shows, wins its claim and goes on, if and only if the
      ledger row lets it; otherwise it hands the Task over. */
  method RecoverInWindow(recovery: TR.TaskRecoveryService, task: TaskId, capability: Capability, c: TR.Circumstances,
                         ghost g: DR.Setting, ghost messages: seq<G.Message>, ghost maxSteps: nat, ghost start: D.World,
                         ghost moves: seq<DR.Move>)
    returns (reply: Result<TR.RecoveryOutcome>, met: TR.Circumstances, ghost o: Course)
    requires D.Inv(g.modes, start)
    requires var f := DR.Follow(g, DR.Begin(task, messages, maxSteps, start), moves);
             AtRest(recovery, g.modes, task, f) && QuietWindow(f, TR.Cutoff(c)) && Fair(g, f, capability, c)
    modifies recovery.service.site, recovery.service.site.store
    modifies recovery.service.site.executions, recovery.service.runtime
    ensures recovery.Valid() && reply == o.reply && recovery.service.Phase() == o.phase
    ensures met == c.(evidence := met.evidence, evidenceAfterClaim := met.evidence)
    ensures var f := DR.Follow(g, DR.Begin(task, messages, maxSteps, start), moves);
            && f.cp.state.taskId == task && Expected(g, f, met, o) && LetIn(f, o, c.outside.authorized)
            && recovery.service.Own() == After(old(recovery.service.Own()), recovery.service.me, f.world, task, met, o)
  {
    ghost var f := DR.Follow(g, DR.Begin(task, messages, maxSteps, start), moves);
    DR.BeginHolds(g, task, messages, maxSteps, start);
    DR.FollowKeeps(g, messages, DR.Begin(task, messages, maxSteps, start), moves);
    reply, met, o := RecoverStored(recovery, capability, c, g, messages, f, task);
  }

  /** The same on the flow itself. */
  method RecoverStored(recovery: TR.TaskRecoveryService, capability: Capability, c: TR.Circumstances,
                       ghost g: DR.Setting, ghost messages: seq<G.Message>, ghost f: DR.Flow, task: TaskId)
    returns (reply: Result<TR.RecoveryOutcome>, met: TR.Circumstances, ghost o: Course)
    requires DR.Inv(g, messages, f) && f.cp.state.taskId == task && QuietWindow(f, TR.Cutoff(c))
    requires Fair(g, f, capability, c)
    requires AtRest(recovery, g.modes, task, f)
    modifies recovery.service.site, recovery.service.site.store
    modifies recovery.service.site.executions, recovery.service.runtime
    ensures recovery.Valid() && reply == o.reply && recovery.service.Phase() == o.phase
    ensures met == c.(evidence := met.evidence, evidenceAfterClaim := met.evidence)
    ensures Expected(g, f, met, o) && LetIn(f, o, c.outside.authorized)
    ensures recovery.service.Own() == After(old(recovery.service.Own()), recovery.service.me, f.world, task, met, o)
  {
    AuthorizedInWindow(g, messages, f, TR.Cutoff(c));
    met := Evidenced(recovery.service.runtime, task, c);
    ghost var saved := recovery.service.runtime.saved;
    reply, o := RecoverFlow(recovery, capability, met, g, messages, f, task);
    if o.ending.Resumed? {
      RuntimeLetsIn(f, TR.Cutoff(c), saved, o.d);
    }
  }

  /** ... with evidence of its checkpoint. */
  method RecoverFlow(recovery: TR.TaskRecoveryService, capability: Capability, c: TR.Circumstances,
                     ghost g: DR.Setting, ghost messages: seq<G.Message>, ghost f: DR.Flow, task: TaskId)
    returns (reply: Result<TR.RecoveryOutcome>, ghost o: Course)
    requires DR.Inv(g, messages, f) && f.cp.state.taskId == task && QuietWindow(f, TR.Cutoff(c))
    requires Fair(g, f, capability, c)
    requires c.evidence.Evidence? && c.evidence.checkpoint == f.cp && !TR.Superseded(c)
    requires Resting(recovery, g.modes, f) && recovery.service.runtime.Valid()
    modifies recovery.service.site, recovery.service.site.store
    modifies recovery.service.site.executions, recovery.service.runtime
    ensures recovery.Valid() && reply == o.reply && recovery.service.Phase() == o.phase
    ensures Expected(g, f, c, o)
    ensures recovery.service.Own() == After(old(recovery.service.Own()), recovery.service.me, f.world, task, c, o)
    ensures o.d.Dispatch? ==>
              recovery.service.RuntimeCalled(task, TR.EntryOf(o.d, c.evidence), c.outside, TR.TakenBy(o.ending))
  {
    reply, o := Undisturbed(recovery, task, capability, c);
    ExpectedInWindow(g, messages, f, capability, c, recovery.service.me, o);
  }

  /** The two readings of the stored workflow, when nobody moves it. */
  method Evidenced(runtime: R.AgentRuntime, task: TaskId, c: TR.Circumstances) returns (met: TR.Circumstances)
    requires runtime.Valid() && R.Stored(runtime.saved, task)
    ensures met == c.(evidence := met.evidence, evidenceAfterClaim := met.evidence)
    ensures met.evidence == R.Evidence(|runtime.saved[task]|, R.Latest(runtime.saved, task))
  {
    var before := runtime.WorkflowEvidence(task);
    var after := runtime.WorkflowEvidence(task);
    met := c.(evidence := before, evidenceAfterClaim := after);
  }
}
