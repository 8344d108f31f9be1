/** How often a ledger row can be claimed by the time a clock shows t. */
module Timing {
  import opened Values
  import L = LedgerModel
  import A = ApprovalModel
  import E = ExecutionProtocol
  import LI = LedgerInvariant
  import D = Deployment

  /** When each step of a run commits. */
  datatype Tick = Tick(at: Time, step: D.Step)

  function Steps(ticks: seq<Tick>): seq<D.Step> {
    if ticks == [] then [] else Steps(ticks[..|ticks| - 1]) + [Last(ticks).step]
  }

  function Clock(ticks: seq<Tick>, start: Time): Time {
    if ticks == [] then start else Last(ticks).at
  }

  /** A claim uses a reading that is not later than its commit, and the cutoff of a recovery claim lies at least
      the threshold before its reading. Other actors may commit at later readings in between. */
  predicate OnTime(s: E.State, act: E.Action, at: Time, threshold: Time) {
    match act
    case Claim(_, _, _, updated, _) => updated <= at
    case Reclaim(a, now, _) =>
      var p := E.PhaseOf(s, a);
      now <= at && (p.Stale? && p.req.entry.Recover? ==> p.req.entry.staleBefore + threshold <= now)
    case _ => true
  }

  /** The clock never runs backwards from commit to commit. */
  predicate Timely(modes: E.Modes, ticks: seq<Tick>, start: Time, threshold: Time) {
    ticks != [] ==>
      var init, tick := ticks[..|ticks| - 1], Last(ticks);
      && Timely(modes, init, start, threshold)
      && Clock(init, start) <= tick.at
      && (tick.step.OnLedger? ==>
            OnTime(D.Run(modes, D.INITIAL, Steps(init)).ledger, tick.step.ledger, tick.at, threshold))
  }

  /** Two claims of a row are at least this far apart. */
  function Gap(threshold: nat): nat {
    if threshold == 0 then 1 else threshold
  }

  /** How far the last claim may be ahead of the clock: a claim always moves the row on by a microsecond. */
  function Ahead(threshold: nat): nat {
    if threshold == 0 then 1 else 0
  }

  ghost predicate Spaced(cell: LI.Cell, threshold: nat, clock: Time) {
    && (forall k | 0 <= k < |cell.issued| :: cell.issued[k] <= clock + (if k == |cell.issued| - 1 then Ahead(threshold) else 0))
    && (cell.row.Some? ==> forall k | 0 <= k < |cell.issued| :: cell.row.value.createdAt + k * Gap(threshold) <= cell.issued[k])
  }

  /** A recovery claim adds a generation at least the gap after the last one. */
  lemma RenewalIsSpaced(modes: E.Modes, approvals: A.Approvals, slot: L.Slot, cell: LI.Cell, renewed: LI.Cell,
                        now: Time,
                        threshold: nat, clock: Time, at: Time)
    requires LI.CellOk(modes, approvals, slot, cell) && cell.row.Some? && Spaced(cell, threshold, clock)
    requires cell.row.value.updatedAt + threshold <= now <= at && clock <= at
    requires renewed.issued == cell.issued + [Max(now, cell.row.value.updatedAt + 1)]
    requires renewed.row.Some? && renewed.row.value.createdAt == cell.row.value.createdAt
    ensures Spaced(renewed, threshold, at)
  {
    var n, gap := |cell.issued|, Gap(threshold);
    assert cell.row.value.createdAt + (n - 1) * gap <= cell.issued[n - 1] <= cell.row.value.updatedAt;
    assert n * gap == (n - 1) * gap + gap;
    forall k | 0 <= k < n ensures cell.issued[k] <= at {
      assert k < n - 1 ==> cell.issued[k] < cell.issued[n - 1];
    }
  }

  /** Which cells a step leaves untouched in row creation time and claims. */
  ghost predicate SameClaims(x: LI.Cell, y: LI.Cell) {
    && y.issued == x.issued
    && (x.row.Some? <==> y.row.Some?)
    && (x.row.Some? ==> y.row.value.createdAt == x.row.value.createdAt)
  }

  lemma SameClaimsAreSpaced(x: LI.Cell, y: LI.Cell, threshold: nat, clock: Time, later: Time)
    requires Spaced(x, threshold, clock) && SameClaims(x, y) && clock <= later
    ensures Spaced(y, threshold, later)
  {
  }

  /** A claim either changes nothing or opens the slot with its own generation. */
  lemma ClaimIssues(c: E.Core, candidate: L.ToolExecution, fault: Fault, k: L.Slot)
    ensures var x, y := LI.CellAt(c, k), LI.CellAt(E.ClaimCore(c, candidate, fault), k);
            SameClaims(x, y) || (x.row.None? && y.row == Some(candidate) && candidate.createdAt <= candidate.updatedAt
                                 && y.issued == x.issued + [candidate.updatedAt])
  {
  }

  /** A recovery claim either changes nothing or renews the row it found unchanged. */
  lemma ReclaimIssues(c: E.Core, expected: L.ToolExecution, staleBefore: Time, now: Time, fault: Fault, k: L.Slot)
    ensures var x, y := LI.CellAt(c, k), LI.CellAt(E.ReclaimCore(c, expected, staleBefore, now, fault), k);
            SameClaims(x, y)
            || (x.row.Some? && y.row.Some? && x.row.value.updatedAt == expected.updatedAt && expected.updatedAt <= staleBefore
                && y.row.value.createdAt == x.row.value.createdAt
                && y.issued == x.issued + [Max(now, expected.updatedAt + 1)])
  {
  }

  lemma FinishIssues(c: E.Core, candidate: L.ToolExecution, generation: Time, fault: Fault, k: L.Slot)
    ensures SameClaims(LI.CellAt(c, k), LI.CellAt(E.FinishCore(c, candidate, generation, fault), k))
  {
  }

  /** The slot was opened by this claim. */
  ghost predicate Opened(x: LI.Cell, y: LI.Cell, act: E.Action) {
    && act.Claim? && x.row.None? && y.row.Some?
    && y.row.value.createdAt <= act.updated && y.issued == x.issued + [act.updated]
  }

  /** The row was renewed by this recovery claim. */
  ghost predicate Renewed(x: LI.Cell, y: LI.Cell, act: E.Action, p: E.Phase) {
    && act.Reclaim? && p.Stale? && p.req.entry.Recover?
    && x.row.Some? && y.row.Some? && y.row.value.createdAt == x.row.value.createdAt
    && x.row.value.updatedAt == p.expected.updatedAt && p.expected.updatedAt <= p.req.entry.staleBefore
    && y.issued == x.issued + [Max(act.now, p.expected.updatedAt + 1)]
  }

  lemma ClaimChanges(s: E.State, a: ActorId, req: E.Request, act: E.Action, k: L.Slot)
    requires act.Claim?
    ensures var candidate := L.Candidate(act.id, req.task, req.approval, req.call, act.created, act.updated);
            var x, y := LI.CellAt(s.core, k), LI.CellAt(E.AfterClaim(s, a, req, candidate, act.fault).core, k);
            SameClaims(x, y) || Opened(x, y, act)
  {
    ClaimIssues(s.core, L.Candidate(act.id, req.task, req.approval, req.call, act.created, act.updated), act.fault, k);
  }

  lemma FinishChanges(s: E.State, a: ActorId, row: L.ToolExecution, outcome: E.Outcome, now: Time, fault: Fault,
                      k: L.Slot)
    ensures SameClaims(LI.CellAt(s.core, k), LI.CellAt(E.AfterFinish(s, a, row, outcome, now, fault).core, k))
  {
    if E.Verdict(row, outcome, now).Ok? { FinishIssues(s.core, E.Verdict(row, outcome, now).value, row.updatedAt, fault,
                                                       k); }
  }

  lemma ReclaimChanges(s: E.State, a: ActorId, req: E.Request, expected: L.ToolExecution, act: E.Action, k: L.Slot)
    requires act.Reclaim? && req.entry.Recover?
    ensures var x, y := LI.CellAt(s.core, k), LI.CellAt(E.AfterReclaim(s, a, expected, req.entry.staleBefore, act.now,
                                                                       act.fault).core, k);
            SameClaims(x, y) || Renewed(x, y, act, E.Stale(req, expected))
  {
    ReclaimIssues(s.core, expected, req.entry.staleBefore, act.now, act.fault, k);
  }

  lemma ReadChanges(modes: E.Modes, s: E.State, a: ActorId, req: E.Request, registered: bool, inputValid: bool,
                    k: L.Slot)
    ensures SameClaims(LI.CellAt(s.core, k), LI.CellAt(E.AfterRead(modes, s, a, req, registered, inputValid).core, k))
  {
  }

  /** Nothing else issues a generation. */
  lemma {:induction false} OnlyClaimsIssue(modes: E.Modes, approvals: A.Approvals, s: E.State, act: E.Action, k: L.Slot)
    ensures var x, y := LI.CellAt(s.core, k), LI.CellAt(E.Next(modes, approvals, s, act).core, k);
            SameClaims(x, y) || Opened(x, y, act) || Renewed(x, y, act, E.PhaseOf(s, act.actor))
  {
    match (act, E.PhaseOf(s, act.actor)) {
      case (Claim(_, id, created, updated, fault), Missing(req)) => ClaimChanges(s, act.actor, req, act, k);
      case (Reclaim(_, now, fault), Stale(req, expected)) =>
        if req.entry.Recover? { ReclaimChanges(s, act.actor, req, expected, act, k); }
      case (Read(_, registered, inputValid), Authorized(req)) => ReadChanges(modes, s, act.actor, req, registered,
                                                                             inputValid, k);
      case (Finish(_, now, fault), Called(row, outcome)) => FinishChanges(s, act.actor, row, outcome, now, fault, k);
      case _ =>
    }
  }

  lemma {:induction false} CellTick(modes: E.Modes, approvals: A.Approvals, s: E.State, act: E.Action, at: Time,
                                    threshold: nat, clock: Time, k: L.Slot)
    requires LI.CellOk(modes, approvals, k, LI.CellAt(s.core, k))
    requires Spaced(LI.CellAt(s.core, k), threshold, clock)
    requires clock <= at && OnTime(s, act, at, threshold)
    ensures Spaced(LI.CellAt(E.Next(modes, approvals, s, act).core, k), threshold, at)
  {
    var x, y := LI.CellAt(s.core, k), LI.CellAt(E.Next(modes, approvals, s, act).core, k);
    OnlyClaimsIssue(modes, approvals, s, act, k);
    if SameClaims(x, y) {
      SameClaimsAreSpaced(x, y, threshold, clock, at);
    } else if Opened(x, y, act) {
      OpeningIsSpaced(y, act.updated, threshold, at);
    } else {
      RenewalIsSpaced(modes, approvals, k, x, y, act.now, threshold, clock, at);
    }
  }

  /** The first claim of a row. */
  lemma OpeningIsSpaced(cell: LI.Cell, updated: Time, threshold: nat, at: Time)
    requires cell.row.Some? && cell.row.value.createdAt <= updated <= at && cell.issued == [updated]
    ensures Spaced(cell, threshold, at)
  {
  }

  lemma {:induction false} TimedRun(modes: E.Modes, ticks: seq<Tick>, start: Time, threshold: nat, k: L.Slot)
    requires Timely(modes, ticks, start, threshold)
    ensures Spaced(LI.CellAt(D.Run(modes, D.INITIAL, Steps(ticks)).ledger.core, k), threshold, Clock(ticks, start))
  {
    if ticks != [] {
      var init, tick := ticks[..|ticks| - 1], Last(ticks);
      TimedRun(modes, init, start, threshold, k);
      D.Reachable(modes, Steps(init));
      D.RunAppend(modes, D.INITIAL, Steps(init), tick.step);
      var w := D.Run(modes, D.INITIAL, Steps(init));
      var cell := LI.CellAt(w.ledger.core, k);
      match tick.step
      case OnLedger(act) =>
        assert LI.CellOk(modes, w.business.rows.approvals, k, cell);
        CellTick(modes, w.business.rows.approvals, w.ledger, act, tick.at, threshold, Clock(init, start), k);
      case OnBusiness(_) =>
        SameClaimsAreSpaced(cell, cell, threshold, Clock(init, start), tick.at);
    }
  }

  /** How many claims a row can have had when this much time has passed since its creation. */
  function ClaimsWithin(elapsed: Time, threshold: nat): int {
    if threshold == 0 then 2 + elapsed else 1 + elapsed / threshold
  }

  /** By the time the clock shows t, a row has had at most 1 + (t - created) / threshold claims;
      a threshold of zero still leaves at most one claim per microsecond, and one ahead of the clock. */
  lemma {:induction false} RecoveryRate(modes: E.Modes, ticks: seq<Tick>, start: Time, threshold: nat, slot: L.Slot)
    requires Timely(modes, ticks, start, threshold)
    ensures var cell := LI.CellAt(D.Run(modes, D.INITIAL, Steps(ticks)).ledger.core, slot);
            cell.row.Some? ==> |cell.issued| <= ClaimsWithin(Clock(ticks, start) - cell.row.value.createdAt, threshold)
  {
    var w := D.Run(modes, D.INITIAL, Steps(ticks));
    var cell := LI.CellAt(w.ledger.core, slot);
    TimedRun(modes, ticks, start, threshold, slot);
    D.Reachable(modes, Steps(ticks));
    assert LI.CellOk(modes, w.business.rows.approvals, slot, cell);
    if cell.row.Some? { SpacedIsFew(cell, threshold, Clock(ticks, start)); }
  }

  lemma SpacedIsFew(cell: LI.Cell, threshold: nat, clock: Time)
    requires cell.row.Some? && cell.issued != [] && Spaced(cell, threshold, clock)
    ensures |cell.issued| <= ClaimsWithin(clock - cell.row.value.createdAt, threshold)
  {
    var n := |cell.issued| - 1;
    assert cell.row.value.createdAt + n * Gap(threshold) <= cell.issued[n] <= clock + Ahead(threshold);
    if threshold > 0 { QuotientBound(n, threshold, clock - cell.row.value.createdAt); }
  }

  lemma {:induction false} QuotientBound(n: nat, d: Time, x: Time)
    requires 1 <= d && n * d <= x
    ensures n <= x / d
  {
    var q := x / d;
    assert x < q * d + d;
    if q + 1 <= n { Scale(q + 1, n, d); }
  }

  lemma Scale(a: int, b: int, d: nat)
    requires a <= b
    ensures a * d <= b * d
  {
  }
}
