/** The inductive invariant of the execution protocol. */
module LedgerInvariant {
  import opened Values
  import opened LedgerModel
  import opened ApprovalModel
  import opened ExecutionProtocol

  /** Everything the table and the logs say about one slot. */
  datatype Cell = Cell(
    row: Option<ToolExecution>, issued: seq<Time>, invoked: seq<Invocation>, settled: seq<Time>, returned: seq<string>)

  function CellAt(c: Core, k: Slot): Cell {
    Cell(Lookup(c.rows, k), At(c.issued, k), At(c.invoked, k), At(c.settled, k), At(c.returned, k))
  }

  function Generations(calls: seq<Invocation>): seq<Time> {
    seq(|calls|, i requires 0 <= i < |calls| => calls[i].generation)
  }

  ghost predicate RowOk(modes: Modes, approvals: Approvals, slot: Slot, cell: Cell)
    requires cell.row.Some?
  {
    var row := cell.row.value;
    && row.SlotOf() == slot
    && row.WellFormed()
    && Authorizes(approvals, row.approvalId, row.taskId, row.Call())
    && |cell.issued| > 0
    && Increasing(cell.issued)
    && row.createdAt <= cell.issued[0]
    && Last(cell.issued) <= row.updatedAt
    && (row.status.EXECUTING? ==> row.updatedAt == Last(cell.issued) && Last(cell.issued) !in cell.settled)
    && (modes(row.toolName).NONE? ==> |cell.issued| == 1)
  }

  ghost predicate InvocationOk(modes: Modes, row: ToolExecution, issued: seq<Time>, call: Invocation) {
    && call.generation in issued
    && call.row == row.id
    && call.key == (if modes(row.toolName).EXTERNAL_KEY? then Some(row.key) else None)
    && call.approval == row.approvalId
    && call.call == row.Call()
  }

  ghost predicate CellOk(modes: Modes, approvals: Approvals, slot: Slot, cell: Cell) {
    if cell.row.None? then cell.issued == [] && cell.invoked == [] && cell.settled == [] && cell.returned == []
    else
      var row := cell.row.value;
      && RowOk(modes, approvals, slot, cell)
      && (forall t | t in cell.settled :: t in cell.issued)
      && Distinct(cell.settled)
      && (forall i | 0 <= i < |cell.invoked| :: InvocationOk(modes, row, cell.issued, cell.invoked[i]))
      && Distinct(Generations(cell.invoked))
      && (forall x | x in cell.returned :: row.status.SUCCEEDED? && row.result == Some(x))
  }

  ghost predicate UniqueIds(rows: Ledger) {
    forall k, m | k in rows && m in rows && rows[k].id == rows[m].id :: k == m
  }

  ghost predicate CoreOk(modes: Modes, approvals: Approvals, c: Core) {
    && (forall k: Slot :: CellOk(modes, approvals, k, CellAt(c, k)))
    && UniqueIds(c.rows)
  }

  /** The actor's copy of a claimed row agrees with the table on everything but the outcome. */
  ghost predicate Backed(cell: Cell, row: ToolExecution) {
    && row.WellFormed()
    && row.status.EXECUTING?
    && cell.row.Some?
    && cell.row.value.SameIdentity(row)
    && row.updatedAt in cell.issued
  }

  ghost predicate Spent(cell: Cell, generation: Time) {
    generation in Generations(cell.invoked)
  }

  /** A snapshot that recovery read, of a tool that may be called again. */
  ghost predicate Abandoned(modes: Modes, cell: Cell, expected: ToolExecution) {
    && expected.WellFormed()
    && !modes(expected.toolName).NONE?
    && cell.row.Some?
    && cell.row.value.SameIdentity(expected)
  }

  ghost predicate PhaseOk(modes: Modes, approvals: Approvals, c: Core, p: Phase) {
    match p
    case Authorized(req) => Authorizes(approvals, req.approval, req.task, req.call)
    case Missing(req) => Authorizes(approvals, req.approval, req.task, req.call)
    case Stale(req, expected) =>
      && Authorizes(approvals, req.approval, req.task, req.call)
      && req.entry.Recover?
      && expected.updatedAt <= req.entry.staleBefore
      && Matches(expected, req)
      && Abandoned(modes, CellAt(c, expected.SlotOf()), expected)
    case Holding(row) => Backed(CellAt(c, row.SlotOf()), row) && !Spent(CellAt(c, row.SlotOf()), row.updatedAt)
    case Called(row, _) => Backed(CellAt(c, row.SlotOf()), row)
    case _ => true
  }

  ghost predicate Rivals(p: Phase, q: Phase) {
    p.Holding? && q.Holding? && p.row.SlotOf() == q.row.SlotOf() && p.row.updatedAt == q.row.updatedAt
  }

  ghost predicate PhasesOk(modes: Modes, approvals: Approvals, s: State) {
    && (forall a: ActorId :: PhaseOk(modes, approvals, s.core, PhaseOf(s, a)))
    && (forall a: ActorId, b: ActorId | a != b :: !Rivals(PhaseOf(s, a), PhaseOf(s, b)))
  }

  ghost predicate Inv(modes: Modes, approvals: Approvals, s: State) {
    CoreOk(modes, approvals, s.core) && PhasesOk(modes, approvals, s)
  }

  /** Rows keep their identity, settled rows never change, and logs only grow. */
  ghost predicate CellGrows(x: Cell, y: Cell) {
    && (x.row.Some? ==>
          && y.row.Some? && y.row.value.SameIdentity(x.row.value)
          && (x.row.value.Settled() ==> y.row == x.row)
          && x.row.value.updatedAt <= y.row.value.updatedAt)
    && x.issued <= y.issued
    && x.invoked <= y.invoked
    && x.settled <= y.settled
    && x.returned <= y.returned
  }

  ghost predicate Grows(c: Core, d: Core) {
    forall k: Slot :: CellGrows(CellAt(c, k), CellAt(d, k))
  }

  lemma InitHolds(modes: Modes, approvals: Approvals)
    ensures Inv(modes, approvals, EMPTY)
  {
  }

  /** The WHERE clause of every update names the id; under the invariant it finds the row of the slot. */
  lemma WhereIdIsWhereSlot(modes: Modes, approvals: Approvals, c: Core, row: ToolExecution, k: Slot)
    requires CoreOk(modes, approvals, c)
    requires k in c.rows && c.rows[k].id == row.id
    requires CellAt(c, row.SlotOf()).row.Some? && CellAt(c, row.SlotOf()).row.value.SameIdentity(row)
    ensures k == row.SlotOf()
  {
  }

  lemma LocalIds(c: Core, d: Core, slot: Slot)
    requires UniqueIds(c.rows)
    requires forall k: Slot | k != slot :: CellAt(d, k).row == CellAt(c, k).row
    requires slot in d.rows
    requires if slot in c.rows then d.rows[slot].id == c.rows[slot].id else !IdTaken(c.rows, d.rows[slot].id)
    ensures UniqueIds(d.rows)
  {
    forall k, m | k in d.rows && m in d.rows && d.rows[k].id == d.rows[m].id ensures k == m {
      if k != slot {
        assert CellAt(d, k).row == CellAt(c, k).row;
        assert k in c.rows && c.rows[k] == d.rows[k];
      }
      if m != slot {
        assert CellAt(d, m).row == CellAt(c, m).row;
        assert m in c.rows && c.rows[m] == d.rows[m];
      }
    }
  }

  /** A step that touches one slot is checked on that slot alone. */
  lemma LocalStep(modes: Modes, approvals: Approvals, c: Core, d: Core, slot: Slot)
    requires CoreOk(modes, approvals, c)
    requires forall k: Slot | k != slot :: CellAt(d, k) == CellAt(c, k)
    requires CellOk(modes, approvals, slot, CellAt(d, slot)) && CellGrows(CellAt(c, slot), CellAt(d, slot))
    requires slot in d.rows && (slot in c.rows || !IdTaken(c.rows, d.rows[slot].id))
    ensures CoreOk(modes, approvals, d) && Grows(c, d)
  {
    LocalIds(c, d, slot);
    forall k: Slot ensures CellOk(modes, approvals, k, CellAt(d, k)) && CellGrows(CellAt(c, k), CellAt(d, k)) {
      if k != slot { assert CellOk(modes, approvals, k, CellAt(c, k)); }
    }
  }

  /** A claim under a fresh slot starts a row; otherwise nothing changes. */
  lemma {:induction false} ClaimKeeps(modes: Modes, approvals: Approvals, c: Core, candidate: ToolExecution,
                                      fault: Fault)
    requires CoreOk(modes, approvals, c)
    requires Authorizes(approvals, candidate.approvalId, candidate.taskId, candidate.Call())
    ensures CoreOk(modes, approvals, ClaimCore(c, candidate, fault)) && Grows(c, ClaimCore(c, candidate, fault))
  {
    var d := ClaimCore(c, candidate, fault);
    var slot := candidate.SlotOf();
    assert CellOk(modes, approvals, slot, CellAt(c, slot));
    if d != c {
      assert d.rows == c.rows[slot := candidate] && slot !in c.rows;
      assert CellAt(d, slot) == Cell(Some(candidate), [candidate.updatedAt], [], [], []);
      FreshCellOk(modes, approvals, slot, candidate);
      LocalStep(modes, approvals, c, d, slot);
    } else {
      NoStep(c);
    }
  }

  lemma FreshCellOk(modes: Modes, approvals: Approvals, slot: Slot, candidate: ToolExecution)
    requires candidate.SlotOf() == slot && candidate.WellFormed() && candidate.status.EXECUTING?
    requires Authorizes(approvals, candidate.approvalId, candidate.taskId, candidate.Call())
    ensures CellOk(modes, approvals, slot, Cell(Some(candidate), [candidate.updatedAt], [], [], []))
  {
  }

  lemma NoStep(c: Core)
    ensures Grows(c, c)
  {
  }

  /** The winner holds the row it proposed, under a slot nobody claimed before. */
  lemma ClaimWon(modes: Modes, approvals: Approvals, c: Core, candidate: ToolExecution, fault: Fault)
    requires CoreOk(modes, approvals, c)
    requires ClaimReply(c.rows, candidate, fault).Ok? && ClaimReply(c.rows, candidate, fault).value.won
    ensures ClaimReply(c.rows, candidate, fault).value.row == candidate
    ensures CellAt(c, candidate.SlotOf()).row.None?
    ensures Backed(CellAt(ClaimCore(c, candidate, fault), candidate.SlotOf()), candidate)
    ensures CellAt(ClaimCore(c, candidate, fault), candidate.SlotOf()).invoked == []
  {
    assert CellOk(modes, approvals, candidate.SlotOf(), CellAt(c, candidate.SlotOf()));
  }

  lemma {:induction false} ReclaimKeeps(modes: Modes, approvals: Approvals, c: Core, expected: ToolExecution,
                                        staleBefore: Time, now: Time, fault: Fault)
    requires CoreOk(modes, approvals, c)
    requires Abandoned(modes, CellAt(c, expected.SlotOf()), expected)
    ensures CoreOk(modes, approvals, ReclaimCore(c, expected, staleBefore, now, fault))
    ensures Grows(c, ReclaimCore(c, expected, staleBefore, now, fault))
  {
    var d := ReclaimCore(c, expected, staleBefore, now, fault);
    var slot := expected.SlotOf();
    var cell := CellAt(c, slot);
    assert CellOk(modes, approvals, slot, cell);
    if d != c {
      var g := Max(now, expected.updatedAt + 1);
      var renewed := cell.(row := Some(Renewal(c.rows[slot], expected, now)), issued := cell.issued + [g]);
      assert d.rows == c.rows[slot := Renewal(c.rows[slot], expected, now)] && Unchanged(c.rows, expected);
      assert CellAt(d, slot) == renewed;
      RenewedCellOk(modes, approvals, slot, cell, expected, now);
      LocalStep(modes, approvals, c, d, slot);
    } else {
      NoStep(c);
    }
  }

  lemma RenewedCellOk(modes: Modes, approvals: Approvals, slot: Slot, cell: Cell, expected: ToolExecution, now: Time)
    requires CellOk(modes, approvals, slot, cell) && Abandoned(modes, cell, expected)
    requires !expected.Settled() && cell.row.value.status == expected.status
    requires cell.row.value.updatedAt == expected.updatedAt
    ensures var g := Max(now, expected.updatedAt + 1);
            var renewed := cell.(row := Some(Renewal(cell.row.value, expected, now)), issued := cell.issued + [g]);
            CellOk(modes, approvals, slot, renewed) && CellGrows(cell, renewed)
  {
    var g := Max(now, expected.updatedAt + 1);
    var row := Renewal(cell.row.value, expected, now);
    forall i | 0 <= i < |cell.invoked| ensures InvocationOk(modes, row, cell.issued + [g], cell.invoked[i]) {
      assert InvocationOk(modes, cell.row.value, cell.issued, cell.invoked[i]);
    }
    assert g !in cell.issued;
  }

  /** A recovery claim holds a generation that nobody held before. */
  lemma ReclaimWon(modes: Modes, approvals: Approvals, c: Core, expected: ToolExecution, staleBefore: Time, now: Time,
                   fault: Fault, row: ToolExecution)
    requires CoreOk(modes, approvals, c)
    requires Abandoned(modes, CellAt(c, expected.SlotOf()), expected)
    requires ReclaimReply(c.rows, expected, staleBefore, now, fault) == Ok(Some(row))
    ensures row.SlotOf() == expected.SlotOf() && row.updatedAt !in CellAt(c, row.SlotOf()).issued
    ensures Backed(CellAt(ReclaimCore(c, expected, staleBefore, now, fault), row.SlotOf()), row)
    ensures !Spent(CellAt(ReclaimCore(c, expected, staleBefore, now, fault), row.SlotOf()), row.updatedAt)
  {
    assert CellOk(modes, approvals, expected.SlotOf(), CellAt(c, expected.SlotOf()));
  }

  lemma InvokeKeeps(modes: Modes, approvals: Approvals, c: Core, row: ToolExecution)
    requires CoreOk(modes, approvals, c)
    requires Backed(CellAt(c, row.SlotOf()), row) && !Spent(CellAt(c, row.SlotOf()), row.updatedAt)
    ensures CoreOk(modes, approvals, InvokeCore(modes, c, row)) && Grows(c, InvokeCore(modes, c, row))
    ensures Generations(CellAt(InvokeCore(modes, c, row), row.SlotOf()).invoked)
         == Generations(CellAt(c, row.SlotOf()).invoked) + [row.updatedAt]
  {
    var d := InvokeCore(modes, c, row);
    var slot := row.SlotOf();
    var cell := CellAt(c, slot);
    assert CellOk(modes, approvals, slot, cell);
    assert CellAt(d, slot) == cell.(invoked := cell.invoked + [InvocationOf(modes, row)]);
    assert Generations(cell.invoked + [InvocationOf(modes, row)]) == Generations(cell.invoked) + [row.updatedAt];
    LocalStep(modes, approvals, c, d, slot);
  }

  lemma FinishedCellOk(modes: Modes, approvals: Approvals, slot: Slot, cell: Cell, row: ToolExecution,
                       candidate: ToolExecution)
    requires CellOk(modes, approvals, slot, cell) && Backed(cell, row) && row.SlotOf() == slot
    requires candidate.SameIdentity(row) && row.updatedAt <= candidate.updatedAt && candidate.WellFormed()
    requires !candidate.status.EXECUTING?
    requires cell.row.Some? && cell.row.value.status.EXECUTING? && cell.row.value.updatedAt == row.updatedAt
    ensures FinishedRow(cell.row.value, candidate) == candidate
    ensures var finished := cell.(row := Some(candidate), settled := cell.settled + [row.updatedAt]);
            CellOk(modes, approvals, slot, finished) && CellGrows(cell, finished)
  {
    forall i | 0 <= i < |cell.invoked| ensures InvocationOk(modes, candidate, cell.issued, cell.invoked[i]) {
      assert InvocationOk(modes, cell.row.value, cell.issued, cell.invoked[i]);
    }
  }

  /** Only the claim of the current generation can settle the row. */
  lemma {:induction false} FinishKeeps(modes: Modes, approvals: Approvals, c: Core, row: ToolExecution,
                                       candidate: ToolExecution, fault: Fault)
    requires CoreOk(modes, approvals, c) && Backed(CellAt(c, row.SlotOf()), row)
    requires candidate.SameIdentity(row) && row.updatedAt <= candidate.updatedAt
    ensures CoreOk(modes, approvals, FinishCore(c, candidate, row.updatedAt, fault))
    ensures Grows(c, FinishCore(c, candidate, row.updatedAt, fault))
  {
    var d := FinishCore(c, candidate, row.updatedAt, fault);
    var slot := row.SlotOf();
    var cell := CellAt(c, slot);
    assert CellOk(modes, approvals, slot, cell);
    if d != c {
      FinishedCellOk(modes, approvals, slot, cell, row, candidate);
      assert CellAt(d, slot) == cell.(row := Some(candidate), settled := cell.settled + [row.updatedAt]);
      LocalStep(modes, approvals, c, d, slot);
    }
  }

  /** An acknowledged write is what the table holds. */
  lemma FinishLands(c: Core, row: ToolExecution, candidate: ToolExecution, fault: Fault)
    requires Backed(CellAt(c, row.SlotOf()), row) && candidate.SameIdentity(row)
    requires FinishError(c.rows, candidate, Some(row.updatedAt), fault).None?
    ensures CellAt(FinishCore(c, candidate, row.updatedAt, fault), row.SlotOf()).row == Some(candidate)
  {
    assert FinishedRow(c.rows[row.SlotOf()], candidate) == candidate;
  }

  lemma AnswerKeeps(modes: Modes, approvals: Approvals, c: Core, slot: Slot, reply: Reply)
    requires CoreOk(modes, approvals, c)
    requires reply.Returned? ==>
               var row := CellAt(c, slot).row;
               row.Some? && row.value.status.SUCCEEDED? && row.value.result == Some(reply.content)
    ensures CoreOk(modes, approvals, Answered(c, slot, reply)) && Grows(c, Answered(c, slot, reply))
  {
    var d := Answered(c, slot, reply);
    var cell := CellAt(c, slot);
    assert CellOk(modes, approvals, slot, cell);
    if reply.Returned? {
      assert CellAt(d, slot) == cell.(returned := cell.returned + [reply.content]);
      LocalStep(modes, approvals, c, d, slot);
    }
  }

  /** What an actor relies on survives whatever else happens to the tables. */
  lemma PhaseSurvives(modes: Modes, before: Approvals, after: Approvals, c: Core, d: Core, p: Phase)
    requires PhaseOk(modes, before, c, p) && Grows(c, d) && Evolves(before, after)
    requires p.Holding? ==> !Spent(CellAt(d, p.row.SlotOf()), p.row.updatedAt)
    ensures PhaseOk(modes, after, d, p)
  {
    match p
    case Stale(_, expected) => assert CellGrows(CellAt(c, expected.SlotOf()), CellAt(d, expected.SlotOf()));
    case Holding(row) => assert CellGrows(CellAt(c, row.SlotOf()), CellAt(d, row.SlotOf()));
    case Called(row, _) => assert CellGrows(CellAt(c, row.SlotOf()), CellAt(d, row.SlotOf()));
    case _ =>
  }

  /** The invariant after actor a moved to phase p over a table that grew. */
  lemma Assemble(modes: Modes, approvals: Approvals, s: State, a: ActorId, d: Core, p: Phase)
    requires Inv(modes, approvals, s)
    requires CoreOk(modes, approvals, d) && Grows(s.core, d)
    requires PhaseOk(modes, approvals, d, p)
    requires forall b: ActorId | b != a && PhaseOf(s, b).Holding? ::
               && !Spent(CellAt(d, PhaseOf(s, b).row.SlotOf()), PhaseOf(s, b).row.updatedAt)
               && !Rivals(p, PhaseOf(s, b))
    ensures Inv(modes, approvals, Enter(s.(core := d), a, p))
  {
    var t := Enter(s.(core := d), a, p);
    forall b: ActorId ensures PhaseOk(modes, approvals, d, PhaseOf(t, b)) {
      if b != a { PhaseSurvives(modes, approvals, approvals, s.core, d, PhaseOf(s, b)); }
    }
    forall b: ActorId, e: ActorId | b != e ensures !Rivals(PhaseOf(t, b), PhaseOf(t, e)) {
      assert !Rivals(PhaseOf(s, b), PhaseOf(s, e));
    }
  }
}
