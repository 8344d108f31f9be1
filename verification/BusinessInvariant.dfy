/** The invariant that ties Tasks to Approvals, and that every step keeps. */
module BusinessInvariant {
  import opened Values
  import opened TaskModel
  import opened ApprovalModel
  import opened BusinessStore
  import opened BusinessProtocol

  ghost predicate Asked(rows: Rows, task: TaskId, status: ApprovalStatus) {
    exists id | id in rows.approvals :: rows.approvals[id].taskId == task && rows.approvals[id].status == status
  }

  /** A waiting Task has a pending question; a Task is rejected exactly when one of its questions was. */
  ghost predicate RowsOk(rows: Rows) {
    && (forall t | t in rows.tasks ::
          && rows.tasks[t].id == t && rows.tasks[t].WellFormed()
          && (rows.tasks[t].status.WAITING_APPROVAL? ==> Asked(rows, t, ApprovalStatus.PENDING))
          && (rows.tasks[t].status.REJECTED? <==> Asked(rows, t, ApprovalStatus.REJECTED)))
    && (forall id | id in rows.approvals ::
          rows.approvals[id].id == id && rows.approvals[id].WellFormed() && rows.approvals[id].taskId in rows.tasks)
  }

  /** A decided Approval was decided once, and resumed at most once, and only if approved. */
  ghost predicate LogOk(b: Business, id: ApprovalId) {
    && At(b.decisions, id) ==
         (if id !in b.rows.approvals || b.rows.approvals[id].status.PENDING? then [] else [b.rows.approvals[id].status])
    && |At(b.dispatched, id)| <= 1
    && (At(b.dispatched, id) != [] ==> id in b.rows.approvals && b.rows.approvals[id].status.APPROVED?)
  }

  ghost predicate HoldOk(b: Business, h: Hold) {
    match h
    case Free => true
    case Creating(row) => row.id in b.rows.tasks && b.rows.tasks[row.id] == row && row.status.PENDING?
    case Captured(row) =>
      && row.WellFormed() && row.id in b.rows.tasks
      && row.input == b.rows.tasks[row.id].input && row.createdAt == b.rows.tasks[row.id].createdAt
      && row.updatedAt <= b.rows.tasks[row.id].updatedAt
    case Dispatching(id) => id in b.rows.approvals && b.rows.approvals[id].status.APPROVED? && At(b.dispatched, id) == []
  }

  ghost predicate Compete(h: Hold, k: Hold) {
    || (h.Creating? && k.Creating? && h.row.id == k.row.id)
    || (h.Dispatching? && h == k)
  }

  ghost predicate Inv(b: Business) {
    && RowsOk(b.rows)
    && (forall id: ApprovalId :: LogOk(b, id))
    && (forall a: ActorId :: HoldOk(b, HoldOf(b, a)))
    && (forall a: ActorId, c: ActorId | a != c :: !Compete(HoldOf(b, a), HoldOf(b, c)))
  }

  /** How the Task table may change: time never moves back and finished Tasks stay as they are. */
  ghost predicate TasksEvolve(before: Tasks, after: Tasks) {
    forall t | t in before ::
      && t in after
      && after[t].input == before[t].input && after[t].createdAt == before[t].createdAt
      && before[t].updatedAt <= after[t].updatedAt
      && (Terminal(before[t].status) ==> after[t] == before[t])
  }

  ghost predicate RowsEvolve(before: Rows, after: Rows) {
    TasksEvolve(before.tasks, after.tasks) && Evolves(before.approvals, after.approvals)
  }

  lemma InitHolds()
    ensures Inv(NOTHING)
  {
  }

  /** A step on the row of one Task: every holding survives unless it is that of the Task's creator. */
  lemma Stay(b: Business, c: Business, t: TaskId)
    requires Inv(b) && RowsOk(c.rows) && RowsEvolve(b.rows, c.rows)
    requires c.holds == b.holds && c.dispatched == b.dispatched
    requires forall k | k in b.rows.tasks && k != t :: c.rows.tasks[k] == b.rows.tasks[k]
    requires forall o: ActorId :: !(HoldOf(b, o).Creating? && HoldOf(b, o).row.id == t)
    requires forall id: ApprovalId :: LogOk(c, id)
    ensures Inv(c)
  {
    forall o: ActorId ensures HoldOk(c, HoldOf(c, o)) {
      assert HoldOk(b, HoldOf(b, o));
    }
    forall o: ActorId, p: ActorId | o != p ensures !Compete(HoldOf(c, o), HoldOf(c, p)) {
      assert !Compete(HoldOf(b, o), HoldOf(b, p));
    }
  }

  /** A step on an actor's own memory. */
  lemma Swap(b: Business, a: ActorId, h: Hold)
    requires Inv(b) && HoldOk(b, h)
    requires forall o: ActorId | o != a :: !Compete(h, HoldOf(b, o)) && !Compete(HoldOf(b, o), h)
    ensures Inv(Take(b, a, h))
  {
    var d := Take(b, a, h);
    forall id: ApprovalId ensures LogOk(d, id) { assert LogOk(b, id); }
    forall o: ActorId ensures HoldOk(d, HoldOf(d, o)) {
      assert o != a ==> HoldOk(b, HoldOf(b, o));
    }
    forall o: ActorId, p: ActorId | o != p ensures !Compete(HoldOf(d, o), HoldOf(d, p)) {
      assert !Compete(HoldOf(b, o), HoldOf(b, p));
    }
  }

  /** A Task that is past PENDING has no creator at work. */
  lemma NoCreator(b: Business, t: TaskId)
    requires Inv(b) && t in b.rows.tasks && !b.rows.tasks[t].status.PENDING?
    ensures forall o: ActorId :: !(HoldOf(b, o).Creating? && HoldOf(b, o).row.id == t)
  {
    forall o: ActorId ensures !(HoldOf(b, o).Creating? && HoldOf(b, o).row.id == t) {
      assert HoldOk(b, HoldOf(b, o));
    }
  }

  /** The row of one Task is replaced; the questions stay as they are. */
  lemma MovedRowsOk(before: Rows, t: TaskId, row: TaskRow)
    requires RowsOk(before) && row.id == t && row.WellFormed()
    requires !row.status.WAITING_APPROVAL? && !row.status.REJECTED?
    requires t in before.tasks ==>
               !Terminal(before.tasks[t].status) && before.tasks[t].input == row.input
               && before.tasks[t].createdAt == row.createdAt && before.tasks[t].updatedAt <= row.updatedAt
    ensures var after := before.(tasks := before.tasks[t := row]); RowsOk(after) && RowsEvolve(before, after)
  {
    var after := before.(tasks := before.tasks[t := row]);
    assert forall k: TaskId, s: ApprovalStatus :: Asked(after, k, s) <==> Asked(before, k, s);
    if t !in before.tasks {
      assert forall s: ApprovalStatus :: !Asked(before, t, s);
    }
  }

  lemma SameLogs(b: Business, c: Business)
    requires Inv(b) && c.decisions == b.decisions && c.dispatched == b.dispatched
    requires c.rows.approvals == b.rows.approvals
    ensures forall id: ApprovalId :: LogOk(c, id)
  {
    forall id: ApprovalId ensures LogOk(c, id) { assert LogOk(b, id); }
  }

  /** A committed write that moves one open Task away from its snapshot. */
  lemma WriteKeeps(b: Business, a: ActorId, expected: TaskRow, op: Operation, now: Time, fault: Fault)
    requires Inv(b) && HoldOf(b, a) == Captured(expected) && Exit(op)
    ensures Inv(AfterWrite(b, a, expected, op, now, fault))
    ensures RowsEvolve(b.rows, AfterWrite(b, a, expected, op, now, fault).rows)
  {
    assert HoldOk(b, HoldOf(b, a));
    if Transition(op, expected, now).Ok? {
      var candidate := Transition(op, expected, now).value;
      TransitionIsSound(op, expected, now);
      if WriteLands(b.rows, candidate, expected, fault) {
        var t := expected.id;
        assert Written(b.rows.tasks, candidate) == b.rows.tasks[t := candidate];
        var c := b.(rows := b.rows.(tasks := b.rows.tasks[t := candidate]), left := Departed(b, expected));
        MovedRowsOk(b.rows, t, candidate);
        SameLogs(b, c);
        NoCreator(b, t);
        Stay(b, c, t);
        if op.ClaimRecovery? && fault.Fine? { Swap(c, a, Captured(candidate)); }
      }
    }
  }

  /** The pause brings its own question. */
  lemma PausedRowsOk(before: Rows, after: Rows, t: TaskId, approval: ApprovalRow)
    requires RowsOk(before) && t in before.tasks && before.tasks[t].status.RUNNING?
    requires approval.id !in before.approvals && approval.taskId == t && approval.status.PENDING?
    requires approval.WellFormed()
    requires after.approvals == before.approvals[approval.id := approval]
    requires after.tasks.Keys == before.tasks.Keys
    requires forall k | k in before.tasks && k != t :: after.tasks[k] == before.tasks[k]
    requires after.tasks[t].id == t && after.tasks[t].WellFormed() && after.tasks[t].status.WAITING_APPROVAL?
    ensures RowsOk(after)
  {
    assert after.approvals[approval.id].status.PENDING?;
    forall k | k in after.tasks
      ensures after.tasks[k].status.WAITING_APPROVAL? ==> Asked(after, k, ApprovalStatus.PENDING)
      ensures after.tasks[k].status.REJECTED? <==> Asked(after, k, ApprovalStatus.REJECTED)
    {
      forall s: ApprovalStatus | Asked(before, k, s) ensures Asked(after, k, s) {
        var id :| id in before.approvals && before.approvals[id].taskId == k && before.approvals[id].status == s;
        assert after.approvals[id] == before.approvals[id];
      }
      if Asked(after, k, ApprovalStatus.REJECTED) {
        var id :| id in after.approvals && after.approvals[id].taskId == k && after.approvals[id].status.REJECTED?;
        assert before.approvals[id] == after.approvals[id];
      }
    }
  }

  lemma PauseKeeps(b: Business, a: ActorId, expected: TaskRow, approval: ApprovalRow, now: Time, fault: Fault)
    requires Inv(b) && HoldOf(b, a) == Captured(expected)
    ensures Inv(AfterPause(b, expected, approval, now, fault))
    ensures RowsEvolve(b.rows, AfterPause(b, expected, approval, now, fault).rows)
  {
    assert HoldOk(b, HoldOf(b, a));
    if Transition(MarkWaiting, expected, now).Ok? {
      var candidate := Transition(MarkWaiting, expected, now).value;
      TransitionIsSound(MarkWaiting, expected, now);
      if PauseLands(b.rows, candidate, approval, expected) && Commits(fault) {
        assert Written(b.rows.tasks, candidate) == b.rows.tasks[candidate.id := candidate];
        PauseStays(b, candidate, approval, Departed(b, expected));
      }
    }
  }

  /** The two rows of a pause, written together. */
  lemma PauseStays(b: Business, waiting: TaskRow, approval: ApprovalRow, left: map<TaskId, seq<Time>>)
    requires Inv(b) && waiting.id in b.rows.tasks && b.rows.tasks[waiting.id].status.RUNNING?
    requires waiting.WellFormed() && waiting.status.WAITING_APPROVAL?
    requires waiting.input == b.rows.tasks[waiting.id].input && waiting.createdAt == b.rows.tasks[waiting.id].createdAt
    requires b.rows.tasks[waiting.id].updatedAt <= waiting.updatedAt
    requires approval.id !in b.rows.approvals && approval.taskId == waiting.id && approval.status.PENDING?
    requires approval.WellFormed()
    ensures var after := Rows(b.rows.tasks[waiting.id := waiting], b.rows.approvals[approval.id := approval]);
            Inv(b.(rows := after, left := left)) && RowsEvolve(b.rows, after)
  {
    var t := waiting.id;
    var after := Rows(b.rows.tasks[t := waiting], b.rows.approvals[approval.id := approval]);
    var c := b.(rows := after, left := left);
    PausedRowsOk(b.rows, after, t, approval);
    PauseEvolves(b.rows, waiting, approval);
    forall id: ApprovalId ensures LogOk(c, id) { assert LogOk(b, id); }
    NoCreator(b, t);
    Stay(b, c, t);
  }

  lemma PauseEvolves(before: Rows, waiting: TaskRow, approval: ApprovalRow)
    requires waiting.id in before.tasks && before.tasks[waiting.id].status.RUNNING?
    requires waiting.input == before.tasks[waiting.id].input && waiting.createdAt == before.tasks[waiting.id].createdAt
    requires before.tasks[waiting.id].updatedAt <= waiting.updatedAt && approval.id !in before.approvals
    ensures RowsEvolve(before, Rows(before.tasks[waiting.id := waiting], before.approvals[approval.id := approval]))
  {
  }

  /** The decision settles the question and the Task together. */
  lemma DecidedRowsOk(before: Rows, t: TaskId, task: TaskRow, id: ApprovalId, approval: ApprovalRow)
    requires RowsOk(before) && t in before.tasks && before.tasks[t].status.WAITING_APPROVAL?
    requires id in before.approvals && before.approvals[id].taskId == t && before.approvals[id].status.PENDING?
    requires task.id == t && task.WellFormed()
    requires approval.id == id && approval.WellFormed() && approval.taskId == t
    requires (approval.status.APPROVED? && task.status.RUNNING?) || (approval.status.REJECTED? && task.status.REJECTED?)
    ensures RowsOk(Rows(before.tasks[t := task], before.approvals[id := approval]))
  {
    var after := Rows(before.tasks[t := task], before.approvals[id := approval]);
    assert after.approvals[id] == approval;
    forall k | k in after.tasks
      ensures after.tasks[k].status.WAITING_APPROVAL? ==> Asked(after, k, ApprovalStatus.PENDING)
      ensures after.tasks[k].status.REJECTED? <==> Asked(after, k, ApprovalStatus.REJECTED)
    {
      if k != t {
        forall s: ApprovalStatus | Asked(before, k, s) ensures Asked(after, k, s) {
          var i :| i in before.approvals && before.approvals[i].taskId == k && before.approvals[i].status == s;
          assert after.approvals[i] == before.approvals[i];
        }
      }
      if Asked(after, k, ApprovalStatus.REJECTED) {
        var i :| i in after.approvals && after.approvals[i].taskId == k && after.approvals[i].status.REJECTED?;
        assert i != id ==> before.approvals[i] == after.approvals[i] && Asked(before, k, ApprovalStatus.REJECTED);
      }
    }
  }

  /** The candidates of decide() are the two rows with only the decision applied. */
  lemma VerdictsAreSound(rows: Rows, id: ApprovalId, approve: bool, decidedAt: Time, now: Time)
    requires RowsOk(rows) && Verdicts(rows, id, approve, decidedAt, now).Ok?
    ensures var (approval, task) := Verdicts(rows, id, approve, decidedAt, now).value;
            && approval.id == id && approval.SameRequest(rows.approvals[id]) && approval.WellFormed()
            && rows.approvals[id].status.PENDING?
            && task.id == approval.taskId && task.id in rows.tasks && task.WellFormed()
            && rows.tasks[task.id].status.WAITING_APPROVAL?
            && task.input == rows.tasks[task.id].input && task.createdAt == rows.tasks[task.id].createdAt
            && rows.tasks[task.id].updatedAt <= task.updatedAt
            && (if approve then approval.status.APPROVED? && task.status.RUNNING?
                else approval.status.REJECTED? && task.status.REJECTED?)
            && (forall fault | Commits(fault) ::
                  DecidedRows(rows, approval, task, fault) ==
                    Rows(rows.tasks[task.id := task], rows.approvals[id := approval]))
  {
    var (approval, task) := Verdicts(rows, id, approve, decidedAt, now).value;
    TransitionIsSound(if approve then ResumeApproved else MarkRejected, rows.tasks[approval.taskId], now);
  }

  /** The two rows of a decision, written together. */
  function WithDecision(b: Business, approval: ApprovalRow, task: TaskRow): Business {
    b.(rows := Rows(b.rows.tasks[task.id := task], b.rows.approvals[approval.id := approval]),
       decisions := Append(b.decisions, approval.id, approval.status))
  }

  ghost predicate DecidesTogether(b: Business, approval: ApprovalRow, task: TaskRow) {
    && approval.id in b.rows.approvals
    && approval.SameRequest(b.rows.approvals[approval.id]) && approval.WellFormed()
    && b.rows.approvals[approval.id].status.PENDING?
    && task.id == approval.taskId && task.id in b.rows.tasks && task.WellFormed()
    && b.rows.tasks[task.id].status.WAITING_APPROVAL?
    && task.input == b.rows.tasks[task.id].input && task.createdAt == b.rows.tasks[task.id].createdAt
    && b.rows.tasks[task.id].updatedAt <= task.updatedAt
    && ((approval.status.APPROVED? && task.status.RUNNING?) || (approval.status.REJECTED? && task.status.REJECTED?))
  }

  lemma {:induction false} DecisionStays(b: Business, approval: ApprovalRow, task: TaskRow)
    requires Inv(b) && DecidesTogether(b, approval, task)
    ensures Inv(WithDecision(b, approval, task)) && RowsEvolve(b.rows, WithDecision(b, approval, task).rows)
  {
    var c := WithDecision(b, approval, task);
    DecidedRowsOk(b.rows, task.id, task, approval.id, approval);
    DecisionEvolves(b, approval, task);
    DecisionLogged(b, c, approval.id, approval);
    NoCreator(b, task.id);
    Stay(b, c, task.id);
  }

  lemma DecisionEvolves(b: Business, approval: ApprovalRow, task: TaskRow)
    requires DecidesTogether(b, approval, task)
    ensures RowsEvolve(b.rows, WithDecision(b, approval, task).rows)
  {
  }

  /** A decision writes both rows, or changes nothing. */
  lemma DecideEffect(b: Business, a: ActorId, id: ApprovalId, approve: bool, decidedAt: Time, now: Time, fault: Fault)
    requires Inv(b)
    ensures var verdict := Verdicts(b.rows, id, approve, decidedAt, now);
            if verdict.Ok? && Commits(fault) then
              var (approval, task) := verdict.value;
              var c := WithDecision(b, approval, task);
              && approval.id == id && DecidesTogether(b, approval, task)
              && AfterDecide(b, a, id, approve, decidedAt, now, fault)
                  == if approve && fault.Fine? then Take(c, a, Dispatching(id)) else c
            else AfterDecide(b, a, id, approve, decidedAt, now, fault) == b
  {
    if Verdicts(b.rows, id, approve, decidedAt, now).Ok? {
      VerdictsAreSound(b.rows, id, approve, decidedAt, now);
    }
  }

  lemma {:induction false} DecideKeeps(b: Business, a: ActorId, id: ApprovalId, approve: bool, decidedAt: Time,
                                       now: Time, fault: Fault)
    requires Inv(b) && HoldOf(b, a) == Free
    ensures Inv(AfterDecide(b, a, id, approve, decidedAt, now, fault))
    ensures RowsEvolve(b.rows, AfterDecide(b, a, id, approve, decidedAt, now, fault).rows)
  {
    DecideEffect(b, a, id, approve, decidedAt, now, fault);
    if Verdicts(b.rows, id, approve, decidedAt, now).Ok? && Commits(fault) {
      var (approval, task) := Verdicts(b.rows, id, approve, decidedAt, now).value;
      DecisionStays(b, approval, task);
      if approve && fault.Fine? { DispatchHeld(b, a, approval, task); }
    }
  }

  /** The decider of an acknowledged approval may dispatch it, and nobody else can. */
  lemma DispatchHeld(b: Business, a: ActorId, approval: ApprovalRow, task: TaskRow)
    requires Inv(b) && DecidesTogether(b, approval, task) && approval.status.APPROVED?
    requires Inv(WithDecision(b, approval, task))
    ensures Inv(Take(WithDecision(b, approval, task), a, Dispatching(approval.id)))
  {
    var c := WithDecision(b, approval, task);
    forall o: ActorId | o != a ensures !Compete(Dispatching(approval.id), HoldOf(c, o)) { assert HoldOk(b, HoldOf(b, o)); }
    assert LogOk(b, approval.id);
    Swap(c, a, Dispatching(approval.id));
  }

  lemma DecisionLogged(b: Business, c: Business, id: ApprovalId, approval: ApprovalRow)
    requires Inv(b) && id in b.rows.approvals && b.rows.approvals[id].status.PENDING? && !approval.status.PENDING?
    requires c.rows.approvals == b.rows.approvals[id := approval] && c.dispatched == b.dispatched
    requires c.decisions == Append(b.decisions, id, approval.status)
    ensures forall k: ApprovalId :: LogOk(c, k)
  {
    forall k: ApprovalId ensures LogOk(c, k) { assert LogOk(b, k); }
  }

  lemma CreateKeeps(b: Business, a: ActorId, row: TaskRow)
    requires Inv(b) && row.id !in b.rows.tasks && row.WellFormed() && row.status.PENDING?
    ensures var c := b.(rows := b.rows.(tasks := b.rows.tasks[row.id := row]));
            Inv(c) && Inv(Take(c, a, Creating(row))) && RowsEvolve(b.rows, c.rows)
  {
    var c := b.(rows := b.rows.(tasks := b.rows.tasks[row.id := row]));
    MovedRowsOk(b.rows, row.id, row);
    SameLogs(b, c);
    forall o: ActorId ensures !(HoldOf(b, o).Creating? && HoldOf(b, o).row.id == row.id) { assert HoldOk(b, HoldOf(b, o)); }
    Stay(b, c, row.id);
    forall o: ActorId | o != a ensures !Compete(Creating(row), HoldOf(c, o)) { assert HoldOf(c, o) == HoldOf(b, o); }
    Swap(c, a, Creating(row));
  }

  lemma LaunchKeeps(b: Business, a: ActorId, row: TaskRow, now: Time, fault: Fault)
    requires Inv(b) && HoldOf(b, a) == Creating(row) && Transition(Start, row, now).Ok?
    ensures var running := Transition(Start, row, now).value;
            var c := if Commits(fault) then b.(rows := b.rows.(tasks := b.rows.tasks[row.id := running])) else b;
            Inv(Take(c, a, if fault.Fine? then Captured(running) else Free)) && RowsEvolve(b.rows, c.rows)
  {
    var running := Transition(Start, row, now).value;
    assert HoldOk(b, HoldOf(b, a));
    TransitionIsSound(Start, row, now);
    var free := Take(b, a, Free);
    Swap(b, a, Free);
    if Commits(fault) {
      var c := free.(rows := b.rows.(tasks := b.rows.tasks[row.id := running]));
      MovedRowsOk(b.rows, row.id, running);
      SameLogs(free, c);
      forall o: ActorId ensures !(HoldOf(free, o).Creating? && HoldOf(free, o).row.id == row.id) {
        assert o != a ==> !Compete(HoldOf(b, a), HoldOf(b, o));
      }
      Stay(free, c, row.id);
      var h := if fault.Fine? then Captured(running) else Free;
      Swap(c, a, h);
      assert Take(c, a, h) == Take(b.(rows := c.rows), a, h) by {
        assert b.holds[a := Free][a := h] == b.holds[a := h];
      }
    }
  }

  lemma DispatchKeeps(b: Business, a: ActorId, id: ApprovalId)
    requires Inv(b) && HoldOf(b, a) == Dispatching(id)
    ensures Inv(Next(b, Dispatch(a)))
  {
    assert HoldOk(b, HoldOf(b, a)) && LogOk(b, id);
    var task := b.rows.approvals[id].taskId;
    var h := if b.rows.tasks[task].status.RUNNING? then Captured(b.rows.tasks[task]) else Free;
    var free := Take(b, a, Free);
    Swap(b, a, Free);
    var c := free.(dispatched := Append(b.dispatched, id, task));
    forall k: ApprovalId ensures LogOk(c, k) { assert LogOk(free, k); }
    forall o: ActorId ensures HoldOk(c, HoldOf(c, o)) {
      assert HoldOk(free, HoldOf(free, o));
      assert o != a ==> !Compete(HoldOf(b, a), HoldOf(b, o));
    }
    forall o: ActorId, p: ActorId | o != p ensures !Compete(HoldOf(c, o), HoldOf(c, p)) {
      assert !Compete(HoldOf(free, o), HoldOf(free, p));
    }
    Swap(c, a, h);
    assert Take(c, a, h) == Next(b, Dispatch(a)) by {
      assert b.holds[a := Free][a := h] == b.holds[a := h];
    }
  }

  lemma CreateStep(b: Business, a: ActorId, row: TaskRow, fault: Fault)
    requires Inv(b) && HoldOf(b, a) == Free && row.status.PENDING? && row.result.None? && row.error.None?
    ensures var c := Next(b, Create(a, row.id, row.input, row.createdAt, row.updatedAt, fault)); Inv(c) && RowsEvolve(b.rows, c.rows)
  {
    if row.id !in b.rows.tasks && row.WellFormed() { CreateKeeps(b, a, row); }
  }

  lemma LaunchStep(b: Business, a: ActorId, row: TaskRow, now: Time, fault: Fault)
    requires Inv(b) && HoldOf(b, a) == Creating(row)
    ensures var c := Next(b, Launch(a, now, fault)); Inv(c) && RowsEvolve(b.rows, c.rows)
  {
    if Transition(Start, row, now).Ok? { LaunchKeeps(b, a, row, now, fault); } else { Swap(b, a, Free); }
  }

  /** Whoever steps, the two tables stay consistent and only move forward. */
  lemma NextKeeps(b: Business, act: Action)
    requires Inv(b)
    ensures Inv(Next(b, act)) && RowsEvolve(b.rows, Next(b, act).rows)
  {
    var a := act.actor;
    assert HoldOk(b, HoldOf(b, a));
    match (act, HoldOf(b, a))
    case (Create(_, task, input, created, updated, fault), Free) =>
      CreateStep(b, a, TaskRow(task, TaskStatus.PENDING, input, None, None, created, updated), fault);
    case (Launch(_, now, fault), Creating(row)) => LaunchStep(b, a, row, now, fault);
    case (Capture(_, task), Creating(_)) =>
    case (Capture(_, task), Dispatching(_)) =>
    case (Capture(_, task), _) => if task in b.rows.tasks { Swap(b, a, Captured(b.rows.tasks[task])); }
    case (Write(_, op, now, fault), Captured(row)) => if Exit(op) { WriteKeeps(b, a, row, op, now, fault); }
    case (Pause(_, approval, now, fault), Captured(row)) => PauseKeeps(b, a, row, approval, now, fault);
    case (Decide(_, id, approve, decidedAt, now, fault), Free) => DecideKeeps(b, a, id, approve, decidedAt, now, fault);
    case (Dispatch(_), Dispatching(id)) => DispatchKeeps(b, a, id);
    case (Leave(_), _) => Swap(b, a, Free);
    case _ =>
  }
}
