/** Every RUNNING generation of a Task is left by at most one committed write, exactly as long as no approval
    reopens a generation that was left before. */
module TaskExits {
  import opened Values
  import T = TaskModel
  import A = ApprovalModel
  import S = BusinessStore
  import B = BusinessProtocol
  import BI = BusinessInvariant
  import E = ExecutionProtocol
  import D = Deployment

  function Left(b: B.Business, task: TaskId): seq<Time> {
    At(b.left, task)
  }

  predicate Running(b: B.Business, task: TaskId) {
    task in b.rows.tasks && b.rows.tasks[task].status.RUNNING?
  }

  /** No generation was left twice, and the present one was not left before. */
  ghost predicate LeftOnce(b: B.Business, task: TaskId) {
    Distinct(Left(b, task)) && (Running(b, task) ==> b.rows.tasks[task].updatedAt !in Left(b, task))
  }

  /** What holds of every log of exits: it is ordered and never ahead of the row. */
  ghost predicate Logged(b: B.Business, task: TaskId) {
    var left := Left(b, task);
    && (forall i, j | 0 <= i < j < |left| :: left[i] <= left[j])
    && (task !in b.rows.tasks || b.rows.tasks[task].status.PENDING? ==> left == [])
    && (task in b.rows.tasks ==> forall i | 0 <= i < |left| :: left[i] <= b.rows.tasks[task].updatedAt)
  }

  /** This step commits an approval of the Task. */
  predicate Approves(b: B.Business, act: B.Action, task: TaskId) {
    && act.Decide? && act.approve && B.HoldOf(b, act.actor).Free?
    && match B.Verdicts(b.rows, act.id, true, act.decidedAt, act.now)
       case Err(_) => false
       case Ok((approval, row)) => row.id == task && S.DecisionLands(b.rows, approval, row) && S.Commits(act.fault)
  }

  /** Neither the pause nor the approval moved the clock on: the approval is stamped as the waiting row,
      and that one as the generation which the pause left. */
  predicate Reopens(b: B.Business, act: B.Action, task: TaskId) {
    && Approves(b, act, task)
    && task in b.rows.tasks && act.now == b.rows.tasks[task].updatedAt
    && Left(b, task) != [] && Last(Left(b, task)) == act.now
  }

  /* ---- one step ---- */

  /** The row of one Task is replaced, and its RUNNING generation, if it had one, is logged. */
  predicate Moves(b: B.Business, c: B.Business, row: T.TaskRow) {
    && row.id in b.rows.tasks && c.rows.tasks == b.rows.tasks[row.id := row]
    && b.rows.tasks[row.id].updatedAt <= row.updatedAt
    && c.left == (if Running(b, row.id) then Append(b.left, row.id, b.rows.tasks[row.id].updatedAt) else b.left)
  }

  /** The new row does not run in a generation that was left. */
  predicate Fresh(b: B.Business, row: T.TaskRow)
    requires row.id in b.rows.tasks
  {
    row.status.RUNNING? ==>
      b.rows.tasks[row.id].updatedAt < row.updatedAt || b.rows.tasks[row.id].status.PENDING?
  }

  lemma MoveOnce(b: B.Business, c: B.Business, row: T.TaskRow, task: TaskId)
    requires row.id in b.rows.tasks && Logged(b, task) && Moves(b, c, row) && !row.status.PENDING?
    ensures Logged(c, task)
    ensures Fresh(b, row) || row.id != task ==> (LeftOnce(c, task) <==> LeftOnce(b, task))
  {
    var left, now := Left(b, task), b.rows.tasks[row.id].updatedAt;
    if row.id == task && Running(b, task) {
      assert Left(c, task) == left + [now];
      if now in left {
        var i :| 0 <= i < |left| && left[i] == now;
        assert Left(c, task)[i] == Left(c, task)[|left|];
      } else if !Distinct(left) {
        var i, j :| 0 <= i < j < |left| && left[i] == left[j];
        assert Left(c, task)[i] == Left(c, task)[j];
      }
    } else {
      assert Left(c, task) == left;
    }
  }

  /** A step that leaves the Tasks and the log alone. */
  lemma Unmoved(b: B.Business, c: B.Business, task: TaskId)
    requires Logged(b, task) && c.rows.tasks == b.rows.tasks && c.left == b.left
    ensures Logged(c, task) && (LeftOnce(c, task) <==> LeftOnce(b, task))
  {
    assert Left(c, task) == Left(b, task);
  }

  /** A lifecycle write that lands is a move into a fresh generation; any other one changes nothing here. */
  lemma WriteMoves(b: B.Business, a: ActorId, row: T.TaskRow, op: T.Operation, now: Time, fault: Fault)
    requires BI.Inv(b) && B.HoldOf(b, a) == B.Captured(row) && B.Exit(op)
    ensures var c, next := B.AfterWrite(b, a, row, op, now, fault), T.Transition(op, row, now);
            if next.Ok? && B.WriteLands(b.rows, next.value, row, fault)
            then Moves(b, c, next.value) && Fresh(b, next.value) && !next.value.status.PENDING?
            else c.rows.tasks == b.rows.tasks && c.left == b.left
  {
    assert BI.HoldOk(b, B.HoldOf(b, a));
    if T.Transition(op, row, now).Ok? {
      var candidate := T.Transition(op, row, now).value;
      T.TransitionIsSound(op, row, now);
      if B.WriteLands(b.rows, candidate, row, fault) {
        assert S.Written(b.rows.tasks, candidate) == b.rows.tasks[row.id := candidate];
      }
    }
  }

  lemma WriteOnce(b: B.Business, a: ActorId, row: T.TaskRow, op: T.Operation, now: Time, fault: Fault, task: TaskId)
    requires BI.Inv(b) && B.HoldOf(b, a) == B.Captured(row) && B.Exit(op) && Logged(b, task)
    ensures var c := B.AfterWrite(b, a, row, op, now, fault);
            Logged(c, task) && (LeftOnce(c, task) <==> LeftOnce(b, task))
  {
    var c, next := B.AfterWrite(b, a, row, op, now, fault), T.Transition(op, row, now);
    WriteMoves(b, a, row, op, now, fault);
    if next.Ok? && B.WriteLands(b.rows, next.value, row, fault) {
      MoveOnce(b, c, next.value, task);
    } else {
      Unmoved(b, c, task);
    }
  }

  lemma PauseOnce(b: B.Business, a: ActorId, row: T.TaskRow, approval: A.ApprovalRow, now: Time, fault: Fault,
                  task: TaskId)
    requires BI.Inv(b) && B.HoldOf(b, a) == B.Captured(row) && Logged(b, task)
    ensures var c := B.AfterPause(b, row, approval, now, fault);
            Logged(c, task) && (LeftOnce(c, task) <==> LeftOnce(b, task))
  {
    assert BI.HoldOk(b, B.HoldOf(b, a));
    var c := B.AfterPause(b, row, approval, now, fault);
    if c == b {
      Unmoved(b, c, task);
    } else {
      var candidate := T.Transition(T.MarkWaiting, row, now).value;
      T.TransitionIsSound(T.MarkWaiting, row, now);
      if S.PauseLands(b.rows, candidate, approval, row) && S.Commits(fault) {
        assert c.rows.tasks == b.rows.tasks[row.id := candidate];
        MoveOnce(b, c, candidate, task);
      }
    }
  }

  lemma CreateOnce(b: B.Business, a: ActorId, row: T.TaskRow, fault: Fault, task: TaskId)
    requires BI.Inv(b) && B.HoldOf(b, a) == B.Free && Logged(b, task)
    requires row.status.PENDING? && row.result.None? && row.error.None?
    ensures var c := B.Next(b, B.Create(a, row.id, row.input, row.createdAt, row.updatedAt, fault));
            Logged(c, task) && (LeftOnce(c, task) <==> LeftOnce(b, task))
  {
    assert Left(B.Next(b, B.Create(a, row.id, row.input, row.createdAt, row.updatedAt, fault)), task) == Left(b, task);
  }

  lemma LaunchOnce(b: B.Business, a: ActorId, row: T.TaskRow, now: Time, fault: Fault, task: TaskId)
    requires BI.Inv(b) && B.HoldOf(b, a) == B.Creating(row) && Logged(b, task)
    ensures var c := B.Next(b, B.Launch(a, now, fault)); Logged(c, task) && (LeftOnce(c, task) <==> LeftOnce(b, task))
  {
    assert BI.HoldOk(b, B.HoldOf(b, a));
    var c := B.Next(b, B.Launch(a, now, fault));
    if T.Transition(T.Start, row, now).Ok? && S.Commits(fault) {
      MoveOnce(b, c, T.Transition(T.Start, row, now).value, task);
    } else {
      Unmoved(b, c, task);
    }
  }

  /** A decision that commits replaces the waiting row and logs nothing; any other one changes no Task. */
  lemma DecideMoves(b: B.Business, act: B.Action)
    requires BI.Inv(b) && act.Decide? && B.HoldOf(b, act.actor) == B.Free
    ensures var c, verdict := B.Next(b, act), B.Verdicts(b.rows, act.id, act.approve, act.decidedAt, act.now);
            && c.left == b.left
            && if verdict.Ok? && S.Commits(act.fault) then Moves(b, c, verdict.value.1)
               else c.rows.tasks == b.rows.tasks
  {
    BI.DecideEffect(b, act.actor, act.id, act.approve, act.decidedAt, act.now, act.fault);
  }

  /** Which Task a decision approves, and what it makes of the waiting row. */
  lemma Decides(b: B.Business, act: B.Action)
    requires BI.Inv(b) && act.Decide? && B.HoldOf(b, act.actor) == B.Free
    ensures var verdict := B.Verdicts(b.rows, act.id, act.approve, act.decidedAt, act.now);
            if verdict.Ok? && S.Commits(act.fault) then
              var row := verdict.value.1;
              && !Running(b, row.id) && row.updatedAt == act.now
              && row.status == (if act.approve then T.RUNNING else T.TaskStatus.REJECTED)
              && (forall task :: Approves(b, act, task) <==> act.approve && row.id == task)
            else forall task :: !Approves(b, act, task)
  {
    if B.Verdicts(b.rows, act.id, act.approve, act.decidedAt, act.now).Ok? {
      BI.VerdictsAreSound(b.rows, act.id, act.approve, act.decidedAt, act.now);
    }
  }

  /** A decision: only an approval that reopens a left generation does harm. */
  lemma DecideOnce(b: B.Business, act: B.Action, task: TaskId)
    requires BI.Inv(b) && act.Decide? && B.HoldOf(b, act.actor) == B.Free && Logged(b, task)
    ensures var c := B.Next(b, act);
            Logged(c, task) && (LeftOnce(c, task) <==> LeftOnce(b, task) && !Reopens(b, act, task))
  {
    var c, verdict := B.Next(b, act), B.Verdicts(b.rows, act.id, act.approve, act.decidedAt, act.now);
    DecideMoves(b, act);
    Decides(b, act);
    if verdict.Ok? && S.Commits(act.fault) {
      MoveOnce(b, c, verdict.value.1, task);
      if verdict.value.1.id == task && act.approve { ApprovalOnce(b, c, verdict.value.1); }
    } else {
      Unmoved(b, c, task);
    }
  }

  /** The waiting row runs again under the stamp of the approval. */
  lemma ApprovalOnce(b: B.Business, c: B.Business, row: T.TaskRow)
    requires Logged(b, row.id) && Moves(b, c, row) && !Running(b, row.id) && row.status.RUNNING?
    ensures LeftOnce(c, row.id) <==>
              LeftOnce(b, row.id)
              && !(row.updatedAt == b.rows.tasks[row.id].updatedAt
                   && Left(b, row.id) != [] && Last(Left(b, row.id)) == row.updatedAt)
  {
    var left := Left(b, row.id);
    if row.updatedAt in left {
      var i :| 0 <= i < |left| && left[i] == row.updatedAt;
      assert i < |left| - 1 ==> left[i] <= left[|left| - 1];
    }
  }

  /** Exactly the approvals that reopen a generation spoil the log. */
  lemma NextOnce(b: B.Business, act: B.Action, task: TaskId)
    requires BI.Inv(b) && Logged(b, task)
    ensures Logged(B.Next(b, act), task)
    ensures LeftOnce(B.Next(b, act), task) <==> LeftOnce(b, task) && !Reopens(b, act, task)
  {
    var a := act.actor;
    match (act, B.HoldOf(b, a))
    case (Write(_, op, now, fault), Captured(row)) => if B.Exit(op) { WriteOnce(b, a, row, op, now, fault, task); }
    case (Pause(_, approval, now, fault), Captured(row)) => PauseOnce(b, a, row, approval, now, fault, task);
    case (Decide(_, _, _, _, _, _), Free) => DecideOnce(b, act, task);
    case (Create(_, id, input, created, updated, fault), Free) =>
      CreateOnce(b, a, T.TaskRow(id, T.TaskStatus.PENDING, input, None, None, created, updated), fault, task);
    case (Launch(_, now, fault), Creating(row)) => LaunchOnce(b, a, row, now, fault, task);
    case _ =>
      NothingWritten(b, act);
      Unmoved(b, B.Next(b, act), task);
  }

  /** Whether the actor is in a position to take a step that writes. */
  predicate MayWrite(b: B.Business, act: B.Action) {
    var h := B.HoldOf(b, act.actor);
    || (act.Write? && h.Captured?) || (act.Pause? && h.Captured?) || (act.Decide? && h.Free?)
    || (act.Create? && h.Free?) || (act.Launch? && h.Creating?)
  }

  lemma NothingWritten(b: B.Business, act: B.Action)
    requires !MayWrite(b, act)
    ensures B.Next(b, act).rows.tasks == b.rows.tasks && B.Next(b, act).left == b.left
  {
  }

  /* ---- whole runs ---- */

  /** No approval of this run reopened a generation of the Task. */
  predicate NeverReopened(modes: E.Modes, steps: seq<D.Step>, task: TaskId) {
    steps != [] ==>
      var init := steps[..|steps| - 1];
      && NeverReopened(modes, init, task)
      && (Last(steps).OnBusiness? ==> !Reopens(D.Run(modes, D.INITIAL, init).business, Last(steps).business, task))
  }

  /** In every run, whatever the clocks show: each RUNNING generation was left by at most one committed write and the
      present one by none, if and only if no approval reopened a generation. */
  lemma {:induction false} OneExitPerGeneration(modes: E.Modes, steps: seq<D.Step>, task: TaskId)
    ensures Logged(D.Run(modes, D.INITIAL, steps).business, task)
    ensures LeftOnce(D.Run(modes, D.INITIAL, steps).business, task) <==> NeverReopened(modes, steps, task)
  {
    if steps != [] {
      var init := steps[..|steps| - 1];
      OneExitPerGeneration(modes, init, task);
      D.Reachable(modes, init);
      if Last(steps).OnBusiness? { NextOnce(D.Run(modes, D.INITIAL, init).business, Last(steps).business, task); }
    }
  }

  /** Every approval of this run is stamped later than the waiting row: what a caller of decide() can check. */
  predicate ApprovesLater(modes: E.Modes, steps: seq<D.Step>, task: TaskId) {
    steps != [] ==>
      var init := steps[..|steps| - 1];
      && ApprovesLater(modes, init, task)
      && (Last(steps).OnBusiness? ==>
            var b, act := D.Run(modes, D.INITIAL, init).business, Last(steps).business;
            Approves(b, act, task) && task in b.rows.tasks ==> b.rows.tasks[task].updatedAt < act.now)
  }

  /** With that guard every log of exits is without repetition, and nothing else is asked of any clock. */
  lemma {:induction false} LaterApprovalsSuffice(modes: E.Modes, steps: seq<D.Step>, task: TaskId)
    requires ApprovesLater(modes, steps, task)
    ensures NeverReopened(modes, steps, task) && Distinct(Left(D.Run(modes, D.INITIAL, steps).business, task))
  {
    if steps != [] {
      LaterApprovalsSuffice(modes, steps[..|steps| - 1], task);
    }
    OneExitPerGeneration(modes, steps, task);
  }

  /* ---- the converse ---- */

  /** Some actor takes no part. */
  lemma {:induction false} Bystander(actors: set<ActorId>) returns (a: ActorId)
    ensures a !in actors && (forall k | k in actors :: k < a)
  {
    if actors == {} {
      a := 0;
    } else {
      var k :| k in actors;
      var rest := Bystander(actors - {k});
      a := if rest <= k then k + 1 else rest;
      forall m | m in actors ensures m < a {
        assert m != k ==> m in actors - {k};
      }
    }
  }

  /** After an approval that reopened a generation two more steps suffice to leave that generation again. */
  lemma {:induction false} ReopenedIsLeftTwice(modes: E.Modes, steps: seq<D.Step>, task: TaskId)
    requires !NeverReopened(modes, steps, task)
    ensures exists more: seq<D.Step> | |more| <= 2 :: !Distinct(Left(D.Run(modes, D.INITIAL, steps + more).business,
                                                                     task))
  {
    var b := D.Run(modes, D.INITIAL, steps).business;
    OneExitPerGeneration(modes, steps, task);
    if !Distinct(Left(b, task)) {
      assert steps + [] == steps;
      assert !Distinct(Left(D.Run(modes, D.INITIAL, steps + []).business, task));
    } else {
      D.Reachable(modes, steps);
      var row := b.rows.tasks[task];
      var a := Bystander(b.holds.Keys);
      var capture, write := B.Capture(a, task), B.Write(a, T.RequireRecovery, row.updatedAt, Fine);
      LeaveAgain(b, task, a);
      D.RunAppend(modes, D.INITIAL, steps, D.OnBusiness(capture));
      D.RunAppend(modes, D.INITIAL, steps + [D.OnBusiness(capture)], D.OnBusiness(write));
      var more := [D.OnBusiness(capture), D.OnBusiness(write)];
      assert steps + [D.OnBusiness(capture)] + [D.OnBusiness(write)] == steps + more;
      assert !Distinct(Left(D.Run(modes, D.INITIAL, steps + more).business, task));
    }
  }

  lemma LeaveAgain(b: B.Business, task: TaskId, a: ActorId)
    requires BI.Inv(b) && Running(b, task) && b.rows.tasks[task].updatedAt in Left(b, task) && a !in b.holds
    ensures var c := B.Next(B.Next(b, B.Capture(a, task)),
                            B.Write(a, T.RequireRecovery, b.rows.tasks[task].updatedAt, Fine));
            !Distinct(Left(c, task))
  {
    var left, row := Left(b, task), b.rows.tasks[task];
    var captured := B.Next(b, B.Capture(a, task));
    assert B.HoldOf(captured, a) == B.Captured(row);
    T.TransitionIsSound(T.RequireRecovery, row, row.updatedAt);
    var c := B.Next(captured, B.Write(a, T.RequireRecovery, row.updatedAt, Fine));
    assert Left(c, task) == left + [row.updatedAt];
    var i :| 0 <= i < |left| && left[i] == row.updatedAt;
    assert Left(c, task)[i] == Left(c, task)[|left|];
  }
}
