/** A run at one clock reading, in which one RUNNING generation of a Task is left by two committed writes:
    an approval that reopens a generation, the one thing TaskExits.OneExitPerGeneration excludes, does occur. */
module StandingClock {
  import opened Values
  import A = ApprovalModel
  import E = ExecutionProtocol
  import T = TaskModel
  import B = BusinessProtocol
  import D = Deployment

  const ASKED := A.ApprovalRow(1, 7, "call-1", "send", "{}", A.PENDING, 0, None)
  const STARTED := T.TaskRow(7, T.RUNNING, "", None, None, 0, 0)

  /** Created, paused, approved, resumed, finished, all at time 0. */
  function Actions(): seq<B.Action> {
    [B.Create(0, 7, "", 0, 0, Fine), B.Launch(0, 0, Fine), B.Pause(0, ASKED, 0, Fine),
     B.Decide(1, 1, true, 0, 0, Fine), B.Dispatch(1), B.Write(1, T.Succeed("x"), 0, Fine)]
  }

  function Steps(acts: seq<B.Action>): seq<D.Step> {
    if acts == [] then [] else Steps(acts[..|acts| - 1]) + [D.OnBusiness(Last(acts))]
  }

  /** The state after the first k actions. */
  function Standing(modes: E.Modes, k: nat): B.Business
    requires k <= 6
  {
    D.Run(modes, D.INITIAL, Steps(Actions()[..k])).business
  }

  predicate Shows(b: B.Business, status: T.TaskStatus, left: seq<Time>) {
    7 in b.rows.tasks && b.rows.tasks[7] == STARTED.(status := status) && At(b.left, 7) == left
  }

  predicate Launched(b: B.Business) {
    Shows(b, T.RUNNING, []) && b.rows.approvals == map[] && B.HoldOf(b, 0) == B.Captured(STARTED)
    && B.HoldOf(b, 1) == B.Free
  }

  predicate Paused(b: B.Business) {
    Shows(b, T.WAITING_APPROVAL, [0]) && b.rows.approvals == map[1 := ASKED] && B.HoldOf(b, 1) == B.Free
  }

  predicate Approved(b: B.Business) {
    Shows(b, T.RUNNING, [0]) && 1 in b.rows.approvals && b.rows.approvals[1].taskId == 7
    && B.HoldOf(b, 1) == B.Dispatching(1)
  }

  predicate Resumed(b: B.Business) {
    Shows(b, T.RUNNING, [0]) && B.HoldOf(b, 1) == B.Captured(STARTED)
  }

  lemma Launching(b: B.Business, c: B.Business, d: B.Business)
    requires b == B.NOTHING && c == B.Next(b, B.Create(0, 7, "", 0, 0, Fine)) && d == B.Next(c, B.Launch(0, 0, Fine))
    ensures Launched(d)
  {
  }

  lemma Pausing(b: B.Business, c: B.Business)
    requires Launched(b) && c == B.Next(b, B.Pause(0, ASKED, 0, Fine))
    ensures Paused(c)
  {
  }

  lemma Approving(b: B.Business, c: B.Business)
    requires Paused(b) && c == B.Next(b, B.Decide(1, 1, true, 0, 0, Fine))
    ensures Approved(c)
  {
  }

  lemma Resuming(b: B.Business, c: B.Business)
    requires Approved(b) && c == B.Next(b, B.Dispatch(1))
    ensures Resumed(c)
  {
  }

  lemma Leaving(b: B.Business, c: B.Business)
    requires Resumed(b) && c == B.Next(b, B.Write(1, T.Succeed("x"), 0, Fine))
    ensures At(c.left, 7) == [0, 0]
  {
    assert "x"[0] == 'x';
  }

  lemma OneMore(modes: E.Modes, k: nat)
    requires k < 6
    ensures Standing(modes, k + 1) == B.Next(Standing(modes, k), Actions()[k])
  {
    var acts := Actions();
    assert acts[..k + 1][..k] == acts[..k];
    D.RunAppend(modes, D.INITIAL, Steps(acts[..k]), D.OnBusiness(acts[k]));
  }

  lemma UntilLaunch(modes: E.Modes)
    ensures Launched(Standing(modes, 2))
  {
    assert Actions()[..0] == [];
    OneMore(modes, 0);
    OneMore(modes, 1);
    Launching(Standing(modes, 0), Standing(modes, 1), Standing(modes, 2));
  }

  lemma UntilPause(modes: E.Modes)
    ensures Paused(Standing(modes, 3))
  {
    UntilLaunch(modes);
    OneMore(modes, 2);
    Pausing(Standing(modes, 2), Standing(modes, 3));
  }

  lemma UntilApproval(modes: E.Modes)
    ensures Approved(Standing(modes, 4))
  {
    UntilPause(modes);
    OneMore(modes, 3);
    Approving(Standing(modes, 3), Standing(modes, 4));
  }

  lemma UntilResume(modes: E.Modes)
    ensures Resumed(Standing(modes, 5))
  {
    UntilApproval(modes);
    OneMore(modes, 4);
    Resuming(Standing(modes, 4), Standing(modes, 5));
  }

  /** While the clock stands still one RUNNING generation can be left twice. */
  lemma GenerationLeftTwice(modes: E.Modes)
    ensures At(D.Run(modes, D.INITIAL, Steps(Actions())).business.left, 7) == [0, 0]
  {
    UntilResume(modes);
    OneMore(modes, 5);
    Leaving(Standing(modes, 5), Standing(modes, 6));
    assert Actions()[..6] == Actions();
  }
}
