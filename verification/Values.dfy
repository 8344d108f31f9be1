/** Values shared by every layer: identities, time, tool calls, errors and transaction faults. */
module Values {
  type TaskId = nat
  type ApprovalId = nat
  type ExecutionId = nat
  type ActorId = nat

  /** Microseconds; any integer, because a clock may be set back. */
  type Time = int

  /** The canonical JSON text of an arguments object: equal texts are equal arguments. */
  type Arguments = string

  datatype Option<+T> = None | Some(value: T)

  /** The exceptions that the modelled code tells apart. */
  datatype Error =
    | ResumeAuthorization | PermissionDenied
    | ReplayBlocked | IdentityConflict | PersistenceConflict | PersistenceUncertain
    | OutcomeUnknown | FailedWithoutEffect | ToolFailed | ToolNotFound | InvalidInput
    | DatabaseError | ValueError
    | TaskInvalid | InvalidTaskTransition | OwnershipLost
    | ApprovalInvalid | InvalidApprovalTransition
    | ApprovalNotFound | DecisionConflict | TaskContext
    | MaxStepsExceeded | InvalidResponse | ProviderError | ConfigurationError

  datatype Result<+T> = Ok(value: T) | Err(error: Error)

  datatype ToolCall = ToolCall(id: string, name: string, arguments: Arguments)

  datatype IdempotencyMode = NONE | EXTERNAL_KEY | INHERENT

  /** What a database transaction meets: nothing, an error before the commit (rolled back),
      or a failed commit, which does not say whether the commit took place. */
  datatype Fault = Fine | BodyError | CommitLost(committed: bool)

  function Max(a: int, b: int): int {
    if a < b then b else a
  }

  /** The entry of a log table, empty when nothing was ever logged under the key. */
  function At<K, V>(log: map<K, seq<V>>, key: K): seq<V> {
    if key in log then log[key] else []
  }

  function Append<K, V>(log: map<K, seq<V>>, key: K, entry: V): map<K, seq<V>> {
    log[key := At(log, key) + [entry]]
  }

  function Last<T>(s: seq<T>): T
    requires |s| > 0
  {
    s[|s| - 1]
  }

  ghost predicate Increasing(s: seq<Time>) {
    forall i, j | 0 <= i < j < |s| :: s[i] < s[j]
  }

  ghost predicate Distinct<T(!new)>(s: seq<T>) {
    forall i, j | 0 <= i < j < |s| :: s[i] != s[j]
  }

  /** Distinct entries drawn from another sequence cannot be more numerous than it. */
  lemma {:induction false} DistinctIsNoLonger<T(!new)>(part: seq<T>, whole: seq<T>)
    requires Distinct(part)
    requires forall x | x in part :: x in whole
    ensures |part| <= |whole|
  {
    if |part| > 0 {
      var x := part[0];
      assert x in part;
      var k :| 0 <= k < |whole| && whole[k] == x;
      var rest := whole[..k] + whole[k + 1..];
      forall y | y in part[1..]
        ensures y in rest
      {
        assert y in part;
        var m :| 0 <= m < |whole| && whole[m] == y;
        assert m != k;
        assert y == if m < k then rest[m] else rest[m - 1];
      }
      DistinctIsNoLonger(part[1..], rest);
    }
  }
}
