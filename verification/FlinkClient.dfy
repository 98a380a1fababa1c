/** Taking a savepoint through the Flink API (controllers/flinkclient/flink_client.go). */
module FlinkClient {
  import opened FlinkTypes

  datatype SavepointStatus =
    SavepointStatus(triggerID: string, completed: bool, location: string, stackTrace: string)

  const NO_SAVEPOINT := SavepointStatus("", false, "", "")

  /** The answer to one status query; `err` covers the network and malformed answers. */
  datatype Poll = Poll(status: SavepointStatus, err: bool)

  const MAX_POLLS: nat := 12

  /** The answers Flink gives to a trigger request (None is an error) and to the status queries. */
  datatype FlinkAnswers = FlinkAnswers(trigger: Option<string>, polls: seq<Poll>) {
    function At(i: nat): Poll {
      if i < |polls| then polls[i] else Poll(NO_SAVEPOINT, true)
    }

    predicate CompletedAt(i: nat) {
      !At(i).err && At(i).status.completed
    }

    /** The first completed answer from the i-th query on, or the last answer of all. */
    function From(i: nat): Poll
      requires i < MAX_POLLS
      decreases MAX_POLLS - i
    {
      if CompletedAt(i) || i == MAX_POLLS - 1 then At(i) else From(i + 1)
    }

    function Result(): Poll {
      if trigger.None? then Poll(NO_SAVEPOINT, true) else From(0)
    }
  }

  /** TakeSavepoint: polls up to twelve times. */
  method TakeSavepoint(flink: FlinkAnswers) returns (status: SavepointStatus, err: bool)
    ensures Poll(status, err) == flink.Result()
  {
    if flink.trigger.None? {
      return NO_SAVEPOINT, true;
    }
    status, err := NO_SAVEPOINT, false;
    for i := 0 to MAX_POLLS
      invariant i < MAX_POLLS ==> flink.Result() == flink.From(i)
      invariant i == MAX_POLLS ==> flink.Result() == Poll(status, err)
    {
      status, err := flink.At(i).status, flink.At(i).err;
      if !err && status.completed {
        return status, false;
      }
    }
  }

  /** How the caller reads the result: a completed savepoint, an error, or neither, when no query found
      the savepoint completed and the last one did not fail. */
  datatype Taken = Done(status: SavepointStatus) | Erred | TimedOut

  function Outcome(flink: FlinkAnswers): Taken {
    var r := flink.Result();
    if r.err || r.status.stackTrace != "" then Erred
    else if r.status.completed then Done(r.status)
    else TimedOut
  }

  /** The k-th answer is the first completed one, counting from the i-th. */
  predicate FirstCompleted(flink: FlinkAnswers, i: nat, k: nat) {
    i <= k < 12 && flink.CompletedAt(k) && forall j: nat :: i <= j < k ==> !flink.CompletedAt(j)
  }

  lemma {:induction false} FromFinds(flink: FlinkAnswers, i: nat)
    requires i < MAX_POLLS
    ensures || (&& flink.From(i) == flink.At(MAX_POLLS - 1)
                && forall k: nat :: i <= k < MAX_POLLS ==> !flink.CompletedAt(k))
            || exists k: nat :: FirstCompleted(flink, i, k) && flink.From(i) == flink.At(k)
    decreases MAX_POLLS - i
  {
    if flink.CompletedAt(i) {
      assert FirstCompleted(flink, i, i);
    } else if i < MAX_POLLS - 1 {
      FromFinds(flink, i + 1);
      if k: nat :| FirstCompleted(flink, i + 1, k) && flink.From(i + 1) == flink.At(k) {
        assert FirstCompleted(flink, i, k);
      }
    }
  }

  /** The savepoint is done exactly when the first of the twelve answers that is completed carries no
      failure cause; the silent outcome is that of an accepted request that stays unfinished. */
  lemma OutcomeExactly(flink: FlinkAnswers)
    ensures Outcome(flink).Done? <==>
            flink.trigger.Some? && exists k: nat :: FirstCompleted(flink, 0, k) && flink.At(k).status.stackTrace == ""
    ensures forall k: nat :: Outcome(flink).Done? && FirstCompleted(flink, 0, k) ==>
                               Outcome(flink).status == flink.At(k).status
    ensures Outcome(flink).TimedOut? <==>
            && flink.trigger.Some?
            && (forall k: nat :: k < 12 ==> !flink.CompletedAt(k))
            && !flink.At(11).err && flink.At(11).status.stackTrace == ""
  {
    FromFinds(flink, 0);
    if k: nat :| FirstCompleted(flink, 0, k) {
      forall l: nat | FirstCompleted(flink, 0, l)
        ensures l == k
      {
      }
    }
  }
}
