/** `waitApiTaskDone` (pkg/tencentcloud/tencentcloud_loadbalancer.go): poll
    the status of an asynchronous remote task until it settles. The one-second
    sleep between polls is not modelled; polls are counted instead. Also the
    outcome of a mutation followed by that wait, and of runs of them. */
module Tasks {
  import opened Wrappers
  import opened Types
  import opened Remote

  /** The poll budget. */
  const MaxPolls := 30

  /** The verdict of the wait on `task` from poll `i` on, where `status(task,
      i)` answers poll `i`: done (0) and failed (1) end the wait without an
      error, running (2) polls again, any other status or a failed query is
      an error at once, and a budget spent on running answers times out. */
  function WaitVerdict(status: (string, nat) -> StatusReply, task: string, i: nat): Option<Error>
    decreases MaxPolls - i
  {
    if i >= MaxPolls then Some(TaskTimeout(task))
    else match status(task, i)
      case QueryFailed(message) => Some(Sdk(message))
      case Status(code) =>
        if code == 0 || code == 1 then None
        else if code == 2 then WaitVerdict(status, task, i + 1)
        else Some(TaskUnexpectedStatus(task, code))
  }

  /** The wait from poll `i` succeeds iff some poll before the budget is
      spent answers done or failed and every poll between answers running. */
  lemma {:induction false} WaitVerdictNone(status: (string, nat) -> StatusReply, task: string, i: nat)
    ensures WaitVerdict(status, task, i).None? <==>
              exists j :: i <= j < MaxPolls && status(task, j) in {Status(0), Status(1)}
                && forall k :: i <= k < j ==> status(task, k) == Status(2)
    decreases MaxPolls - i
  {
    if i < MaxPolls && status(task, i) == Status(2) {
      WaitVerdictNone(status, task, i + 1);
      if WaitVerdict(status, task, i).None? {
        var j :| i + 1 <= j < MaxPolls && status(task, j) in {Status(0), Status(1)}
                 && forall k :: i + 1 <= k < j ==> status(task, k) == Status(2);
        assert forall k :: i <= k < j ==> status(task, k) == Status(2);
      }
    } else if i < MaxPolls {
      if WaitVerdict(status, task, i).None? {
        assert status(task, i) in {Status(0), Status(1)};
      }
    }
  }

  /** Polls `status(task, 0)`, `status(task, 1)`, ... and returns the
      verdict and the number of polls made. */
  method WaitApiTaskDone(task: string, status: (string, nat) -> StatusReply) returns (err: Option<Error>, polls: nat)
    ensures err == WaitVerdict(status, task, 0)
    ensures 1 <= polls <= MaxPolls
    ensures forall i :: 0 <= i < polls - 1 ==> status(task, i) == Status(2)
    ensures status(task, polls - 1).QueryFailed? ==> err == Some(Sdk(status(task, polls - 1).message))
    ensures status(task, polls - 1) in {Status(0), Status(1)} ==> err == None
    ensures status(task, polls - 1) == Status(2) ==> polls == MaxPolls && err == Some(TaskTimeout(task))
    ensures status(task, polls - 1).Status? && status(task, polls - 1).code !in {0, 1, 2} ==>
              err == Some(TaskUnexpectedStatus(task, status(task, polls - 1).code))
  {
    polls := 0;
    while polls < MaxPolls
      invariant 0 <= polls <= MaxPolls
      invariant forall i :: 0 <= i < polls ==> status(task, i) == Status(2)
      invariant WaitVerdict(status, task, 0) == WaitVerdict(status, task, polls)
    {
      var reply := status(task, polls);
      polls := polls + 1;
      match reply {
        case QueryFailed(message) =>
          return Some(Sdk(message)), polls;
        case Status(code) =>
          if code == 0 || code == 1 {
            return None, polls;
          } else if code != 2 {
            return Some(TaskUnexpectedStatus(task, code)), polls;
          }
      }
    }
    err := Some(TaskTimeout(task));
  }

  /** The outcome of the mutation `call` made after `n` earlier calls: the
      error of its reply, or else the verdict of the wait on the reply's
      request id. */
  function MutationOutcome(remote: Remote, n: nat, call: ApiCall): Option<Error>
  {
    var r := remote.answer(n, call);
    if r.error.Some? then Some(Sdk(r.error.value)) else WaitVerdict(remote.taskStatus, r.requestId, 0)
  }

  /** The call went out but the wait on its task did not succeed. */
  predicate WaitFailed(remote: Remote, n: nat, call: ApiCall)
  {
    remote.answer(n, call).error.None? && MutationOutcome(remote, n, call).Some?
  }

  /** Every mutation of `calls[from..to]` went through: answered without an
      error, its task settled. */
  predicate WentThrough(remote: Remote, calls: seq<ApiCall>, from: nat, to: nat)
  {
    && from <= to <= |calls|
    && forall k :: from <= k < to ==> MutationOutcome(remote, k, calls[k]).None?
  }

  /** The run of mutations from `from` on stopped at its last call, which
      failed with `err`, every call before it having gone through. */
  predicate EndedInFailure(remote: Remote, calls: seq<ApiCall>, from: nat, err: Option<Error>)
  {
    && from < |calls|
    && WentThrough(remote, calls, from, |calls| - 1)
    && err.Some?
    && MutationOutcome(remote, |calls| - 1, calls[|calls| - 1]) == err
  }

  /** Calls appended later do not change which calls went through. */
  lemma WentThroughKept(remote: Remote, calls: seq<ApiCall>, longer: seq<ApiCall>, from: nat, to: nat)
    requires WentThrough(remote, calls, from, to) && calls <= longer
    ensures WentThrough(remote, longer, from, to)
  {
    forall k | from <= k < to ensures longer[k] == calls[k] { }
  }

  /** The errors a mutation can end with: its own failure, or the wait's. */
  predicate CallError(e: Error)
  {
    e.Sdk? || e.TaskTimeout? || e.TaskUnexpectedStatus?
  }

  /** A wait that does not succeed ends with a failed status query, an
      unexpected status or a timeout. */
  lemma {:induction false} WaitVerdictKinds(status: (string, nat) -> StatusReply, task: string, i: nat)
    ensures WaitVerdict(status, task, i).Some? ==> CallError(WaitVerdict(status, task, i).value)
    decreases MaxPolls - i
  {
    if i < MaxPolls && status(task, i) == Status(2) {
      WaitVerdictKinds(status, task, i + 1);
    }
  }

  /** How a run of mutations from `from` on ended. Without an error, or with
      NoListenerForPort (the one error a run decides between its calls),
      every call of it went through; with any other error its last call
      failed with that error. */
  predicate RunEnded(remote: Remote, calls: seq<ApiCall>, from: nat, err: Option<Error>)
  {
    if err.None? || err == Some(NoListenerForPort) then WentThrough(remote, calls, from, |calls|)
    else EndedInFailure(remote, calls, from, err)
  }

  /** One more mutation after calls that went through: the run ends as
      that mutation does. */
  lemma StepEnded(remote: Remote, before: seq<ApiCall>, call: ApiCall, from: nat, err: Option<Error>)
    requires WentThrough(remote, before, from, |before|)
    requires err == MutationOutcome(remote, |before|, call)
    ensures RunEnded(remote, before + [call], from, err)
  {
    WentThroughKept(remote, before, before + [call], from, |before|);
    WaitVerdictKinds(remote.taskStatus, remote.answer(|before|, call).requestId, 0);
  }

  /** A run that went through up to `first` and then ended from there
      ended so from `from` on. */
  lemma RunJoined(remote: Remote, first: seq<ApiCall>, calls: seq<ApiCall>, from: nat, err: Option<Error>)
    requires WentThrough(remote, first, from, |first|) && first <= calls
    requires RunEnded(remote, calls, |first|, err)
    ensures RunEnded(remote, calls, from, err)
  {
    WentThroughKept(remote, first, calls, from, |first|);
  }
}
