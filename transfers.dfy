// The transfer-task bookkeeping of packages/backend/src/transfers/transfers.service.ts:
// tasks fanned out into one sub-task per (target connection, source item),
// the guarded status updates, the aggregation of sub-task states into the
// task's status and progress, and the scp/rsync command line. The ssh2
// work that drives the updates is not part of this model; ids come from a
// counter and times are opaque numbers.
module Transfers {
  import opened Wrappers
  import opened Strings
  import opened OrderedMaps
  import opened ShellQuote

  datatype SubStatus = Queued | Connecting | Transferring | Completed | Failed
  {
    predicate IsFinal()
    {
      Completed? || Failed?
    }
  }

  datatype TaskStatus = TaskQueued | InProgress | TaskCompleted | TaskFailed | PartiallyCompleted
  {
    predicate IsFinal()
    {
      TaskCompleted? || TaskFailed? || PartiallyCompleted?
    }

    predicate IsTransient()
    {
      TaskQueued? || InProgress?
    }
  }

  datatype SourceItem = SourceItem(name: string, path: string, isDirectory: bool)

  datatype TransferMethod = Auto | Rsync | Scp

  /** `InitiateTransferPayload` (transfers.types.ts:1-6). */
  datatype TransferPayload = TransferPayload(
    connectionIds: seq<int>,
    sourceItems: seq<SourceItem>,
    remoteTargetPath: string,
    transferMethod: TransferMethod)

  /** `TransferSubTask` (transfers.types.ts:8-18), without the method used. */
  datatype SubTask = SubTask(
    subTaskId: string,
    connectionId: int,
    sourceItemName: string,
    status: SubStatus,
    progress: Option<int>,
    message: Option<string>,
    startTime: nat,
    endTime: Option<nat>)

  /** `TransferTask` (transfers.types.ts:20-29). */
  datatype TransferTask = TransferTask(
    taskId: string,
    status: TaskStatus,
    userId: int,
    createdAt: nat,
    updatedAt: nat,
    subTasks: seq<SubTask>,
    overallProgress: Option<int>,
    payload: TransferPayload)

  /** The id the uuid generator returns on its `n`-th call. */
  function TransferId(n: nat): string
  {
    "transfer-" + NatToString(n)
  }

  /** The uuid generator never returns the same id twice. */
  lemma TransferIdInjective(m: nat, n: nat)
    ensures TransferId(m) == TransferId(n) ==> m == n
  {
    if TransferId(m) == TransferId(n) {
      assert NatToString(m) == TransferId(m)[9..];
      assert NatToString(n) == TransferId(n)[9..];
      NatToStringInjective(m, n);
    }
  }

  /** `id` is none of the ids the generator returns from its `counter`-th call on. */
  ghost predicate IssuedBefore(id: string, counter: nat)
  {
    forall n: nat | counter <= n :: id != TransferId(n)
  }

  /** The transfer task's id and every sub-task id were handed out before the `counter`-th call. */
  ghost predicate IdsIssuedBefore(task: TransferTask, counter: nat)
  {
    && IssuedBefore(task.taskId, counter)
    && forall k | 0 <= k < |task.subTasks| :: IssuedBefore(task.subTasks[k].subTaskId, counter)
  }

  lemma IdIssuedBefore(m: nat, counter: nat)
    requires m < counter
    ensures IssuedBefore(TransferId(m), counter)
  {
    forall n: nat | counter <= n
      ensures TransferId(m) != TransferId(n)
    {
      TransferIdInjective(m, n);
    }
  }

  // ------------------------------------------------------------ sub-tasks

  function NewSubTask(id: nat, connectionId: int, item: SourceItem, now: nat): SubTask
  {
    SubTask(TransferId(id), connectionId, item.name, Queued, None, None, now, None)
  }

  /** The sub-tasks of one target connection, ids from `next` on. */
  function Row(connectionId: int, items: seq<SourceItem>, next: nat, now: nat): seq<SubTask>
  {
    seq(|items|, j requires 0 <= j < |items| => NewSubTask(next + j, connectionId, items[j], now))
  }

  /** One more item extends the row by its sub-task. */
  lemma RowSnoc(connectionId: int, items: seq<SourceItem>, j: nat, next: nat, now: nat)
    requires j < |items|
    ensures Row(connectionId, items[..j + 1], next, now)
      == Row(connectionId, items[..j], next, now) + [NewSubTask(next + j, connectionId, items[j], now)]
  {
    var a := Row(connectionId, items[..j + 1], next, now);
    var b := Row(connectionId, items[..j], next, now) + [NewSubTask(next + j, connectionId, items[j], now)];
    assert |a| == |b|;
    forall k | 0 <= k < |a| ensures a[k] == b[k] {
      assert items[..j + 1][k] == items[k];
      if k < j {
        assert items[..j][k] == items[k];
      }
    }
  }

  /** Where row `i` starts when every row holds `m` sub-tasks: `i * m`, counted row by row. */
  function Offset(i: nat, m: nat): nat
  {
    if i == 0 then 0 else Offset(i - 1, m) + m
  }

  lemma {:induction false} OffsetIsProduct(i: nat, m: nat)
    ensures Offset(i, m) == i * m
  {
    if i > 0 {
      OffsetIsProduct(i - 1, m);
      assert i * m == (i - 1) * m + m;
    }
  }

  /** The cells of the rows before row `n` come before row `n`. */
  lemma {:induction false} OffsetBound(i: nat, j: nat, n: nat, m: nat)
    requires i < n && j < m
    ensures Offset(i, m) + j < Offset(n, m)
  {
    if i < n - 1 {
      OffsetBound(i, j, n - 1, m);
    }
  }

  /** The sub-tasks of initiateNewTransfer: connection-major, ids from `next` on. */
  function CrossProduct(connectionIds: seq<int>, items: seq<SourceItem>, next: nat, now: nat): seq<SubTask>
    decreases |connectionIds|
  {
    if connectionIds == [] then []
    else
      var n := |connectionIds| - 1;
      CrossProduct(connectionIds[..n], items, next, now) + Row(connectionIds[n], items, next + Offset(n, |items|), now)
  }

  /** One sub-task per (connection, item) pair. */
  lemma {:induction false} CrossProductLength(connectionIds: seq<int>, items: seq<SourceItem>, next: nat, now: nat)
    ensures |CrossProduct(connectionIds, items, next, now)| == Offset(|connectionIds|, |items|)
    ensures |CrossProduct(connectionIds, items, next, now)| == |connectionIds| * |items|
    decreases |connectionIds|
  {
    if connectionIds != [] {
      CrossProductLength(connectionIds[..|connectionIds| - 1], items, next, now);
    }
    OffsetIsProduct(|connectionIds|, |items|);
  }

  /**
   * Pair (i, j) of connection and item sits at index i * |items| + j and
   * takes the (i * |items| + j)-th id.
   */
  lemma {:induction false} CrossProductAt(connectionIds: seq<int>, items: seq<SourceItem>, next: nat, now: nat, i: nat, j: nat)
    requires i < |connectionIds| && j < |items|
    ensures Offset(i, |items|) == i * |items|
    ensures Offset(i, |items|) + j < |CrossProduct(connectionIds, items, next, now)|
    ensures CrossProduct(connectionIds, items, next, now)[Offset(i, |items|) + j]
      == NewSubTask(next + Offset(i, |items|) + j, connectionIds[i], items[j], now)
    decreases |connectionIds|
  {
    OffsetIsProduct(i, |items|);
    var n := |connectionIds| - 1;
    var m := |items|;
    var init := connectionIds[..n];
    CrossProductLength(init, items, next, now);
    var prefix := CrossProduct(init, items, next, now);
    var row := Row(connectionIds[n], items, next + Offset(n, m), now);
    assert CrossProduct(connectionIds, items, next, now) == prefix + row;
    var k := Offset(i, m) + j;
    if i < n {
      OffsetBound(i, j, n, m);
      CrossProductAt(init, items, next, now, i, j);
      assert init[i] == connectionIds[i];
      assert (prefix + row)[k] == prefix[k];
    } else {
      assert (prefix + row)[k] == row[j];
    }
  }

  /** Every sub-task of a new transfer is queued, without progress, message or end time. */
  lemma {:induction false} CrossProductFresh(connectionIds: seq<int>, items: seq<SourceItem>, next: nat, now: nat)
    ensures forall st | st in CrossProduct(connectionIds, items, next, now) ::
      st.status == Queued && st.progress.None? && st.message.None? && st.endTime.None? && st.startTime == now
    decreases |connectionIds|
  {
    if connectionIds != [] {
      CrossProductFresh(connectionIds[..|connectionIds| - 1], items, next, now);
    }
  }

  /** Sub-task k of a new transfer takes the k-th id from `next` on. */
  lemma {:induction false} CrossProductIdAt(connectionIds: seq<int>, items: seq<SourceItem>, next: nat, now: nat, k: nat)
    requires k < |CrossProduct(connectionIds, items, next, now)|
    ensures CrossProduct(connectionIds, items, next, now)[k].subTaskId == TransferId(next + k)
    decreases |connectionIds|
  {
    var n := |connectionIds| - 1;
    var init := connectionIds[..n];
    CrossProductLength(init, items, next, now);
    var prefix := CrossProduct(init, items, next, now);
    var row := Row(connectionIds[n], items, next + Offset(n, |items|), now);
    assert CrossProduct(connectionIds, items, next, now) == prefix + row;
    if k < |prefix| {
      CrossProductIdAt(init, items, next, now, k);
      assert (prefix + row)[k] == prefix[k];
    } else {
      assert (prefix + row)[k] == row[k - |prefix|];
    }
  }

  /**
   * The ids of a new transfer drawn from `counter` on: the task's first,
   * then its sub-tasks' in order, all distinct and all handed out before the
   * counter's new value.
   */
  lemma NewTransferIds(connectionIds: seq<int>, items: seq<SourceItem>, counter: nat, now: nat)
    ensures var subTasks := CrossProduct(connectionIds, items, counter + 1, now);
      var next := counter + 1 + |connectionIds| * |items|;
      && IssuedBefore(TransferId(counter), next)
      && (forall k | 0 <= k < |subTasks| :: IssuedBefore(subTasks[k].subTaskId, next))
      && (forall k | 0 <= k < |subTasks| :: subTasks[k].subTaskId != TransferId(counter))
      && (forall a, b | 0 <= a < b < |subTasks| :: subTasks[a].subTaskId != subTasks[b].subTaskId)
  {
    var subTasks := CrossProduct(connectionIds, items, counter + 1, now);
    var next := counter + 1 + |connectionIds| * |items|;
    CrossProductLength(connectionIds, items, counter + 1, now);
    IdIssuedBefore(counter, next);
    forall k | 0 <= k < |subTasks|
      ensures IssuedBefore(subTasks[k].subTaskId, next) && subTasks[k].subTaskId != TransferId(counter)
    {
      CrossProductIdAt(connectionIds, items, counter + 1, now, k);
      IdIssuedBefore(counter + 1 + k, next);
      TransferIdInjective(counter + 1 + k, counter);
    }
    forall a, b | 0 <= a < b < |subTasks| ensures subTasks[a].subTaskId != subTasks[b].subTaskId {
      CrossProductIdAt(connectionIds, items, counter + 1, now, a);
      CrossProductIdAt(connectionIds, items, counter + 1, now, b);
      TransferIdInjective(counter + 1 + a, counter + 1 + b);
    }
  }

  /** `Math.min(100, Math.max(0, progress))`. */
  function Clamp(progress: int): (r: int)
    ensures 0 <= r <= 100
    ensures 0 <= progress <= 100 ==> r == progress
    ensures progress < 0 ==> r == 0
    ensures progress > 100 ==> r == 100
  {
    if progress < 0 then 0 else if progress > 100 then 100 else progress
  }

  predicate ProgressInRange(p: Option<int>)
  {
    p.None? || 0 <= p.value <= 100
  }

  /**
   * The accepted update of one sub-task (transfers.service.ts:566-571): the
   * new status, the clamped progress and the message if given, and the end
   * time on the first entry into a final status.
   */
  function ApplyUpdate(st: SubTask, newStatus: SubStatus, progress: Option<int>, message: Option<string>, now: nat): (r: SubTask)
    ensures r.status == newStatus
    ensures ProgressInRange(st.progress) ==> ProgressInRange(r.progress)
    ensures progress.Some? ==> r.progress == Some(Clamp(progress.value))
    ensures progress.None? ==> r.progress == st.progress
    ensures r.message == if message.Some? then message else st.message
    ensures st.endTime.Some? ==> r.endTime == st.endTime
    ensures st.endTime.None? ==> r.endTime == if newStatus.IsFinal() then Some(now) else None
    ensures r.subTaskId == st.subTaskId && r.connectionId == st.connectionId
    ensures r.sourceItemName == st.sourceItemName && r.startTime == st.startTime
  {
    st.(status := newStatus,
        progress := if progress.Some? then Some(Clamp(progress.value)) else st.progress,
        message := if message.Some? then message else st.message,
        endTime := if newStatus.IsFinal() && st.endTime.None? then Some(now) else st.endTime)
  }

  /** `subTasks.find(st => st.subTaskId === id)`: the first match. */
  function FindSubTask(subTasks: seq<SubTask>, id: string): (r: Option<nat>)
    ensures r.Some? ==> r.value < |subTasks| && subTasks[r.value].subTaskId == id
    ensures r.Some? ==> forall k :: 0 <= k < r.value ==> subTasks[k].subTaskId != id
    ensures r.None? ==> forall k :: 0 <= k < |subTasks| ==> subTasks[k].subTaskId != id
    decreases |subTasks|
  {
    if subTasks == [] then None
    else if subTasks[0].subTaskId == id then Some(0)
    else
      var r := FindSubTask(subTasks[1..], id);
      if r.None? then None else Some(r.value + 1)
  }

  // ---------------------------------------------------------- aggregation

  /** How many sub-tasks are in one of the given states. */
  function Count(subTasks: seq<SubTask>, states: set<SubStatus>): nat
    decreases |subTasks|
  {
    if subTasks == [] then 0
    else
      var n := |subTasks| - 1;
      Count(subTasks[..n], states) + (if subTasks[n].status in states then 1 else 0)
  }

  /** A sub-task's share of the total progress (transfers.service.ts:627-645). */
  function Contribution(st: SubTask): int
  {
    match st.status
    case Completed => 100
    case Failed => 0
    case Transferring => st.progress.UnwrapOr(0)
    case Connecting => st.progress.UnwrapOr(5)
    case Queued => 0
  }

  function Total(subTasks: seq<SubTask>): int
    decreases |subTasks|
  {
    if subTasks == [] then 0
    else
      var n := |subTasks| - 1;
      Total(subTasks[..n]) + Contribution(subTasks[n])
  }

  const ACTIVE: set<SubStatus> := {Transferring, Connecting}

  /** The counters of the forEach loop at transfers.service.ts:625-646. */
  datatype Tally = Tally(completed: nat, failed: nat, inProgress: nat, queued: nat, totalProgress: int)

  function TallyOf(subTasks: seq<SubTask>): Tally
  {
    Tally(Count(subTasks, {Completed}), Count(subTasks, {Failed}), Count(subTasks, ACTIVE),
      Count(subTasks, {Queued}), Total(subTasks))
  }

  /** One pass of the forEach body: the sub-task counted by its status. */
  function Counted(t: Tally, st: SubTask): Tally
  {
    match st.status
    case Completed => t.(completed := t.completed + 1, totalProgress := t.totalProgress + 100)
    case Failed => t.(failed := t.failed + 1)
    case Transferring => t.(inProgress := t.inProgress + 1, totalProgress := t.totalProgress + st.progress.UnwrapOr(0))
    case Connecting => t.(inProgress := t.inProgress + 1, totalProgress := t.totalProgress + st.progress.UnwrapOr(5))
    case Queued => t.(queued := t.queued + 1)
  }

  /** Counting one more sub-task is one more pass of the loop body. */
  lemma TallyOfSnoc(subTasks: seq<SubTask>, i: nat)
    requires i < |subTasks|
    ensures TallyOf(subTasks[..i + 1]) == Counted(TallyOf(subTasks[..i]), subTasks[i])
  {
    assert subTasks[..i + 1][..i] == subTasks[..i];
  }

  /** `Math.round(total / n)`: the nearest integer, halves rounded up. */
  function RoundDiv(total: int, n: nat): (r: int)
    requires n > 0
    ensures n * (2 * r - 1) <= 2 * total < n * (2 * r + 1)
  {
    (2 * total + n) / (2 * n)
  }

  /** The status chain of transfers.service.ts:649-669, the fallback branch included. */
  function AggregateStatus(t: Tally, n: nat): TaskStatus
  {
    if t.failed == n then TaskFailed
    else if t.completed == n then TaskCompleted
    else if t.failed > 0 && t.completed + t.failed == n then PartiallyCompleted
    else if t.inProgress > 0 || (t.queued > 0 && (t.failed > 0 || t.completed > 0)) then InProgress
    else if t.queued == n then TaskQueued
    else if t.completed > 0 && t.queued > 0 && t.failed == 0 && t.inProgress == 0 then PartiallyCompleted
    else InProgress
  }

  lemma {:induction false} CountSplit(subTasks: seq<SubTask>, a: set<SubStatus>, b: set<SubStatus>)
    requires a !! b
    ensures Count(subTasks, a + b) == Count(subTasks, a) + Count(subTasks, b)
    decreases |subTasks|
  {
    if subTasks != [] {
      CountSplit(subTasks[..|subTasks| - 1], a, b);
    }
  }

  /** Every sub-task is counted exactly once. */
  lemma {:induction false} TallyPartition(subTasks: seq<SubTask>)
    ensures var t := TallyOf(subTasks);
      t.completed + t.failed + t.inProgress + t.queued == |subTasks|
    decreases |subTasks|
  {
    if subTasks != [] {
      TallyPartition(subTasks[..|subTasks| - 1]);
    }
  }

  /** A count reaches the length exactly when every sub-task is in the given states. */
  lemma {:induction false} CountAll(subTasks: seq<SubTask>, states: set<SubStatus>)
    ensures Count(subTasks, states) <= |subTasks|
    ensures Count(subTasks, states) == |subTasks| <==> forall k :: 0 <= k < |subTasks| ==> subTasks[k].status in states
    decreases |subTasks|
  {
    if subTasks != [] {
      var n := |subTasks| - 1;
      CountAll(subTasks[..n], states);
      assert forall k :: 0 <= k < n ==> subTasks[..n][k] == subTasks[k];
    }
  }

  /** A count is positive exactly when some sub-task is in the given states. */
  lemma {:induction false} CountPositive(subTasks: seq<SubTask>, states: set<SubStatus>)
    ensures Count(subTasks, states) > 0 <==> exists k :: 0 <= k < |subTasks| && subTasks[k].status in states
    decreases |subTasks|
  {
    if subTasks != [] {
      var n := |subTasks| - 1;
      CountPositive(subTasks[..n], states);
      if Count(subTasks[..n], states) > 0 {
        var k :| 0 <= k < n && subTasks[..n][k].status in states;
        assert subTasks[k].status in states;
      }
      if exists k :: 0 <= k < |subTasks| && subTasks[k].status in states {
        var k :| 0 <= k < |subTasks| && subTasks[k].status in states;
        if k < n {
          assert subTasks[..n][k].status in states;
        }
      }
    }
  }

  /** What the counters of a tally say about the sub-tasks. */
  lemma TallyFacts(subTasks: seq<SubTask>)
    ensures var t := TallyOf(subTasks);
      && t.completed + t.failed + t.inProgress + t.queued == |subTasks|
      && (t.failed == |subTasks| <==> forall k :: 0 <= k < |subTasks| ==> subTasks[k].status == Failed)
      && (t.completed == |subTasks| <==> forall k :: 0 <= k < |subTasks| ==> subTasks[k].status == Completed)
      && (t.queued == |subTasks| <==> forall k :: 0 <= k < |subTasks| ==> subTasks[k].status == Queued)
      && (t.completed + t.failed == |subTasks| <==> forall k :: 0 <= k < |subTasks| ==> subTasks[k].status.IsFinal())
      && (t.failed > 0 <==> exists k :: 0 <= k < |subTasks| && subTasks[k].status == Failed)
      && (t.completed > 0 <==> exists k :: 0 <= k < |subTasks| && subTasks[k].status == Completed)
  {
    TallyPartition(subTasks);
    CountAll(subTasks, {Failed});
    CountAll(subTasks, {Completed});
    CountAll(subTasks, {Queued});
    CountPositive(subTasks, {Failed});
    CountPositive(subTasks, {Completed});
    CountSplit(subTasks, {Completed}, {Failed});
    assert {Completed} + {Failed} == {Completed, Failed};
    CountAll(subTasks, {Completed, Failed});
  }

  /**
   * What the aggregated status means for a non-empty task: failed when every
   * sub-task failed, completed when every one completed, partially
   * completed when all are final with at least one failure and one
   * success, queued when every one is queued, and in progress otherwise.
   * So the fallback branch at transfers.service.ts:659-668, which would
   * call a task with queued and completed sub-tasks partially completed,
   * is never taken.
   */
  lemma AggregateStatusMeaning(subTasks: seq<SubTask>)
    requires |subTasks| > 0
    ensures var s := AggregateStatus(TallyOf(subTasks), |subTasks|);
      && (s == TaskFailed <==> forall k :: 0 <= k < |subTasks| ==> subTasks[k].status == Failed)
      && (s == TaskCompleted <==> forall k :: 0 <= k < |subTasks| ==> subTasks[k].status == Completed)
      && (s == PartiallyCompleted <==>
            && (forall k :: 0 <= k < |subTasks| ==> subTasks[k].status.IsFinal())
            && (exists k :: 0 <= k < |subTasks| && subTasks[k].status == Failed)
            && (exists k :: 0 <= k < |subTasks| && subTasks[k].status == Completed))
      && (s == TaskQueued <==> forall k :: 0 <= k < |subTasks| ==> subTasks[k].status == Queued)
      && (s == InProgress <==>
            && (exists k :: 0 <= k < |subTasks| && !subTasks[k].status.IsFinal())
            && (exists k :: 0 <= k < |subTasks| && subTasks[k].status != Queued))
  {
    TallyFacts(subTasks);
    var n := |subTasks|;
    var t := TallyOf(subTasks);
    var s := AggregateStatus(t, n);
    if t.completed + t.failed != n {
      var k :| 0 <= k < n && !subTasks[k].status.IsFinal();
    }
    if t.queued != n {
      var k :| 0 <= k < n && subTasks[k].status != Queued;
    }
    if t.queued == n {
      assert subTasks[0].status == Queued;
    }
  }

  /** With every progress in [0, 100], the total is between 0 and 100 per sub-task. */
  lemma {:induction false} TotalBounds(subTasks: seq<SubTask>)
    requires forall k :: 0 <= k < |subTasks| ==> ProgressInRange(subTasks[k].progress)
    ensures 0 <= Total(subTasks) <= 100 * |subTasks|
    decreases |subTasks|
  {
    if subTasks != [] {
      var n := |subTasks| - 1;
      assert forall k :: 0 <= k < n ==> subTasks[..n][k] == subTasks[k];
      TotalBounds(subTasks[..n]);
    }
  }

  /** The aggregated progress is a percentage. */
  lemma MulMono(n: nat, a: int, b: int)
    requires a <= b
    ensures n * a <= n * b
  {
    assert n * b - n * a == n * (b - a);
  }

  lemma OverallProgressInRange(subTasks: seq<SubTask>)
    requires |subTasks| > 0
    requires forall k :: 0 <= k < |subTasks| ==> ProgressInRange(subTasks[k].progress)
    ensures 0 <= RoundDiv(Total(subTasks), |subTasks|) <= 100
  {
    TotalBounds(subTasks);
    var n := |subTasks|;
    var total := Total(subTasks);
    var r := RoundDiv(total, n);
    if r > 100 {
      MulMono(n, 201, 2 * r - 1);
    }
    if r < 0 {
      MulMono(n, 2 * r + 1, -1);
    }
  }

  /** A final status is never replaced by a transient one (transfers.service.ts:586-594). */
  function Guarded(current: TaskStatus, proposed: TaskStatus): (r: TaskStatus)
    ensures current.IsFinal() ==> r.IsFinal()
    ensures !(current.IsFinal() && proposed.IsTransient()) ==> r == proposed
  {
    if current.IsFinal() && proposed.IsTransient() then current else proposed
  }

  /**
   * updateOverallTaskStatusBasedOnSubTasks as written (transfers.service.ts:607-676):
   * the aggregated status is stored as it is, whatever the transfer task's status was.
   */
  function RecomputedAsWritten(task: TransferTask, now: nat): TransferTask
  {
    var n := |task.subTasks|;
    if n == 0 then task.(overallProgress := Some(0))
    else
      var t := TallyOf(task.subTasks);
      task.(overallProgress := Some(RoundDiv(t.totalProgress, n)), status := AggregateStatus(t, n), updatedAt := now)
  }

  /**
   * A task that the major-error path marks failed while its sub-tasks are
   * still queued (transfers.service.ts:157) is put back to queued by the
   * finalization that follows (transfers.service.ts:163).
   */
  lemma FinalizeRevertsFailedTask()
    ensures var sub := NewSubTask(1, 7, SourceItem("a", "/a", false), 0);
      var task := TransferTask(TransferId(0), TaskFailed, 1, 0, 0, [sub], None,
        TransferPayload([7], [SourceItem("a", "/a", false)], "/tmp", Auto));
      RecomputedAsWritten(task, 1).status == TaskQueued
  {
    var sub := NewSubTask(1, 7, SourceItem("a", "/a", false), 0);
    assert [sub][..0] == [];
  }

  /**
   * The aggregation as the model uses it: the same progress and status, the
   * status passing through the guard of updateOverallTaskStatus, so a task
   * that reached a final status keeps one.
   */
  function Recomputed(task: TransferTask, now: nat): (r: TransferTask)
    ensures task.status.IsFinal() ==> r.status.IsFinal()
    ensures r.overallProgress == RecomputedAsWritten(task, now).overallProgress
    ensures !task.status.IsFinal() ==> r == RecomputedAsWritten(task, now)
    ensures r.subTasks == task.subTasks && r.taskId == task.taskId && r.userId == task.userId
  {
    var n := |task.subTasks|;
    if n == 0 then task.(overallProgress := Some(0))
    else
      var t := TallyOf(task.subTasks);
      task.(overallProgress := Some(RoundDiv(t.totalProgress, n)), status := Guarded(task.status, AggregateStatus(t, n)), updatedAt := now)
  }

  /**
   * Every stored progress, the transfer task's and its sub-tasks', is a
   * percentage, and no two sub-tasks share an id.
   */
  ghost predicate TaskValid(task: TransferTask)
  {
    && ProgressInRange(task.overallProgress)
    && (forall k :: 0 <= k < |task.subTasks| ==> ProgressInRange(task.subTasks[k].progress))
    && forall a, b | 0 <= a < b < |task.subTasks| :: task.subTasks[a].subTaskId != task.subTasks[b].subTaskId
  }

  lemma RecomputedValid(task: TransferTask, now: nat)
    requires TaskValid(task)
    ensures TaskValid(Recomputed(task, now))
  {
    if |task.subTasks| > 0 {
      OverallProgressInRange(task.subTasks);
    }
  }

  /** The tasks of one user, in insertion order. */
  function OwnedBy(tasks: seq<TransferTask>, userId: int): (r: seq<TransferTask>)
    ensures forall t :: t in r <==> t in tasks && t.userId == userId
    ensures |r| <= |tasks|
    decreases |tasks|
  {
    if tasks == [] then []
    else (if tasks[0].userId == userId then [tasks[0]] else []) + OwnedBy(tasks[1..], userId)
  }

  /**
   * The filter keeps the order of the tasks: filtering two lists joined is
   * joining their filters, so a task that comes first in the input comes
   * first in the result.
   */
  lemma {:induction false} OwnedByAppend(a: seq<TransferTask>, b: seq<TransferTask>, userId: int)
    ensures OwnedBy(a + b, userId) == OwnedBy(a, userId) + OwnedBy(b, userId)
    decreases |a|
  {
    if a == [] {
      assert a + b == b;
    } else {
      OwnedByAppend(a[1..], b, userId);
      assert (a + b)[1..] == a[1..] + b;
    }
  }

  /**
   * The part of updateSubTaskStatus (transfers.service.ts:557-572) before
   * the re-aggregation: `None` when the sub-task is unknown or is final and
   * asked to take a transient status; otherwise the transfer task with the first
   * sub-task of that id updated and the update time set.
   */
  function SubTaskUpdate(task: TransferTask, subTaskId: string, newStatus: SubStatus,
                         progress: Option<int>, message: Option<string>, now: nat): Option<TransferTask>
  {
    var k := FindSubTask(task.subTasks, subTaskId);
    if k.None? then None
    else
      var st := task.subTasks[k.value];
      if st.status.IsFinal() && !newStatus.IsFinal() then None
      else Some(task.(subTasks := task.subTasks[k.value := ApplyUpdate(st, newStatus, progress, message, now)], updatedAt := now))
  }

  /**
   * An update is refused exactly when no sub-task has the id or the first
   * one with it is final and the new status is not; an accepted update
   * changes that sub-task alone, gives it the new status, and never takes a
   * final sub-task out of its final state.
   */
  lemma SubTaskUpdateMeaning(task: TransferTask, subTaskId: string, newStatus: SubStatus,
                             progress: Option<int>, message: Option<string>, now: nat)
    ensures var r := SubTaskUpdate(task, subTaskId, newStatus, progress, message, now);
      && (r.None? <==> (forall i :: 0 <= i < |task.subTasks| ==> task.subTasks[i].subTaskId != subTaskId)
                       || (exists k :: 0 <= k < |task.subTasks| && task.subTasks[k].subTaskId == subTaskId
                             && (forall i :: 0 <= i < k ==> task.subTasks[i].subTaskId != subTaskId)
                             && task.subTasks[k].status.IsFinal() && !newStatus.IsFinal()))
      && (r.Some? ==>
            && |r.value.subTasks| == |task.subTasks| && r.value.status == task.status && r.value.updatedAt == now
            && (forall i :: 0 <= i < |task.subTasks| && task.subTasks[i].subTaskId != subTaskId ==>
                  r.value.subTasks[i] == task.subTasks[i])
            && (exists k :: 0 <= k < |task.subTasks| && task.subTasks[k].subTaskId == subTaskId
                  && r.value.subTasks[k].status == newStatus)
            && (forall i :: 0 <= i < |task.subTasks| && task.subTasks[i].status.IsFinal() ==>
                  r.value.subTasks[i].status.IsFinal()))
  {
    var k := FindSubTask(task.subTasks, subTaskId);
    if k.Some? {
      var j := k.value;
      if task.subTasks[j].status.IsFinal() && !newStatus.IsFinal() {
        assert 0 <= j < |task.subTasks| && task.subTasks[j].subTaskId == subTaskId
          && (forall i :: 0 <= i < j ==> task.subTasks[i].subTaskId != subTaskId)
          && task.subTasks[j].status.IsFinal() && !newStatus.IsFinal();
      }
    }
  }

  lemma SubTaskUpdateValid(task: TransferTask, subTaskId: string, newStatus: SubStatus,
                           progress: Option<int>, message: Option<string>, now: nat)
    requires TaskValid(task)
    ensures var r := SubTaskUpdate(task, subTaskId, newStatus, progress, message, now);
      r.Some? ==>
        && TaskValid(r.value)
        && r.value.taskId == task.taskId && |r.value.subTasks| == |task.subTasks|
        && forall k | 0 <= k < |task.subTasks| :: r.value.subTasks[k].subTaskId == task.subTasks[k].subTaskId
  {
  }

  /**
   * The nested loops of initiateNewTransfer (transfers.service.ts:26-37):
   * for each connection, for each item, a new queued sub-task.
   */
  method BuildSubTasks(conns: seq<int>, items: seq<SourceItem>, first: nat, now: nat) returns (subTasks: seq<SubTask>)
    ensures subTasks == CrossProduct(conns, items, first, now)
  {
    var m := |items|;
    subTasks := [];
    var id := first;
    var i := 0;
    while i < |conns|
      invariant 0 <= i <= |conns|
      invariant id == first + Offset(i, m)
      invariant subTasks == CrossProduct(conns[..i], items, first, now)
    {
      var j := 0;
      while j < m
        invariant 0 <= j <= m
        invariant id == first + Offset(i, m) + j
        invariant subTasks == CrossProduct(conns[..i], items, first, now) + Row(conns[i], items[..j], first + Offset(i, m), now)
      {
        RowSnoc(conns[i], items, j, first + Offset(i, m), now);
        subTasks := subTasks + [NewSubTask(id, conns[i], items[j], now)];
        id := id + 1;
        j := j + 1;
      }
      assert items[..m] == items;
      assert conns[..i + 1][..i] == conns[..i];
      i := i + 1;
    }
    assert conns[..|conns|] == conns;
  }

  /** The forEach loop of transfers.service.ts:625-646: the counters over all sub-tasks. */
  method CountSubTasks(subTasks: seq<SubTask>) returns (tally: Tally)
    ensures tally == TallyOf(subTasks)
  {
    var n := |subTasks|;
    var completed, failed, inProgress, queued, total := 0, 0, 0, 0, 0;
    var i := 0;
    while i < n
      invariant 0 <= i <= n
      invariant Tally(completed, failed, inProgress, queued, total) == TallyOf(subTasks[..i])
    {
      var st := subTasks[i];
      TallyOfSnoc(subTasks, i);
      match st.status {
        case Completed =>
          completed := completed + 1;
          total := total + 100;
        case Failed =>
          failed := failed + 1;
        case Transferring =>
          inProgress := inProgress + 1;
          total := total + st.progress.UnwrapOr(0);
        case Connecting =>
          inProgress := inProgress + 1;
          total := total + st.progress.UnwrapOr(5);
        case Queued =>
          queued := queued + 1;
      }
      i := i + 1;
    }
    assert subTasks[..n] == subTasks;
    tally := Tally(completed, failed, inProgress, queued, total);
  }

  // -------------------------------------------------------------- service

  class TransfersService {
    var tasks: OMap<string, TransferTask>
    var idCounter: nat

    /**
     * Every task sits under its own id, keeps its progress values in range
     * and its sub-task ids distinct, and holds only ids the generator has
     * already handed out.
     */
    ghost predicate Valid()
      reads this
    {
      && tasks.Valid()
      && forall id | id in tasks.entries ::
           && tasks.entries[id].taskId == id
           && TaskValid(tasks.entries[id])
           && IdsIssuedBefore(tasks.entries[id], idCounter)
    }

    constructor ()
      ensures Valid() && tasks == EmptyMap() && idCounter == 0
    {
      tasks := EmptyMap();
      idCounter := 0;
    }

    /**
     * initiateNewTransfer (transfers.service.ts:20-58): one queued sub-task
     * per (connection, item), connection-major, under a new queued task.
     * processTransferTask then runs synchronously up to its first await,
     * which puts the stored task in progress (transfers.service.ts:85-90)
     * before the copy is returned.
     */
    method InitiateNewTransfer(payload: TransferPayload, userId: int, now: nat) returns (task: TransferTask)
      requires Valid()
      modifies this
      ensures Valid()
      ensures task.taskId == TransferId(old(idCounter)) && task.status == InProgress && task.userId == userId
      ensures task.createdAt == now && task.updatedAt == now && task.overallProgress.None? && task.payload == payload
      ensures task.subTasks == CrossProduct(payload.connectionIds, payload.sourceItems, old(idCounter) + 1, now)
      ensures idCounter == old(idCounter) + 1 + |payload.connectionIds| * |payload.sourceItems|
      ensures tasks == old(tasks).Put(task.taskId, task)
      ensures task.taskId !in old(tasks.entries)
      ensures forall id, k | id in old(tasks.entries) && 0 <= k < |old(tasks.entries[id]).subTasks| ::
        old(tasks.entries[id]).subTasks[k].subTaskId != task.taskId
      ensures forall k | 0 <= k < |task.subTasks| :: task.subTasks[k].subTaskId != task.taskId
      ensures forall a, b | 0 <= a < b < |task.subTasks| :: task.subTasks[a].subTaskId != task.subTasks[b].subTaskId
    {
      var taskId := TransferId(idCounter);
      var first := idCounter + 1;
      var conns := payload.connectionIds;
      var items := payload.sourceItems;
      var subTasks := BuildSubTasks(conns, items, first, now);
      CrossProductLength(conns, items, first, now);
      CrossProductFresh(conns, items, first, now);
      NewTransferIds(conns, items, idCounter, now);
      var queued := TransferTask(taskId, TaskQueued, userId, now, now, subTasks, None, payload);
      assert TaskValid(queued);
      var next := first + |conns| * |items|;
      StillIssuedBefore(idCounter, next);
      tasks := tasks.Put(taskId, queued);
      idCounter := next;
      UpdateOverallTaskStatus(taskId, InProgress, now);
      task := queued.(status := InProgress);
      old(tasks).PutPut(taskId, queued, task);
    }

    /** Ids handed out before the counter stay so as the counter grows. */
    lemma StillIssuedBefore(counter: nat, next: nat)
      requires Valid() && counter == idCounter && counter <= next
      ensures forall id | id in tasks.entries :: IdsIssuedBefore(tasks.entries[id], next)
      ensures TransferId(counter) !in tasks.entries
      ensures forall id, k | id in tasks.entries && 0 <= k < |tasks.entries[id].subTasks| ::
        tasks.entries[id].subTasks[k].subTaskId != TransferId(counter)
    {
      forall id | id in tasks.entries ensures TransferId(counter) != id {
        assert IssuedBefore(tasks.entries[id].taskId, counter);
      }
    }

    /**
     * updateSubTaskStatus (transfers.service.ts:549-581): an unknown task or
     * sub-task, or a final sub-task asked to take a transient status, leaves
     * everything as it was; otherwise the first sub-task with the id takes
     * the update and the transfer task is re-aggregated.
     */
    method UpdateSubTaskStatus(taskId: string, subTaskId: string, newStatus: SubStatus,
                               progress: Option<int>, message: Option<string>, now: nat)
      requires Valid()
      modifies this`tasks
      ensures Valid()
      ensures var task := old(tasks).Get(taskId);
        var r := if task.Some? then SubTaskUpdate(task.value, subTaskId, newStatus, progress, message, now) else None;
        tasks == if r.None? then old(tasks) else old(tasks).Put(taskId, Recomputed(r.value, now))
      ensures forall id | id in old(tasks.entries) && old(tasks.entries[id]).status.IsFinal() ::
        id in tasks.entries && tasks.entries[id].status.IsFinal()
    {
      var task := tasks.Get(taskId);
      if task.None? {
        return;
      }
      var updated := SubTaskUpdate(task.value, subTaskId, newStatus, progress, message, now);
      if updated.None? {
        return;
      }
      SubTaskUpdateValid(task.value, subTaskId, newStatus, progress, message, now);
      tasks := tasks.Put(taskId, updated.value);
      UpdateOverallTaskStatusBasedOnSubTasks(taskId, now);
      old(tasks).PutPut(taskId, updated.value, Recomputed(updated.value, now));
    }

    /**
     * updateOverallTaskStatus (transfers.service.ts:583-605): a final status
     * is never replaced by a transient one.
     */
    method UpdateOverallTaskStatus(taskId: string, newStatus: TaskStatus, now: nat)
      requires Valid()
      modifies this`tasks
      ensures Valid()
      ensures taskId !in old(tasks.entries) ==> tasks == old(tasks)
      ensures taskId in old(tasks.entries) ==>
        var task := old(tasks.entries[taskId]);
        tasks == if task.status.IsFinal() && newStatus.IsTransient() then old(tasks)
                 else old(tasks).Put(taskId, task.(status := newStatus, updatedAt := now))
      ensures forall id | id in old(tasks.entries) && old(tasks.entries[id]).status.IsFinal() ::
        id in tasks.entries && tasks.entries[id].status.IsFinal()
    {
      var task := tasks.Get(taskId);
      if task.None? {
        return;
      }
      var t := task.value;
      if t.status.IsFinal() && newStatus.IsTransient() {
        return;
      }
      assert TaskValid(t);
      tasks := tasks.Put(taskId, t.(status := newStatus, updatedAt := now));
    }

    /**
     * updateOverallTaskStatusBasedOnSubTasks (transfers.service.ts:607-676),
     * with the status passing through the guard: the counting loop, then
     * the rounded average and the status chain.
     */
    method UpdateOverallTaskStatusBasedOnSubTasks(taskId: string, now: nat)
      requires Valid()
      modifies this`tasks
      ensures Valid()
      ensures taskId !in old(tasks.entries) ==> tasks == old(tasks)
      ensures taskId in old(tasks.entries) ==> tasks == old(tasks).Put(taskId, Recomputed(old(tasks.entries[taskId]), now))
      ensures forall id | id in old(tasks.entries) && old(tasks.entries[id]).status.IsFinal() ::
        id in tasks.entries && tasks.entries[id].status.IsFinal()
    {
      var task := tasks.Get(taskId);
      if task.None? {
        return;
      }
      var t := task.value;
      assert TaskValid(t);
      RecomputedValid(t, now);
      var n := |t.subTasks|;
      if n == 0 {
        tasks := tasks.Put(taskId, t.(overallProgress := Some(0)));
        return;
      }
      var tally := CountSubTasks(t.subTasks);
      var status := Guarded(t.status, AggregateStatus(tally, n));
      var updated := t.(overallProgress := Some(RoundDiv(tally.totalProgress, n)), status := status, updatedAt := now);
      tasks := tasks.Put(taskId, updated);
    }

    /** finalizeOverallTaskStatus (transfers.service.ts:678-683): one more aggregation. */
    method FinalizeOverallTaskStatus(taskId: string, now: nat)
      requires Valid()
      modifies this`tasks
      ensures Valid()
      ensures taskId !in old(tasks.entries) ==> tasks == old(tasks)
      ensures taskId in old(tasks.entries) ==> tasks == old(tasks).Put(taskId, Recomputed(old(tasks.entries[taskId]), now))
    {
      UpdateOverallTaskStatusBasedOnSubTasks(taskId, now);
    }

    /**
     * The path processTransferTask takes after its first await when it
     * fails before any sub-task is attempted (transfers.service.ts:155-164),
     * say because the source connection cannot be reached: failed, then
     * finalized. The in-progress step before that await belongs to
     * InitiateNewTransfer. The transfer task ends in a final status.
     */
    method AbortTask(taskId: string, now: nat)
      requires Valid()
      modifies this`tasks
      ensures Valid()
      ensures taskId in old(tasks.entries) ==> taskId in tasks.entries && tasks.entries[taskId].status.IsFinal()
      ensures taskId !in old(tasks.entries) ==> tasks == old(tasks)
    {
      UpdateOverallTaskStatus(taskId, TaskFailed, now);
      FinalizeOverallTaskStatus(taskId, now);
    }

    /** getTransferTaskDetails (transfers.service.ts:529-540): only the owner sees a task. */
    function GetTransferTaskDetails(taskId: string, userId: int): (r: Option<TransferTask>)
      reads this
      ensures r.Some? <==> taskId in tasks.entries && tasks.entries[taskId].userId == userId
      ensures r.Some? ==> r.value == tasks.entries[taskId]
    {
      if taskId in tasks.entries && tasks.entries[taskId].userId == userId then Some(tasks.entries[taskId]) else None
    }

    /** getAllTransferTasks (transfers.service.ts:542-547): the user's tasks, in insertion order. */
    function GetAllTransferTasks(userId: int): (r: seq<TransferTask>)
      reads this
      requires Valid()
      ensures forall t :: t in r <==> (exists id | id in tasks.entries :: tasks.entries[id] == t) && t.userId == userId
      ensures r == OwnedBy(tasks.Values(), userId)
    {
      var values := tasks.Values();
      assert forall t :: t in values <==> exists id | id in tasks.entries :: tasks.entries[id] == t by {
        forall t | t in values ensures exists id | id in tasks.entries :: tasks.entries[id] == t {
          var i :| 0 <= i < |values| && values[i] == t;
          assert tasks.entries[tasks.keys[i]] == t;
        }
        forall t | exists id | id in tasks.entries :: tasks.entries[id] == t ensures t in values {
          var id :| id in tasks.entries && tasks.entries[id] == t;
          var i :| 0 <= i < |tasks.keys| && tasks.keys[i] == id;
          assert values[i] == t;
        }
      }
      OwnedBy(values, userId)
    }
  }

  // ----------------------------------------------------- command line

  /** A truthy optional string: present and non-empty. */
  predicate Truthy(s: Option<string>)
  {
    s.Some? && s.value != ""
  }

  datatype CommandOptions = CommandOptions(
    sshPassCommand: Option<string>,
    sshIdentityFileOption: Option<string>,
    targetUserAndHost: string,
    sshPortOption: Option<string>)

  datatype TransferCommand = UseScp | UseRsync

  /** `targetPathOnB` with a trailing '/'. */
  function RemoteBase(targetPath: string): (r: string)
    ensures EndsWith(r, "/")
    ensures EndsWith(targetPath, "/") ==> r == targetPath
    ensures !EndsWith(targetPath, "/") ==> r == targetPath + "/"
  {
    if EndsWith(targetPath, "/") then targetPath
    else
      assert (targetPath + "/")[|targetPath|..] == "/";
      targetPath + "/"
  }

  const SSH_NO_HOST_CHECK := "-o StrictHostKeyChecking=no -o UserKnownHostsFile=/dev/null"

  /** The source argument rsync gets: a directory's quoted path ends with '/' inside the quotes. */
  function RsyncSource(path: string, isDir: bool): string
  {
    var quoted := EscapeShellArg(path);
    if isDir && !EndsWith(quoted, "/'") then quoted[..|quoted| - 1] + "/'" else quoted
  }

  /** The pieces of buildTransferCommandString (transfers.service.ts:269-321), in order. */
  function CommandParts(sourcePath: string, isDir: bool, targetPath: string, cmd: TransferCommand,
                        options: CommandOptions): seq<string>
  {
    var dest := options.targetUserAndHost + ":" + EscapeShellArg(RemoteBase(targetPath));
    var pass := if Truthy(options.sshPassCommand) then [options.sshPassCommand.value] else [];
    match cmd
    case UseRsync =>
      var ssh0 := "ssh " + SSH_NO_HOST_CHECK;
      var ssh1 := if Truthy(options.sshPortOption) && StartsWith(options.sshPortOption.value, "-p")
        then ssh0 + " " + options.sshPortOption.value else ssh0;
      var ssh2 := if Truthy(options.sshIdentityFileOption) then ssh1 + " " + options.sshIdentityFileOption.value else ssh1;
      pass + ["rsync -avz --progress", "-e \"" + Trim(ssh2) + "\"", RsyncSource(sourcePath, isDir), dest]
    case UseScp =>
      pass + ["scp " + SSH_NO_HOST_CHECK]
      + (if isDir then ["-r"] else [])
      + (if Truthy(options.sshPortOption) && StartsWith(options.sshPortOption.value, "-P") then [options.sshPortOption.value] else [])
      + (if Truthy(options.sshIdentityFileOption) then [options.sshIdentityFileOption.value] else [])
      + [EscapeShellArg(sourcePath), dest]
  }

  function BuildTransferCommandString(sourcePath: string, isDir: bool, targetPath: string, cmd: TransferCommand,
                                      options: CommandOptions): string
  {
    Join(CommandParts(sourcePath, isDir, targetPath, cmd, options), " ")
  }

  /** Every command ends with the destination `user@host:'<target>/'`, after at least the program. */
  lemma CommandEndsWithDestination(sourcePath: string, isDir: bool, targetPath: string, cmd: TransferCommand,
                                   options: CommandOptions)
    ensures var parts := CommandParts(sourcePath, isDir, targetPath, cmd, options);
      |parts| >= 2 && parts[|parts| - 1] == options.targetUserAndHost + ":" + EscapeShellArg(RemoteBase(targetPath))
  {
  }

  /** The destination is read by the shell as the target directory with a trailing '/'. */
  lemma DestinationIsDirectory(targetPath: string)
    ensures ReadWord(EscapeShellArg(RemoteBase(targetPath))) == Some(RemoteBase(targetPath))
    ensures EndsWith(RemoteBase(targetPath), "/")
  {
    EscapeShellArgRoundTrip(RemoteBase(targetPath));
  }

  /** scp copies directories recursively: `-r` follows the scp command itself. */
  lemma ScpDirectoryIsRecursive(sourcePath: string, targetPath: string, options: CommandOptions)
    ensures var parts := CommandParts(sourcePath, true, targetPath, UseScp, options);
      var at := if Truthy(options.sshPassCommand) then 2 else 1;
      at < |parts| && parts[at] == "-r"
  {
  }

  /**
   * rsync gets a directory as its contents: the shell reads the source as
   * the path with a trailing '/'. A file's source reads as the path itself.
   */
  lemma RsyncSourceReads(path: string, isDir: bool)
    ensures ReadWord(RsyncSource(path, isDir)) ==
      Some(if isDir && !EndsWith(path, "/") then path + "/" else path)
  {
    var quoted := EscapeShellArg(path);
    EscapeShellArgRoundTrip(path);
    QuoteBodyEndsWithSlash(path);
    var body := QuoteBody(path);
    assert quoted == "'" + body + "'";
    assert EndsWith(quoted, "/'") <==> EndsWith(body, "/") by {
      if |body| >= 1 {
        assert quoted[|quoted| - 2..] == [body[|body| - 1], '\''];
      } else {
        assert quoted == "''";
      }
    }
    if isDir && !EndsWith(quoted, "/'") {
      assert quoted[..|quoted| - 1] + "/'" == "'" + body + "/" + "'";
      EscapeWithSuffixReads(path, "/");
    }
  }
}
