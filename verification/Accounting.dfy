/** What becomes of every POST: it is stored as an attempt row, or it was made by a worker that then failed to
    commit. */
module Accounting {
  import opened Status
  import opened Tables
  import opened Outbox
  import opened Processor
  import opened Lifecycle
  import opened Protocol
  import opened ProtocolSafety
  import opened History
  import opened WorkerTraces

  /** The step POSTs for the delivery and stores no attempt row: the commit aborts, or the worker dies before it. */
  predicate WastesPost(h: Hub, s: Step, id: DeliveryId) {
    && (s.WorkerProcess? || s.WorkerCrashBeforeCommit?) && CanProcess(h, s.env)
    && h.logs[h.worker.task.part][h.worker.task.offset].delivery == id
    && var v := VerdictOn(h, s.env);
       !v.Skipped? && v.posted && (s.WorkerCrashBeforeCommit? || v.Aborted?)
  }

  /** How many of the first `i` steps did. */
  function Wasted(run: seq<Hub>, steps: seq<Step>, i: nat, id: DeliveryId): nat
    requires i <= |steps| && i <= |run|
  {
    if i == 0 then 0 else Wasted(run, steps, i - 1, id) + if WastesPost(run[i - 1], steps[i - 1], id) then 1 else 0
  }

  function AttemptRows(t: Tables, id: DeliveryId): nat {
    if id in t.attempts then |t.attempts[id]| else 0
  }

  /** The worker's transaction makes at most one POST, for the delivery in hand. */
  lemma TransactionPosts(h: Hub, env: Environment, id: DeliveryId)
    requires HubOk(h) && CanProcess(h, env)
    ensures var x, v := h.logs[h.worker.task.part][h.worker.task.offset].delivery, VerdictOn(h, env);
      Count(ProcessStep(h, env).posts, id) == Count(h.posts, id) + if x == id && !v.Skipped? && v.posted then 1 else 0
  {
    var x := h.logs[h.worker.task.part][h.worker.task.offset].delivery;
    assert (h.posts + [x])[..|h.posts|] == h.posts;
    assert h.posts + [] == h.posts;
  }

  lemma TransactionStores(h: Hub, env: Environment, id: DeliveryId)
    requires HubOk(h) && CanProcess(h, env)
    ensures var x, v := h.logs[h.worker.task.part][h.worker.task.offset].delivery, VerdictOn(h, env);
      AttemptRows(ProcessStep(h, env).tables, id)
        == AttemptRows(h.tables, id) + if x == id && v.Committed? && v.posted then 1 else 0
  {
    var x := h.logs[h.worker.task.part][h.worker.task.offset].delivery;
    if VerdictOn(h, env).Committed? {
      CommitMakesProgress(h.tables, x, h.settings, env);
      if x != id && id in h.tables.deliveries {
        ProcessTouches(h.tables, x, h.settings, env, id);
      } else if x != id {
        var u := ProcessShape(h.tables, x, h.settings, env);
      }
    }
  }

  lemma OtherStepsStoreNothing(h: Hub, s: Step, id: DeliveryId)
    requires HubOk(h) && Enabled(h, s) && !s.WorkerProcess?
    ensures AttemptRows(Apply(h, s).tables, id) == AttemptRows(h.tables, id)
  {
    match s
    case Enqueue(news) => PersistAddsExactly(h.tables, news, Ids(news));
    case _ =>
  }

  /** Each step's POSTs are the attempt rows it stores and the POST it wastes. */
  lemma StepBalance(h: Hub, s: Step, id: DeliveryId)
    requires HubOk(h) && Enabled(h, s)
    ensures Count(Apply(h, s).posts, id) - Count(h.posts, id)
         == AttemptRows(Apply(h, s).tables, id) - AttemptRows(h.tables, id) + if WastesPost(h, s, id) then 1 else 0
  {
    if s.WorkerProcess? {
      TransactionPosts(h, s.env, id);
      TransactionStores(h, s.env, id);
    } else {
      OtherStepsStoreNothing(h, s, id);
      if s.WorkerCrashBeforeCommit? {
        TransactionPosts(h, s.env, id);
      }
    }
  }

  lemma RunBalance(run: seq<Hub>, steps: seq<Step>, i: nat, id: DeliveryId)
    requires IsRun(run, steps) && i < |steps|
    ensures Count(run[i + 1].posts, id) - Count(run[i].posts, id)
         == AttemptRows(run[i + 1].tables, id) - AttemptRows(run[i].tables, id)
            + if WastesPost(run[i], steps[i], id) then 1 else 0
  {
    RunStep(run, steps, i);
    StepBalance(run[i], steps[i], id);
  }

  ghost predicate Balanced(run: seq<Hub>, steps: seq<Step>, id: DeliveryId) {
    && |run| == |steps| + 1
    && forall i {:trigger WastesPost(run[i], steps[i], id)} :: 0 <= i < |steps| ==>
         Count(run[i + 1].posts, id) - Count(run[i].posts, id)
           == AttemptRows(run[i + 1].tables, id) - AttemptRows(run[i].tables, id)
              + if WastesPost(run[i], steps[i], id) then 1 else 0
  }

  lemma RunIsBalanced(run: seq<Hub>, steps: seq<Step>, id: DeliveryId)
    requires IsRun(run, steps)
    ensures Balanced(run, steps, id)
  {
    forall i | 0 <= i < |steps|
      ensures Count(run[i + 1].posts, id) - Count(run[i].posts, id)
           == AttemptRows(run[i + 1].tables, id) - AttemptRows(run[i].tables, id)
              + if WastesPost(run[i], steps[i], id) then 1 else 0
    {
      RunBalance(run, steps, i, id);
    }
  }

  lemma {:induction false} BalancedSum(run: seq<Hub>, steps: seq<Step>, i: nat, id: DeliveryId)
    requires Balanced(run, steps, id) && i < |run|
    requires Count(run[0].posts, id) == AttemptRows(run[0].tables, id)
    ensures Count(run[i].posts, id) == AttemptRows(run[i].tables, id) + Wasted(run, steps, i, id)
  {
    if i > 0 {
      BalancedSum(run, steps, i - 1, id);
      assert WastesPost(run[i - 1], steps[i - 1], id) || !WastesPost(run[i - 1], steps[i - 1], id);
    }
  }

  /** On every run the POSTs a delivery has had are its attempt rows and the wasted ones. */
  lemma PostsAccounted(run: seq<Hub>, steps: seq<Step>, i: nat, id: DeliveryId)
    requires IsRun(run, steps) && i < |run|
    ensures Count(run[i].posts, id) == AttemptRows(run[i].tables, id) + Wasted(run, steps, i, id)
  {
    RunIsBalanced(run, steps, id);
    BalancedSum(run, steps, i, id);
  }

  /** So a partner sees a delivery at most as often as its attempt limit allows, once more if a replay delivered it,
      and once for each abort or crash between POST and commit. */
  lemma PostsBounded(run: seq<Hub>, steps: seq<Step>, i: nat, id: DeliveryId)
    requires IsRun(run, steps) && i < |run| && id in run[i].tables.deliveries
    ensures var d := run[i].tables.deliveries[id];
      Count(run[i].posts, id) <= AttemptLimit(d) + Wasted(run, steps, i, id)
                                 + (if d.status == DELIVERED then Replayed(run[i].tables, id) else 0)
  {
    PostsAccounted(run, steps, i, id);
    CommittedStatesOk(run, steps, i, id);
  }
}
