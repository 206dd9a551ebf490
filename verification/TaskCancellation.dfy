/** The user's way of ending a task (backend/app/services/task_service.py, `cancel_task`). */
module TaskCancellation {
  import opened RouterSchema
  import opened TaskStore
  import opened EpisodeService

  datatype Cancellation = Done | AlreadyCancelled | Conflict

  /** A cancelled task runs no workers. */
  function CancelledTask(t: TaskState): TaskState {
    t.(status := Cancelled, phase := TaskPhase.Completed, activeJobs := [], limits := t.limits.(activeParallel := 0))
  }

  function CancelledNow(a: Snapshot): Snapshot {
    a.(task := CancelledTask(a.task),
       writes := a.writes + [Write(CancelledTask(a.task), |a.events|)],
       events := a.events + [TaskEnded(Cancelled)])
  }

  lemma {:induction false} CancellingKeepsConsistent(a: Snapshot)
    requires Consistent(a) && !Terminal(a.task.status)
    ensures Consistent(CancelledNow(a)) && EndedByUser(CancelledNow(a))
  {
    var b := CancelledNow(a);
    assert b.events[..|a.events|] == a.events;
    assert b.writes[|a.writes|] == Write(b.task, |a.events|);
  }

  class TaskService {
    const store: Store

    constructor (store: Store)
      ensures this.store == store
    {
      this.store := store;
    }

    /** A task that has not ended is ended for good; one that ended otherwise is left as it is. */
    method CancelTask() returns (outcome: Cancellation)
      modifies store
      ensures outcome == if !Terminal(old(store.task.status)) then Done
                         else if old(store.task.status) == Cancelled then AlreadyCancelled else Conflict
      ensures store.Now() == if outcome == Done then CancelledNow(old(store.Now())) else old(store.Now())
      ensures old(Consistent(store.Now())) ==> Consistent(store.Now())
    {
      if store.task.status == Cancelled {
        return AlreadyCancelled;
      }
      if Terminal(store.task.status) {
        return Conflict;
      }
      ghost var start := store.Now();
      store.Update(CancelledTask(store.task));
      store.Append(TaskEnded(Cancelled));
      if Consistent(start) {
        CancellingKeepsConsistent(start);
      }
      return Done;
    }
  }

  /** A user and the agent taking turns on one task. */
  datatype Move = Episode(plan: EpisodePlan) | Cancel

  /**
   * Whatever the order of episodes and cancellations, the task ends at most once, and never successfully
   * with an open blocker.
   */
  method TakeTurns(agent: MainAgentService, user: TaskService, moves: seq<Move>)
    requires agent.Wired() && user.store == agent.TheStore() && Consistent(user.store.Now())
    modifies user.store
    ensures Consistent(user.store.Now()) && Ends(user.store.events) <= 1 && NoFalseSuccess(user.store.task)
    ensures old(user.store.events) <= user.store.events
    ensures Terminal(old(user.store.task.status)) ==> user.store.Now() == old(user.store.Now())
  {
    for k := 0 to |moves|
      invariant Consistent(user.store.Now()) && old(user.store.events) <= user.store.events
      invariant Terminal(old(user.store.task.status)) ==> user.store.Now() == old(user.store.Now())
    {
      match moves[k] {
        case Episode(plan) =>
          var outcome, account := agent.RunEpisode(plan);
        case Cancel =>
          var outcome := user.CancelTask();
      }
    }
    ConsistentMeansAtMostOneEnd(user.store.Now());
  }
}
