/** What every step of an episode keeps, as a relation between two moments of the store. */
module RunInvariants {
  import opened RouterSchema
  import opened TaskStore

  /** The events that may appear before a run is over. */
  predicate Tame(e: Event) { !e.TaskEnded? && !e.AgentCompleted? }

  ghost predicate TameEvents(events: seq<Event>) {
    forall k :: 0 <= k < |events| ==> Tame(events[k])
  }

  ghost predicate QuietExtension(a: seq<Event>, b: seq<Event>) {
    a <= b && TameEvents(b[|a|..])
  }

  /** The events of a step inside a call: it neither ends the run nor reports a result. */
  predicate Silent(e: Event) { Tame(e) && !e.ToolResulted? }

  ghost predicate SilentExtension(a: seq<Event>, b: seq<Event>) {
    a <= b && forall k :: |a| <= k < |b| ==> Silent(b[k])
  }

  /** The results the public log reports, in order. */
  function Reports(events: seq<Event>): seq<Event> {
    if events == [] then []
    else
      var last := events[|events| - 1];
      Reports(events[..|events| - 1]) + (if last.ToolResulted? then [last] else [])
  }

  lemma {:induction false} ReportsNext(events: seq<Event>, e: Event)
    ensures Reports(events + [e]) == Reports(events) + (if e.ToolResulted? then [e] else [])
  {
    assert (events + [e])[..|events|] == events;
  }

  lemma {:induction false} SilenceReportsNothing(a: seq<Event>, b: seq<Event>)
    requires SilentExtension(a, b)
    ensures Reports(b) == Reports(a) && QuietExtension(a, b)
    decreases |b|
  {
    if a != b {
      var n := |b| - 1;
      assert a <= b[..n];
      SilenceReportsNothing(a, b[..n]);
      assert b == b[..n] + [b[n]] && Silent(b[n]);
    }
  }

  /** A record some step may write: sound, never newly terminal, at most one worker more than before. */
  ghost predicate Permitted(a: TaskState, w: TaskState) {
    && Sound(w)
    && (Terminal(w.status) ==> w.status == a.status)
    && w.latestRun == a.latestRun
    && w.limits.activeParallel <= a.limits.activeParallel + 1
    && a.limits.callsUsed <= w.limits.callsUsed
    && w.limits.maxParallel == a.limits.maxParallel && w.limits.maxCalls == a.limits.maxCalls
    && a.files.roles.Keys <= w.files.roles.Keys
  }

  ghost predicate AllPermitted(a: TaskState, writes: seq<Write>) {
    forall k :: 0 <= k < |writes| ==> Permitted(a, writes[k].task)
  }

  ghost predicate WritesPermitted(a: TaskState, before: seq<Write>, now: seq<Write>) {
    before <= now && AllPermitted(a, now[|before|..])
  }

  /**
   * The public log and the job history only grow, nothing ends the task, every record written on the
   * way is permitted, and the active workers are as before.
   */
  ghost predicate Advances(a: Snapshot, b: Snapshot) {
    && QuietExtension(a.events, b.events)
    && WritesPermitted(a.task, a.writes, b.writes)
    && Permitted(a.task, b.task)
    && b.task.limits.activeParallel == a.task.limits.activeParallel
    && b.task.activeJobs == a.task.activeJobs
    && a.jobs <= b.jobs
  }

  lemma {:induction false} AdvancesIsTransitive(a: Snapshot, b: Snapshot, c: Snapshot)
    requires Advances(a, b) && Advances(b, c)
    ensures Advances(a, c)
  {
  }

  lemma {:induction false} NoWrite(a: Snapshot, quiet: seq<Event>)
    requires Sound(a.task) && TameEvents(quiet)
    ensures Advances(a, a.(events := a.events + quiet))
  {
  }

  lemma {:induction false} WriteAnother(a: TaskState, before: seq<Write>, now: seq<Write>, w: Write)
    requires WritesPermitted(a, before, now) && Permitted(a, w.task)
    ensures WritesPermitted(a, before, now + [w])
  {
  }

  lemma {:induction false} JoinWrites(a: TaskState, before: seq<Write>, mid: seq<Write>, now: seq<Write>)
    requires WritesPermitted(a, before, mid) && WritesPermitted(a, mid, now)
    ensures WritesPermitted(a, before, now)
  {
  }

  lemma {:induction false} OneEvent(a: Snapshot, e: Event)
    requires Sound(a.task) && Tame(e)
    ensures Advances(a, a.(events := a.events + [e]))
  {
  }
}
