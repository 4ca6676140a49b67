/**
 The scheduler's tables: jobs, the runs claimed for them, and the transactions
 that create, claim and finish them.
 */
module SchedulerStore {
  import opened Options
  import opened Cron
  import opened Schedules
  import opened JobRuns

  datatype JobState = Scheduled | Paused | JobCompleted | Withdrawn

  datatype Job = Job(
    schedule: Schedule, policy: Policy, grace: int, delivers: bool, state: JobState, nextRunAt: Option<int>)

  // One run per job and scheduled instant.
  datatype RunKey = RunKey(job: string, at: int)

  // A claim as it happened: what, and at which tick of the clock.
  datatype Claim = Claim(key: RunKey, tick: int)

  predicate GoodPolicy(policy: Policy) {
    policy.Bounded? ==> 1 <= policy.maxCatchup <= 10
  }

  predicate Due(job: Job, now: int) {
    job.state == Scheduled && job.nextRunAt.Some? && job.nextRunAt.value <= now
  }

  // The next run of a job is an occurrence of its schedule.
  predicate GoodJob(job: Job) {
    && GoodSchedule(job.schedule) && GoodPolicy(job.policy)
    && (job.state == Scheduled || job.state == Paused ==> job.nextRunAt.Some?)
    && (job.nextRunAt.Some? ==> Occurs(job.schedule, job.nextRunAt.value))
  }

  // All occurrences the policy keeps when a job is looked at.
  function DueTimes(job: Job, now: int): seq<int>
    requires GoodJob(job) && job.nextRunAt.Some?
  {
    Kept(job.policy, AllDue(job.schedule, job.nextRunAt.value, now), job.grace, now)
  }

  // The instants claimed for one job, in the order of the claims.
  function TimesOf(claims: seq<Claim>, job: string): seq<int> {
    if claims == [] then []
    else
      var rest, last := TimesOf(claims[..|claims| - 1], job), claims[|claims| - 1];
      if last.key.job == job then rest + [last.key.at] else rest
  }

  lemma {:induction false} TimesAppend(a: seq<Claim>, b: seq<Claim>, job: string)
    ensures TimesOf(a + b, job) == TimesOf(a, job) + TimesOf(b, job)
  {
    if b == [] {
      assert a + b == a;
    } else {
      var rest, last := b[..|b| - 1], b[|b| - 1];
      assert (a + b)[..|a + b| - 1] == a + rest && (a + b)[|a + b| - 1] == last;
      TimesAppend(a, rest, job);
    }
  }

  // --- the history of claims ---

  // No instant is claimed twice, and none before one already claimed.
  ghost predicate ClaimsInOrder(jobs: map<string, Job>, runs: map<RunKey, JobRun>, log: seq<Claim>) {
    && (forall a, b | 0 <= a < b < |log| :: log[a].key.job == log[b].key.job ==> log[a].key.at < log[b].key.at)
    && (forall c <- log :: c.key.at <= c.tick && c.key in runs)
    && (forall key <- runs :: key.job in jobs && (jobs[key.job].nextRunAt.Some? ==> key.at < jobs[key.job].nextRunAt.value))
  }

  // Every run is at an occurrence of the schedule of its job.
  ghost predicate RunsOccur(jobs: map<string, Job>, runs: map<RunKey, JobRun>) {
    forall key <- runs :: key.job in jobs && GoodSchedule(jobs[key.job].schedule) && Occurs(jobs[key.job].schedule, key.at)
  }

  // The runs after their job was cancelled.
  function CancelRuns(runs: map<RunKey, JobRun>, job: string): map<RunKey, JobRun> {
    map key <- runs :: if key.job == job then Next(runs[key], JobCancelled) else runs[key]
  }

  lemma CancelKeepsRows(runs: map<RunKey, JobRun>, job: string)
    requires forall key <- runs :: RowInv(runs[key])
    ensures forall key <- CancelRuns(runs, job) :: RowInv(CancelRuns(runs, job)[key])
    ensures CancelRuns(runs, job).Keys == runs.Keys
  {
    forall key <- runs ensures RowInv(Next(runs[key], JobCancelled)) { NextEvolves(runs[key], JobCancelled); }
  }

  // A run of a cancelled job, status by status.
  function Stopped(row: JobRun): JobRun {
    match (row.status, row.delivery)
    case (Claimed, _) => row.(cancelRequested := true)
    case (Running, _) => row.(cancelRequested := true)
    case (Succeeded, Pending) => row.(cancelRequested := true, delivery := Suppressed)
    case _ => row
  }

  lemma CancelStops(runs: map<RunKey, JobRun>, job: string)
    ensures CancelRuns(runs, job).Keys == runs.Keys
    ensures forall key <- runs :: CancelRuns(runs, job)[key] == if key.job == job then Stopped(runs[key]) else runs[key]
  {
  }

  function ClaimsFor(id: string, times: seq<int>, tick: int): seq<Claim> {
    seq(|times|, i requires 0 <= i < |times| => Claim(RunKey(id, times[i]), tick))
  }

  // The runs after inserting one row for each of the instants.
  ghost predicate Inserted(runs: map<RunKey, JobRun>, after: map<RunKey, JobRun>, id: string, times: seq<int>, row: JobRun) {
    && (forall key :: key in after <==> key in runs || (key.job == id && key.at in times))
    && (forall key <- after :: after[key] == if key in runs then runs[key] else row)
  }

  lemma {:induction false} TimesOfClaims(id: string, times: seq<int>, tick: int, job: string)
    ensures TimesOf(ClaimsFor(id, times, tick), job) == if job == id then times else []
  {
    if times != [] {
      var rest := times[..|times| - 1];
      TimesOfClaims(id, rest, tick, job);
      assert ClaimsFor(id, times, tick)[..|times| - 1] == ClaimsFor(id, rest, tick);
    }
  }

  lemma ClaimsStayOrdered(log: seq<Claim>, id: string, times: seq<int>, tick: int, first: int)
    requires forall a, b | 0 <= a < b < |log| :: log[a].key.job == log[b].key.job ==> log[a].key.at < log[b].key.at
    requires Sorted(times) && forall t <- times :: first <= t
    requires forall c <- log :: c.key.job == id ==> c.key.at < first
    ensures var longer := log + ClaimsFor(id, times, tick);
            forall a, b | 0 <= a < b < |longer| :: longer[a].key.job == longer[b].key.job ==> longer[a].key.at < longer[b].key.at
  {
    var longer := log + ClaimsFor(id, times, tick);
    forall a, b | 0 <= a < b < |longer| && longer[a].key.job == longer[b].key.job ensures longer[a].key.at < longer[b].key.at {
      if b >= |log| {
        assert longer[b].key == RunKey(id, times[b - |log|]) && times[b - |log|] in times;
        if a < |log| { assert log[a] in log; }
      }
    }
  }

  lemma ClaimsStayInOrder(jobs: map<string, Job>, runs: map<RunKey, JobRun>, log: seq<Claim>, id: string, times: seq<int>,
                          now: int, jobsAfter: map<string, Job>, runsAfter: map<RunKey, JobRun>, row: JobRun)
    requires ClaimsInOrder(jobs, runs, log) && id in jobs && jobs[id].nextRunAt.Some?
    requires Sorted(times) && forall t <- times :: jobs[id].nextRunAt.value <= t <= now
    requires Inserted(runs, runsAfter, id, times, row) && jobs[id].nextRunAt.value <= now
    requires id in jobsAfter && jobsAfter == jobs[id := jobsAfter[id]] && (jobsAfter[id].nextRunAt.Some? ==> jobsAfter[id].nextRunAt.value > now)
    ensures ClaimsInOrder(jobsAfter, runsAfter, log + ClaimsFor(id, times, now))
  {
    var claims := ClaimsFor(id, times, now);
    var longer := log + claims;
    ClaimsStayOrdered(log, id, times, now, jobs[id].nextRunAt.value);
    forall c <- longer ensures c.key.at <= c.tick && c.key in runsAfter {
      if c !in log {
        var i :| 0 <= i < |claims| && claims[i] == c;
        assert times[i] in times;
      }
    }
  }

  lemma SameRuns(jobs: map<string, Job>, runs: map<RunKey, JobRun>, after: map<RunKey, JobRun>, log: seq<Claim>)
    requires ClaimsInOrder(jobs, runs, log) && RunsOccur(jobs, runs) && after.Keys == runs.Keys
    ensures ClaimsInOrder(jobs, after, log) && RunsOccur(jobs, after)
  {
  }

  lemma NewRunsOccur(jobs: map<string, Job>, runs: map<RunKey, JobRun>, jobsAfter: map<string, Job>,
                     runsAfter: map<RunKey, JobRun>, id: string, times: seq<int>, row: JobRun)
    requires RunsOccur(jobs, runs) && Inserted(runs, runsAfter, id, times, row)
    requires id in jobs && id in jobsAfter && jobsAfter == jobs[id := jobsAfter[id]] && jobsAfter[id].schedule == jobs[id].schedule
    requires GoodSchedule(jobs[id].schedule) && forall t <- times :: Occurs(jobs[id].schedule, t)
    ensures RunsOccur(jobsAfter, runsAfter)
  {
  }

  lemma NewRowsAreGood(runs: map<RunKey, JobRun>, after: map<RunKey, JobRun>, id: string, times: seq<int>,
                       owner: string, expiry: int, delivers: bool)
    requires forall key <- runs :: RowInv(runs[key])
    requires Inserted(runs, after, id, times, NewRun(owner, expiry, delivers))
    ensures forall key <- after :: RowInv(after[key])
  {
  }

  // What was claimed for a job lies before its next run.
  lemma NothingAhead(jobs: map<string, Job>, runs: map<RunKey, JobRun>, log: seq<Claim>, id: string)
    requires ClaimsInOrder(jobs, runs, log) && id in jobs && jobs[id].nextRunAt.Some?
    ensures forall key <- runs :: key.job == id ==> key.at < jobs[id].nextRunAt.value
  {
  }

  // What a scheduler, its workers and its operators may ask of the store.
  datatype Call =
    | Create(id: string, schedule: Schedule, policy: Policy, grace: int, delivers: bool, now: int)
    | Pause(id: string)
    | Resume(id: string)
    | Withdraw(id: string)
    | Tick(now: int, owner: string, lease: int, batch: int, startupCap: Option<int>)
    | OnRun(key: RunKey, op: RunOp)
    | RecoverStale(now: int)

  predicate GoodCall(call: Call) {
    match call
    case Create(_, schedule, _, _, _, _) => GoodSchedule(schedule)
    case OnRun(_, op) => !op.Recover? && !op.JobCancelled?
    case _ => true
  }

  // A claim belongs to one of the ticks.
  ghost predicate TickOf(calls: seq<Call>, c: Claim) {
    exists call <- calls :: call.Tick? && call.now == c.tick
  }

  class Store {
    var jobs: map<string, Job>
    var runs: map<RunKey, JobRun>
    // Every claim since the store was created.
    ghost var log: seq<Claim>

    ghost predicate Valid()
      reads this
    {
      && (forall j <- jobs :: GoodJob(jobs[j]))
      && (forall key <- runs :: RowInv(runs[key]))
      && ClaimsInOrder(jobs, runs, log) && RunsOccur(jobs, runs)
    }

    constructor ()
      ensures Valid() && jobs == map[] && runs == map[] && log == []
    {
      jobs, runs, log := map[], map[], [];
    }

    // --- jobs ---

    method CreateJob(id: string, schedule: Schedule, policy: Policy, grace: int, delivers: bool, now: int)
      returns (error: Option<Error>)
      requires Valid() && GoodSchedule(schedule)
      modifies this
      ensures Valid() && runs == old(runs) && log == old(log)
      ensures error == if (policy.Bounded? && !(1 <= policy.maxCatchup <= 10)) || grace < 0 then Some(Validation)
                       else if schedule.CronSchedule? && NextIs(schedule.matches, now, None) then Some(NoOccurrence)
                       else if id == "" then Some(Validation)
                       else if id in old(jobs) then Some(Conflict) else None
      ensures error.Some? ==> jobs == old(jobs)
      ensures error.None? ==> exists next :: jobs == old(jobs)[id := Job(schedule, policy, grace, delivers, Scheduled, Some(next))]
                                                                && Occurs(schedule, next) && (schedule.Once? || next >= now)
    {
      if !GoodPolicy(policy) || grace < 0 { return Some(Validation); }
      var next := InitialRun(schedule, now);
      if next.None? { return Some(NoOccurrence); }
      if id == "" { return Some(Validation); }
      if id in jobs { return Some(Conflict); }
      jobs := jobs[id := Job(schedule, policy, grace, delivers, Scheduled, next)];
      return None;
    }

    method PauseJob(id: string) returns (error: Option<Error>)
      requires Valid()
      modifies `jobs
      ensures Valid()
      ensures if id in old(jobs) && old(jobs)[id].state == Scheduled then error.None? && jobs == old(jobs)[id := old(jobs)[id].(state := Paused)]
              else error == Some(if id in old(jobs) then Conflict else NotFound) && jobs == old(jobs)
    {
      if id !in jobs { return Some(NotFound); }
      if jobs[id].state != Scheduled { return Some(Conflict); }
      jobs := jobs[id := jobs[id].(state := Paused)];
      return None;
    }

    // A paused job keeps its next run, so nothing claimed before is claimed again;
    // the fallback for a job without one is never taken.
    method ResumeJob(id: string) returns (error: Option<Error>)
      requires Valid()
      modifies `jobs
      ensures Valid()
      ensures if id in old(jobs) && old(jobs)[id].state == Paused then error.None? && jobs == old(jobs)[id := old(jobs)[id].(state := Scheduled)]
              else error == Some(if id in old(jobs) then Conflict else NotFound) && jobs == old(jobs)
    {
      if id !in jobs { return Some(NotFound); }
      if jobs[id].state != Paused { return Some(Conflict); }
      assert jobs[id].nextRunAt.Some?;
      jobs := jobs[id := jobs[id].(state := Scheduled)];
      return None;
    }

    method CancelJob(id: string) returns (error: Option<Error>)
      requires Valid()
      modifies `jobs, `runs
      ensures Valid()
      ensures id !in old(jobs) ==> error == Some(NotFound) && jobs == old(jobs) && runs == old(runs)
      ensures id in old(jobs) ==>
                && error.None?
                && jobs == old(jobs)[id := old(jobs)[id].(state := if old(jobs)[id].state == JobCompleted then JobCompleted else Withdrawn)]
                && runs == if old(jobs)[id].state == Withdrawn then old(runs)
                           else CancelRuns(old(runs), id)
      // An active run of the job is asked to stop, a result not yet delivered is held
      // back, and no other run is touched.
      ensures id in old(jobs) && old(jobs)[id].state != Withdrawn ==>
                runs.Keys == old(runs).Keys && forall key <- runs ::
                  runs[key] == if key.job == id then Stopped(old(runs)[key]) else old(runs)[key]
    {
      if id !in jobs { return Some(NotFound); }
      if jobs[id].state == Withdrawn {
        assert jobs[id := jobs[id]] == jobs;
        return None;
      }
      if jobs[id].state != JobCompleted { jobs := jobs[id := jobs[id].(state := Withdrawn)]; }
      CancelKeepsRows(runs, id);
      CancelStops(runs, id);
      runs := CancelRuns(runs, id);
      return None;
    }

    // --- claiming ---

    /** Claim the due occurrences of one job, at most `available` of them: exactly
        the latest ones its policy keeps, none of them for the second time; and
        move the job to its next occurrence after now. */
    method ClaimJob(id: string, now: int, owner: string, lease: int, available: nat) returns (claimed: Option<seq<int>>)
      requires Valid() && id in jobs && Due(jobs[id], now) && available >= 1
      modifies this
      ensures claimed.None? ==> SearchFails(old(jobs)[id].schedule, now)
      ensures claimed.Some? ==>
                && Valid()
                && claimed.value == Last(DueTimes(old(jobs)[id], now), available)
                && (forall t <- claimed.value :: RunKey(id, t) !in old(runs))
                && Inserted(old(runs), runs, id, claimed.value, NewRun(owner, now + lease, old(jobs)[id].delivers))
                && log == old(log) + ClaimsFor(id, claimed.value, now)
                && id in jobs && jobs == old(jobs)[id := jobs[id]] && Advanced(old(jobs)[id], jobs[id], now)
    {
      hide ClaimsInOrder, RowInv, Inserted, RunsOccur;
      hide GoodSchedule, Occurs, DueTimes, Sorted;
      var job := jobs[id];
      var chosen := ChooseTimes(job, now, available);
      if chosen.None? { return None; }
      var times := chosen.value;
      var next := AdvanceAfterNow(job.schedule, now);
      if next.None? { return None; }
      NothingAhead(jobs, runs, log, id);
      var inserted := InsertRuns(id, times, job.nextRunAt.value, now, owner, lease, job.delivers);
      jobs := jobs[id := job.(nextRunAt := next.value, state := if next.value.None? then JobCompleted else Scheduled)];
      log := log + ClaimsFor(id, times, now);
      ClaimsStayInOrder(old(jobs), old(runs), old(log), id, times, now, jobs, runs, NewRun(owner, now + lease, job.delivers));
      NewRunsOccur(old(jobs), old(runs), jobs, runs, id, times, NewRun(owner, now + lease, job.delivers));
      NewRowsAreGood(old(runs), runs, id, times, owner, now + lease, job.delivers);
      return Some(inserted);
    }

    // The latest due instants that are still allowed.
    method ChooseTimes(job: Job, now: int, available: nat) returns (times: Option<seq<int>>)
      requires GoodJob(job) && Due(job, now)
      ensures times.None? ==> SearchFails(job.schedule, now)
      ensures times.Some? ==> times.value == Last(DueTimes(job, now), available)
                              && Sorted(times.value) && forall t <- times.value :: job.nextRunAt.value <= t <= now && Occurs(job.schedule, t)
    {
      hide Occurs, SearchFails, Sorted;
      var due := DueOccurrences(job.schedule, job.policy, job.grace, job.nextRunAt, now);
      if due.None? { return None; }
      LastInside(due.value, available);
      return Some(if |due.value| > available then due.value[|due.value| - available..] else due.value);
    }

    // Insert a run for each instant, ignoring those already present: there are none.
    method InsertRuns(id: string, times: seq<int>, ghost first: int, now: int, owner: string, lease: int, delivers: bool)
      returns (inserted: seq<int>)
      requires forall key <- runs :: key.job == id ==> key.at < first
      requires Sorted(times) && forall t <- times :: first <= t <= now
      modifies `runs
      ensures inserted == times && Inserted(old(runs), runs, id, times, NewRun(owner, now + lease, delivers))
      ensures forall t <- times :: RunKey(id, t) !in old(runs)
    {
      inserted := [];
      ghost var row := NewRun(owner, now + lease, delivers);
      for n := 0 to |times|
        invariant inserted == times[..n] && Inserted(old(runs), runs, id, times[..n], row)
      {
        var key := RunKey(id, times[n]);
        assert times[n] in times;
        assert times[..n + 1] == times[..n] + [times[n]];
        assert times[n] !in times[..n];
        if key !in runs {
          runs := runs[key := NewRun(owner, now + lease, delivers)];
          inserted := inserted + [times[n]];
        }
      }
      assert times[..|times|] == times;
    }

    /** One tick: claim what is due, job by job in any order, up to the batch size
        or the smaller startup cap.  Either every change of the tick happens or none. */
    method ClaimDueRuns(now: int, owner: string, lease: int, batch: int, startupCap: Option<int>)
      returns (error: Option<Error>, claimed: seq<RunKey>)
      requires Valid()
      modifies this
      ensures Valid()
      ensures error == Some(Validation) <==> owner == "" || lease <= 0 || TickLimit(batch, startupCap) < 1
      ensures error.Some? && error != Some(Validation) ==>
                error == Some(NoOccurrence) && exists id <- jobs :: Due(jobs[id], now) && SearchFails(jobs[id].schedule, now)
      ensures error.Some? ==> claimed == [] && jobs == old(jobs) && runs == old(runs) && log == old(log)
      ensures old(log) <= log && Keys(log[|old(log)|..]) == claimed && (error.None? ==> |claimed| <= TickLimit(batch, startupCap))
      ensures forall c <- log[|old(log)|..] :: c.tick == now && c.key !in old(runs)
      ensures Grown(old(jobs), old(runs), runs, claimed, owner, now + lease)
      ensures error.None? ==> jobs.Keys == old(jobs).Keys
      // Each due job has its latest occurrences claimed and moves on; only a full
      // tick drops its older ones or leaves the job for the next tick.
      ensures error.None? ==> forall id <- jobs ::
                TickOutcome(old(jobs)[id], jobs[id], TimesOf(log[|old(log)|..], id), now, |claimed| == TickLimit(batch, startupCap))
      // No job is left waiting for an instant up to now unless the tick is full, and none
      // that waits for a later one, or does not wait at all, is touched.
      ensures error.None? && |claimed| < TickLimit(batch, startupCap) ==>
                forall id <- jobs :: jobs[id].state == Scheduled ==> jobs[id].nextRunAt.Some? && jobs[id].nextRunAt.value > now
      ensures error.None? ==> forall id <- jobs ::
                old(jobs)[id].state != Scheduled || old(jobs)[id].nextRunAt.value > now ==> jobs[id] == old(jobs)[id]
    {
      if owner == "" || lease <= 0 || batch < 1 { return Some(Validation), []; }
      var limit := TickLimit(batch, startupCap);
      if limit < 1 { return Some(Validation), []; }
      hide ClaimsInOrder, RowInv, RunsOccur, TickState, TickOutcome, TimesOf, Advanced, DueTimes, GoodJob, Due, SearchFails, Grown;
      ghost var claims;
      error, claimed, claims := ClaimJobs(now, owner, lease, limit);
      assert log[|old(log)|..] == claims;
      NoneLeftDue(old(jobs), jobs, claims, now, |claimed| == limit);
    }

    // The loop of a tick; when a search finds nothing, the transaction is undone.
    method ClaimJobs(now: int, owner: string, lease: int, limit: nat)
      returns (error: Option<Error>, claimed: seq<RunKey>, ghost claims: seq<Claim>)
      requires Valid() && limit >= 1
      modifies this
      ensures Valid() && log == old(log) + claims && claimed == Keys(claims) && |claimed| <= limit && AllNew(claims, old(runs), now)
      ensures error.Some? ==> claims == [] && jobs == old(jobs) && runs == old(runs)
                              && error == Some(NoOccurrence) && exists id <- jobs :: Due(jobs[id], now) && SearchFails(jobs[id].schedule, now)
      ensures Grown(old(jobs), old(runs), runs, claimed, owner, now + lease)
      ensures error.None? ==> jobs.Keys == old(jobs).Keys && forall id <- jobs ::
                TickOutcome(old(jobs)[id], jobs[id], TimesOf(claims, id), now, |claimed| == limit)
    {
      hide ClaimsInOrder, RowInv, RunsOccur, TickState, TickOutcome, TimesOf, Advanced, DueTimes, GoodJob, Due, Keys, AllNew, SearchFails, Grown, Inserted;
      error, claimed, claims := None, [], [];
      var jobsBefore, runsBefore := jobs, runs;
      var todo := set id <- jobs | Due(jobs[id], now);
      TickStarts(jobs, runs, todo, now);
      NothingGrown(jobs, runs, owner, now + lease);
      while todo != {} && |claimed| < limit
        invariant Valid() && log == old(log) + claims && Keys(claims) == claimed && |claimed| <= limit
        invariant AllNew(claims, old(runs), now) && Grown(old(jobs), old(runs), runs, claimed, owner, now + lease)
        invariant TickState(old(jobs), jobs, claims, todo, now, |claimed| == limit)
        decreases |todo|
      {
        var id :| id in todo;
        ghost var jobs0, runs0, available := jobs, runs, limit - |claimed|;
        StillDue(old(jobs), jobs, claims, todo, id, now);
        var times := ClaimJob(id, now, owner, lease, limit - |claimed|);
        if times.None? {
          jobs, runs, log := jobsBefore, runsBefore, old(log);
          ghost var again := set j <- jobs | Due(jobs[j], now);
          TickStarts(jobs, runs, again, now);
          NothingGrown(jobs, runs, owner, now + lease);
          return Some(NoOccurrence), [], [];
        }
        TickContinues(old(jobs), jobs0, claims, todo, id, times.value, now, available, jobs);
        RunsGrow(old(jobs), old(runs), runs0, runs, claimed, id, times.value, owner, now + lease);
        ClaimsGrow(claims, old(runs), runs0, id, times.value, now);
        assert |times.value| <= available;
        todo := todo - {id};
        claimed := claimed + RunKeys(id, times.value);
        claims := claims + ClaimsFor(id, times.value, now);
      }
      TickEnds(old(jobs), jobs, claims, todo, now, |claimed| == limit);
    }

    // --- runs ---

    method MarkRunning(key: RunKey, owner: string, now: int) returns (error: Option<Error>)
      requires Valid()
      modifies `runs
      ensures Valid() && Performed(old(runs), key, JobRuns.MarkRunning(owner, now), error, runs)
    {
      if key !in runs { return Some(NotFound); }
      var row := runs[key];
      NextEvolves(row, JobRuns.MarkRunning(owner, now));
      if row.status != Claimed { return Some(Conflict); }
      if row.owner != Some(owner) { return Some(Ownership); }
      if row.expiresAt.None? || row.expiresAt.value <= now { return Some(Ownership); }
      if row.cancelRequested {
        runs := runs[key := row.(status := Cancelled, owner := None, expiresAt := None,
                                 delivery := if row.delivery == Pending then Suppressed else row.delivery)];
        return None;
      }
      runs := runs[key := row.(status := Running)];
      return None;
    }

    method Heartbeat(key: RunKey, owner: string, lease: int, now: int) returns (error: Option<Error>)
      requires Valid()
      modifies `runs
      ensures Valid() && Performed(old(runs), key, JobRuns.Heartbeat(owner, lease, now), error, runs)
    {
      if lease <= 0 { return Some(Validation); }
      if key !in runs { return Some(NotFound); }
      var row := runs[key];
      NextEvolves(row, JobRuns.Heartbeat(owner, lease, now));
      if !Active(row.status) { return Some(Conflict); }
      if row.owner != Some(owner) { return Some(Ownership); }
      if row.expiresAt.None? || row.expiresAt.value <= now { return Some(Ownership); }
      runs := runs[key := row.(expiresAt := Some(now + lease))];
      return None;
    }

    method RequestCancel(key: RunKey) returns (error: Option<Error>)
      requires Valid()
      modifies `runs
      ensures Valid() && Performed(old(runs), key, JobRuns.RequestCancel, error, runs)
    {
      if key !in runs { return Some(NotFound); }
      var row := runs[key];
      NextEvolves(row, JobRuns.RequestCancel);
      if row.status in {Failed, Interrupted, Cancelled} {
        assert runs[key := row] == runs;
        return None;
      }
      runs := runs[key := row.(cancelRequested := true,
                               delivery := if row.status == Succeeded && row.delivery == Pending then Suppressed else row.delivery)];
      return None;
    }

    method Cancel(key: RunKey, canceller: Option<string>) returns (error: Option<Error>)
      requires Valid()
      modifies `runs
      ensures Valid() && Performed(old(runs), key, JobRuns.Cancel(canceller), error, runs)
    {
      if key !in runs { return Some(NotFound); }
      var row := runs[key];
      NextEvolves(row, JobRuns.Cancel(canceller));
      if row.status in {Succeeded, Failed, Interrupted, Cancelled} {
        assert runs[key := row] == runs;
        return None;
      }
      if canceller.Some? && row.owner != canceller { return Some(Ownership); }
      runs := runs[key := row.(status := Cancelled, cancelRequested := true, owner := None, expiresAt := None,
                               delivery := if row.delivery == Pending then Suppressed else row.delivery)];
      return None;
    }

    method Complete(key: RunKey, owner: string, outcome: RunStatus, now: int) returns (error: Option<Error>)
      requires Valid()
      modifies `runs
      ensures Valid() && Performed(old(runs), key, JobRuns.Complete(owner, outcome, now), error, runs)
    {
      if outcome !in {Succeeded, Failed, Cancelled} { return Some(Validation); }
      if key !in runs { return Some(NotFound); }
      var row := runs[key];
      NextEvolves(row, JobRuns.Complete(owner, outcome, now));
      if row.status !in {Claimed, Running} { return Some(Conflict); }
      if row.owner != Some(owner) { return Some(Ownership); }
      if row.expiresAt.None? || row.expiresAt.value <= now { return Some(Ownership); }
      var effective := if row.cancelRequested then Cancelled else outcome;
      runs := runs[key := row.(status := effective, owner := None, expiresAt := None,
                               delivery := if effective == Cancelled && row.delivery == Pending then Suppressed else row.delivery)];
      return None;
    }

    method RecordDelivery(key: RunKey, result: Delivery) returns (error: Option<Error>)
      requires Valid()
      modifies `runs
      ensures Valid() && Performed(old(runs), key, JobRuns.RecordDelivery(result), error, runs)
    {
      if result !in {Delivered, DeliveryFailed, Suppressed} { return Some(Validation); }
      if key !in runs { return Some(NotFound); }
      var row := runs[key];
      NextEvolves(row, JobRuns.RecordDelivery(result));
      if row.status != Succeeded { return Some(Conflict); }
      if row.delivery != Pending {
        assert runs[key := row] == runs;
        return None;
      }
      runs := runs[key := row.(delivery := result)];
      return None;
    }

    method CreateRetry(key: RunKey, owner: string, lease: int, approved: bool, now: int) returns (error: Option<Error>)
      requires Valid()
      modifies `runs
      ensures Valid() && Performed(old(runs), key, JobRuns.Retry(owner, lease, approved, now), error, runs)
    {
      if !approved { return Some(Validation); }
      if lease <= 0 || owner == "" { return Some(Validation); }
      if key !in runs { return Some(NotFound); }
      var row := runs[key];
      NextEvolves(row, JobRuns.Retry(owner, lease, approved, now));
      if row.status !in {Failed, Interrupted, Cancelled} { return Some(Conflict); }
      runs := runs[key := row.(status := Claimed, attempt := row.attempt + 1, owner := Some(owner), expiresAt := Some(now + lease),
                               cancelRequested := false, delivery := if row.delivers then Pending else NotRequested)];
      return None;
    }

    /** Every active run whose lease has expired is interrupted, and no other row
        is touched. */
    method RecoverStaleRuns(now: int) returns (stale: set<RunKey>)
      requires Valid()
      modifies `runs
      ensures Valid() && runs.Keys == old(runs).Keys
      ensures forall key <- runs :: runs[key] == Next(old(runs)[key], Recover(now))
      ensures forall key <- runs :: key in stale <==> old(runs)[key].status != Interrupted && runs[key].status == Interrupted
    {
      hide ClaimsInOrder, RunsOccur, RowInv, GoodJob;
      stale := set key <- runs | Active(runs[key].status) && runs[key].expiresAt.Some? && runs[key].expiresAt.value <= now;
      forall key <- runs ensures RowInv(Next(runs[key], Recover(now))) { NextEvolves(runs[key], Recover(now)); }
      runs := map key <- runs :: if key in stale then runs[key].(status := Interrupted, owner := None, expiresAt := None) else runs[key];
      SameRuns(jobs, old(runs), runs, log);
    }

    // --- over whole runs ---

    method OnRun(key: RunKey, op: RunOp) returns (error: Option<Error>)
      requires Valid() && !op.Recover? && !op.JobCancelled?
      modifies `runs
      ensures Valid() && Performed(old(runs), key, op, error, runs)
    {
      match op
      case MarkRunning(owner, now) => error := MarkRunning(key, owner, now);
      case Heartbeat(owner, lease, now) => error := Heartbeat(key, owner, lease, now);
      case RequestCancel => error := RequestCancel(key);
      case Cancel(canceller) => error := Cancel(key, canceller);
      case Complete(owner, outcome, now) => error := Complete(key, owner, outcome, now);
      case RecordDelivery(result) => error := RecordDelivery(key, result);
      case Retry(owner, lease, approved, now) => error := CreateRetry(key, owner, lease, approved, now);
    }

    method Handle(call: Call)
      requires Valid() && GoodCall(call)
      modifies this
      ensures Valid() && old(runs).Keys <= runs.Keys
      ensures old(log) <= log && forall c <- log[|old(log)|..] :: call.Tick? && c.tick == call.now && c.key !in old(runs)
    {
      hide ClaimsInOrder, RowInv, RunsOccur, TickOutcome, TimesOf, GoodJob, Occurs, Apply, SearchFails;
      match call
      case Create(id, schedule, policy, grace, delivers, now) =>
        var _ := CreateJob(id, schedule, policy, grace, delivers, now);
      case Pause(id) => var _ := PauseJob(id);
      case Resume(id) => var _ := ResumeJob(id);
      case Withdraw(id) => var _ := CancelJob(id);
      case Tick(now, owner, lease, batch, startupCap) =>
        var _, _ := ClaimDueRuns(now, owner, lease, batch, startupCap);
      case OnRun(key, op) => var _ := OnRun(key, op);
      case RecoverStale(now) => var _ := RecoverStaleRuns(now);
    }

    /** Any calls in any order, whatever their clocks show: over all the ticks among
        them the instants claimed for a job strictly increase, so none is claimed
        twice; each is an occurrence of its schedule, belongs to one of the ticks,
        was due by then, and had no run before. */
    method Serve(calls: seq<Call>)
      requires Valid() && forall call <- calls :: GoodCall(call)
      modifies this
      ensures Valid() && old(log) <= log
      ensures forall job :: Sorted(TimesOf(log, job))
      ensures forall c <- log[|old(log)|..] ::
                && TickOf(calls, c) && c.key.at <= c.tick && c.key !in old(runs) && c.key in runs
                && c.key.job in jobs && Occurs(jobs[c.key.job].schedule, c.key.at)
    {
      hide Occurs, TimesOf, GoodJob, RowInv, GoodCall, Sorted;
      for n := 0 to |calls|
        invariant Valid() && old(log) <= log && old(runs).Keys <= runs.Keys
        invariant forall c <- log[|old(log)|..] :: TickOf(calls, c) && c.key !in old(runs)
      {
        ghost var log0 := log;
        Handle(calls[n]);
        NewOrOld(old(log), log0, log);
        assert calls[n] in calls;
      }
      forall job ensures Sorted(TimesOf(log, job)) { NoDuplicateFiring(this, job); }
    }
  }

  lemma NewOrOld<T>(start: seq<T>, before: seq<T>, after: seq<T>)
    requires start <= before <= after
    ensures start <= after && after[|start|..] == before[|start|..] + after[|before|..]
  {
  }

  // A call about one run: what it stores or why it is refused.
  predicate Performed(before: map<RunKey, JobRun>, key: RunKey, op: RunOp, error: Option<Error>, after: map<RunKey,
                      JobRun>) {
    if BadArguments(op) then error == Some(Validation) && after == before
    else if key !in before then error == Some(NotFound) && after == before
    else
      match Apply(before[key], op)
      case Stored(row) => error.None? && after == before[key := row]
      case Refused(e) => error == Some(e) && after == before
  }

  /** In a store that its own operations produced, no instant of a job was claimed
      twice: the instants claimed for it strictly increase, every one of them is an
      occurrence of its schedule and has its run, and none lay ahead of its tick. */
  lemma NoDuplicateFiring(store: Store, job: string)
    requires store.Valid()
    ensures Sorted(TimesOf(store.log, job)) && forall c <- store.log :: c.key.at <= c.tick
    ensures forall t <- TimesOf(store.log, job) ::
              RunKey(job, t) in store.runs && job in store.jobs && Occurs(store.jobs[job].schedule, t)
  {
    TimesSorted(store.log, job);
    forall t <- TimesOf(store.log, job)
      ensures RunKey(job, t) in store.runs && job in store.jobs && Occurs(store.jobs[job].schedule, t)
    {
      TimesAreClaimed(store.log, job, t);
    }
  }

  lemma {:induction false} TimesAreClaimed(log: seq<Claim>, job: string, t: int)
    requires t in TimesOf(log, job)
    ensures exists c :: c in log && c.key == RunKey(job, t)
  {
    var rest, last := log[..|log| - 1], log[|log| - 1];
    if last.key == RunKey(job, t) {
      assert last in log;
    } else {
      TimesAreClaimed(rest, job, t);
      var c :| c in rest && c.key == RunKey(job, t);
      assert c in log;
    }
  }

  lemma {:induction false} TimesSorted(log: seq<Claim>, job: string)
    requires forall a, b | 0 <= a < b < |log| :: log[a].key.job == log[b].key.job ==> log[a].key.at < log[b].key.at
    ensures Sorted(TimesOf(log, job))
  {
    if log != [] {
      var rest, last := log[..|log| - 1], log[|log| - 1];
      TimesSorted(rest, job);
      if last.key.job == job {
        var times := TimesOf(rest, job);
        forall i | 0 <= i < |times| ensures times[i] < last.key.at {
          assert times[i] in times;
          TimesAreClaimed(rest, job, times[i]);
        }
      }
    }
  }

  function RunKeys(id: string, times: seq<int>): seq<RunKey> {
    seq(|times|, i requires 0 <= i < |times| => RunKey(id, times[i]))
  }

  // Claims of one tick, none of them for a run that was there before.
  ghost predicate AllNew(claims: seq<Claim>, runs: map<RunKey, JobRun>, now: int) {
    forall c <- claims :: c.tick == now && c.key !in runs
  }

  // The runs after a claim: the earlier ones as they were, and one new run for
  // each claimed instant, leased to the owner.
  ghost predicate Grown(jobs: map<string, Job>, runs: map<RunKey, JobRun>, after: map<RunKey, JobRun>, claimed: seq<RunKey>,
                        owner: string, expiry: int) {
    && (forall key :: key in after <==> key in runs || key in claimed)
    && (forall key <- claimed :: key !in runs && key.job in jobs && after[key] == NewRun(owner, expiry, jobs[key.job].delivers))
    && (forall key <- runs :: after[key] == runs[key])
  }

  lemma NothingGrown(jobs: map<string, Job>, runs: map<RunKey, JobRun>, owner: string, expiry: int)
    ensures Grown(jobs, runs, runs, [], owner, expiry)
  {
  }

  lemma RunsGrow(jobs: map<string, Job>, runs: map<RunKey, JobRun>, middle: map<RunKey, JobRun>, after: map<RunKey, JobRun>,
                 claimed: seq<RunKey>, id: string, times: seq<int>, owner: string, expiry: int)
    requires Grown(jobs, runs, middle, claimed, owner, expiry) && id in jobs
    requires Inserted(middle, after, id, times, NewRun(owner, expiry, jobs[id].delivers))
    requires forall t <- times :: RunKey(id, t) !in middle
    ensures Grown(jobs, runs, after, claimed + RunKeys(id, times), owner, expiry)
    ensures runs.Keys <= middle.Keys
  {
    var more := RunKeys(id, times);
    forall key ensures key in more <==> key.job == id && key.at in times {
      if key.job == id && key.at in times {
        var i :| 0 <= i < |times| && times[i] == key.at;
        assert more[i] == key;
      }
    }
  }

  lemma ClaimsGrow(claims: seq<Claim>, runs: map<RunKey, JobRun>, middle: map<RunKey, JobRun>, id: string, times: seq<int>, tick: int)
    requires AllNew(claims, runs, tick) && runs.Keys <= middle.Keys && forall t <- times :: RunKey(id, t) !in middle
    ensures Keys(claims + ClaimsFor(id, times, tick)) == Keys(claims) + RunKeys(id, times)
    ensures AllNew(claims + ClaimsFor(id, times, tick), runs, tick)
  {
    forall c <- ClaimsFor(id, times, tick) ensures c.key !in runs { assert c.key.at in times; }
  }

  // The jobs in the middle of a tick: those in `todo` were not looked at yet.
  ghost predicate TickState(before: map<string, Job>, jobs: map<string, Job>, claims: seq<Claim>, todo: set<string>,
                            now: int, full: bool) {
    && jobs.Keys == before.Keys && todo <= before.Keys && (forall id <- before :: GoodJob(before[id]))
    && forall id <- before ::
         if id in todo then Due(before[id], now) && jobs[id] == before[id] && TimesOf(claims, id) == []
         else TickOutcome(before[id], jobs[id], TimesOf(claims, id), now, full)
  }

  lemma TickStarts(jobs: map<string, Job>, runs: map<RunKey, JobRun>, todo: set<string>, now: int)
    requires (forall id <- jobs :: GoodJob(jobs[id])) && todo == set id <- jobs | Due(jobs[id], now)
    ensures TickState(jobs, jobs, [], todo, now, false) && Keys([]) == [] && AllNew([], runs, now)
  {
  }

  lemma StillDue(before: map<string, Job>, jobs: map<string, Job>, claims: seq<Claim>, todo: set<string>, id: string,
                 now: int)
    requires TickState(before, jobs, claims, todo, now, false) && id in todo
    ensures id in before && id in jobs && jobs[id] == before[id] && Due(jobs[id], now)
  {
  }

  lemma TickContinues(before: map<string, Job>, jobs: map<string, Job>, claims: seq<Claim>, todo: set<string>, id: string,
                      times: seq<int>, now: int, available: nat, after: map<string, Job>)
    requires TickState(before, jobs, claims, todo, now, false) && id in todo && available >= 1
    requires id in jobs && id in after && after == jobs[id := after[id]]
    requires GoodJob(jobs[id]) && Due(jobs[id], now) && Advanced(jobs[id], after[id], now)
    requires times == Last(DueTimes(jobs[id], now), available)
    ensures TickState(before, after, claims + ClaimsFor(id, times, now), todo - {id}, now, |times| == available)
  {
    hide Advanced, DueTimes, GoodJob, Last;
    LatestOf(DueTimes(jobs[id], now), available);
    var more := ClaimsFor(id, times, now);
    forall j <- before
      ensures if j in todo - {id} then Due(before[j], now) && after[j] == before[j] && TimesOf(claims + more, j) == []
              else TickOutcome(before[j], after[j], TimesOf(claims + more, j), now, |times| == available)
    {
      TimesAppend(claims, more, j);
      TimesOfClaims(id, times, now, j);
    }
  }

  lemma TickEnds(before: map<string, Job>, jobs: map<string, Job>, claims: seq<Claim>, todo: set<string>, now: int,
                 full: bool)
    requires TickState(before, jobs, claims, todo, now, full) && (todo == {} || full)
    ensures jobs.Keys == before.Keys && forall id <- jobs :: TickOutcome(before[id], jobs[id], TimesOf(claims, id), now, full)
  {
  }

  function TickLimit(batch: int, startupCap: Option<int>): int {
    if startupCap.Some? && startupCap.value < batch then startupCap.value else batch
  }

  function Keys(claims: seq<Claim>): seq<RunKey> {
    seq(|claims|, i requires 0 <= i < |claims| => claims[i].key)
  }

  // What one tick may do to a job.
  ghost predicate TickOutcome(before: Job, after: Job, times: seq<int>, now: int, full: bool)
    requires GoodJob(before)
  {
    if !Due(before, now) then after == before && times == []
    else
      || (after == before && times == [] && full)
      || (Advanced(before, after, now) && Latest(times, DueTimes(before, now), full))
  }

  lemma NoneLeftDue(before: map<string, Job>, after: map<string, Job>, claims: seq<Claim>, now: int, full: bool)
    requires after.Keys == before.Keys && forall id <- after :: GoodJob(before[id]) && GoodJob(after[id])
    ensures (forall id <- after :: TickOutcome(before[id], after[id], TimesOf(claims, id), now, full)) ==>
              && (!full ==> forall id <- after :: after[id].state == Scheduled ==> after[id].nextRunAt.Some? && after[id].nextRunAt.value > now)
              && (forall id <- after ::
                    before[id].state != Scheduled || (before[id].nextRunAt.Some? && before[id].nextRunAt.value > now) ==> after[id] == before[id])
  {
    hide TimesOf, DueTimes, Latest;
  }

  // The latest of the due instants; all of them unless the tick is full.
  predicate Latest(times: seq<int>, due: seq<int>, full: bool) {
    times == Last(due, |times|) && (|times| < |due| ==> full && times != [])
  }

  lemma LatestOf(due: seq<int>, available: nat)
    requires available >= 1
    ensures Latest(Last(due, available), due, |Last(due, available)| == available)
  {
  }

  // A job after it was claimed: completed, or waiting for its next occurrence.
  ghost predicate Advanced(before: Job, after: Job, now: int)
    requires GoodSchedule(before.schedule)
  {
    && after == before.(nextRunAt := after.nextRunAt, state := after.state)
    && (after.nextRunAt.None? <==> before.schedule.Once?)
    && after.state == (if before.schedule.Once? then JobCompleted else Scheduled)
    && (after.nextRunAt.Some? ==>
          && Occurs(before.schedule, after.nextRunAt.value) && after.nextRunAt.value > now
          && forall t :: now < t < after.nextRunAt.value ==> !Occurs(before.schedule, t))
  }
}
