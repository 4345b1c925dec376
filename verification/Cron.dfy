/**
 The cron reconciler of operator/controllers/prisncronjob_controller.go. Times are integers
 (nanoseconds). A schedule is given by its `Next` function; the ticks it runs through are a predicate
 that only specifications mention.
 */
module Cron {
  import opened RaftTypes

  const HUNDRED_DAYS: int := 100 * 24 * 3600 * 1_000_000_000

  /** How the schedule library answers: it looks ahead of t as far as horizon(t), or gives up with `zero`. */
  datatype Library = Library(next: int -> int, zero: int, horizon: int -> int)

  /** next(t) is the least tick after t, if there is one up to the horizon. */
  ghost predicate Finds(lib: Library, tick: int -> bool, t: int) {
    t < lib.next(t) <= lib.horizon(t) && tick(lib.next(t)) && forall u: int :: t < u < lib.next(t) ==> !tick(u)
  }

  ghost predicate GivesUp(lib: Library, tick: int -> bool, t: int) {
    lib.next(t) == lib.zero && forall u: int :: t < u <= lib.horizon(t) ==> !tick(u)
  }

  ghost predicate Schedule(lib: Library, tick: int -> bool) {
    && (forall t: int :: Finds(lib, tick, t) || GivesUp(lib, tick, t))
    && (forall t: int, u: int :: t <= u ==> lib.horizon(t) <= lib.horizon(u))
  }

  datatype Policy = Allow | Forbid | Replace

  datatype Phase = Pending | Running | Succeeded | Failed | Unknown

  datatype Job = Job(name: string, phase: Phase, completion: Option<int>)

  /** `deadline` is the starting deadline as a duration. */
  datatype CronSpec = CronSpec(created: int, deadline: Option<int>, policy: Policy, suspend: bool, parses: bool)

  datatype Status = Status(
    lastSchedule: Option<int>,
    active: seq<string>,
    lastSuccess: Option<int>,
    nextSchedule: Option<int>)

  datatype Outcome =
    | Suspended
    | BadSchedule
    | TooMany
    | Waiting
    | PastDeadline
    | Skipped
    | CreateFailed
    | Launched(at: int)

  // ----- what the search for a missed run promises -----

  /** Where getMissedRun starts looking. */
  function Earliest(spec: CronSpec, last: Option<int>, now: int): int {
    var base := if last.Some? then last.value else spec.created;
    if spec.deadline.Some? && now - spec.deadline.value > base then now - spec.deadline.value else base
  }

  ghost predicate MissedTick(tick: int -> bool, from: int, now: int, t: int) {
    from < t <= now && tick(t)
  }

  ghost predicate LatestMissed(tick: int -> bool, from: int, now: int, t: int) {
    MissedTick(tick, from, now, t) && forall u: int :: MissedTick(tick, from, now, u) ==> u <= t
  }

  ghost predicate NoneMissed(tick: int -> bool, from: int, now: int) {
    forall u: int :: !MissedTick(tick, from, now, u)
  }

  /** Some missed tick lies more than a hundred days after the start of the search. */
  ghost predicate TooFarBehind(tick: int -> bool, from: int, now: int) {
    exists u: int :: MissedTick(tick, from, now, u) && u - from > HUNDRED_DAYS
  }

  /** Within the part of the past that is searched, the library gives up at g. */
  ghost predicate GapAt(lib: Library, tick: int -> bool, from: int, now: int, g: int) {
    from <= g <= now && g - from <= HUNDRED_DAYS && (g == from || tick(g)) && lib.next(g) == lib.zero
  }

  ghost predicate NoGap(lib: Library, tick: int -> bool, from: int, now: int) {
    forall g: int :: !GapAt(lib, tick, from, now, g)
  }

  /** Both answers occur: a schedule that always fires, and one that never does. */
  lemma SchedulesExist()
    ensures Schedule(Library(t => t + 1, 0, t => t + 1), _ => true)
    ensures Schedule(Library(_ => 0, 0, t => t), _ => false)
  {
  }

  // ----- when the search ends -----

  /** The times the loop of getMissedRun goes through. */
  function Visit(lib: Library, from: int, k: nat): int {
    if k == 0 then lib.next(from) else lib.next(Visit(lib, from, k - 1))
  }

  /** The loop ends at its k-th time: that lies in the future, or too far out. */
  predicate EndsAt(lib: Library, from: int, now: int, k: nat) {
    Visit(lib, from, k) > now || Visit(lib, from, k) - from > HUNDRED_DAYS
  }

  /** Beyond a gap the loop falls back to `zero` and never gets past the gap. */
  lemma {:induction false} CaughtBelow(lib: Library, tick: int -> bool, from: int, now: int, g: int, k: nat)
    requires Schedule(lib, tick) && lib.zero <= from && GapAt(lib, tick, from, now, g)
    ensures
      var v := Visit(lib, from, k);
      v <= g && (v == lib.zero || tick(v))
  {
    var before := if k == 0 then from else Visit(lib, from, k - 1);
    if k > 0 {
      CaughtBelow(lib, tick, from, now, g, k - 1);
    }
    StopsAtGap(lib, tick, before, g);
  }

  lemma StopsAtGap(lib: Library, tick: int -> bool, t: int, g: int)
    requires Schedule(lib, tick) && t <= g && lib.next(g) == lib.zero <= g
    ensures lib.next(t) <= g && (lib.next(t) == lib.zero || tick(lib.next(t)))
  {
    assert Finds(lib, tick, g) || GivesUp(lib, tick, g);
    assert Finds(lib, tick, t) || GivesUp(lib, tick, t);
    assert lib.horizon(t) <= lib.horizon(g);
  }

  /** Without a gap every time is a later tick. */
  lemma {:induction false} Climbs(lib: Library, tick: int -> bool, from: int, now: int, k: nat)
    requires Schedule(lib, tick) && NoGap(lib, tick, from, now) && from <= now
    requires forall j: nat | j < k :: !EndsAt(lib, from, now, j)
    ensures Visit(lib, from, k) > from + k && tick(Visit(lib, from, k))
  {
    var before := if k == 0 then from else Visit(lib, from, k - 1);
    if k > 0 {
      Climbs(lib, tick, from, now, k - 1);
      assert !EndsAt(lib, from, now, k - 1);
    }
    assert !GapAt(lib, tick, from, now, before);
    assert Finds(lib, tick, before) || GivesUp(lib, tick, before);
  }

  /**
   The loop of getMissedRun ends exactly when the library does not give up inside the part of the past it
   searches; in particular it never ends for a schedule that never fires.
   */
  lemma SearchEndsIff(lib: Library, tick: int -> bool, from: int, now: int)
    requires Schedule(lib, tick) && lib.zero <= from <= now
    ensures (exists k: nat :: EndsAt(lib, from, now, k)) <==> NoGap(lib, tick, from, now)
  {
    if NoGap(lib, tick, from, now) {
      if forall j: nat :: !EndsAt(lib, from, now, j) {
        Climbs(lib, tick, from, now, now - from);
        assert EndsAt(lib, from, now, now - from);
      }
    } else {
      var g: int :| GapAt(lib, tick, from, now, g);
      forall k: nat ensures !EndsAt(lib, from, now, k) {
        CaughtBelow(lib, tick, from, now, g, k);
      }
    }
  }

  lemma NeverFiringNeverEnds(lib: Library, tick: int -> bool, from: int, now: int, k: nat)
    requires Schedule(lib, tick) && lib.zero <= from <= now && forall t: int :: !tick(t)
    ensures !EndsAt(lib, from, now, k)
  {
    assert Finds(lib, tick, from) || GivesUp(lib, tick, from);
    assert GapAt(lib, tick, from, now, from);
    CaughtBelow(lib, tick, from, now, from, k);
  }

  // ----- the search -----

  /** getMissedRun, where its loop ends. */
  method GetMissedRun(spec: CronSpec, last: Option<int>, lib: Library, now: int, ghost tick: int -> bool)
    returns (missed: Option<int>, nextRun: int, tooMany: bool)
    requires Schedule(lib, tick) && NoGap(lib, tick, Earliest(spec, last, now), now)
    ensures nextRun == lib.next(now)
    ensures tooMany <==> TooFarBehind(tick, Earliest(spec, last, now), now)
    ensures tooMany ==> missed.None?
    ensures !tooMany ==>
      match missed
      case None => NoneMissed(tick, Earliest(spec, last, now), now)
      case Some(t) => LatestMissed(tick, Earliest(spec, last, now), now, t)
  {
    var earliest := if last.Some? then last.value else spec.created;
    if spec.deadline.Some? {
      var cutoff := now - spec.deadline.value;
      if cutoff > earliest {
        earliest := cutoff;
      }
    }
    missed, nextRun, tooMany := None, lib.next(now), false;
    if earliest > now {
      return;
    }
    var t := lib.next(earliest);
    assert !GapAt(lib, tick, earliest, now, earliest);
    assert Finds(lib, tick, earliest) || GivesUp(lib, tick, earliest);
    while t <= now
      invariant earliest < t && tick(t)
      // No tick lies between the last one seen and t, and none seen was too far out.
      invariant match missed
                case None => forall u: int :: earliest < u < t ==> !tick(u)
                case Some(m) =>
                  MissedTick(tick, earliest, now, m) && m < t && m - earliest <= HUNDRED_DAYS
                  && forall u: int :: m < u < t ==> !tick(u)
      decreases now - t
    {
      missed := Some(t);
      if t - earliest > HUNDRED_DAYS {
        assert MissedTick(tick, earliest, now, t);
        return None, nextRun, true;
      }
      assert !GapAt(lib, tick, earliest, now, t);
      assert Finds(lib, tick, t) || GivesUp(lib, tick, t);
      t := lib.next(t);
    }
  }

  // ----- the object -----

  /** `names` are those of the running and pending jobs, one for each, in order; `at` says where they are. */
  ghost predicate ListsActive(jobs: seq<Job>, names: seq<string>, at: seq<nat>) {
    && |at| == |names|
    && (forall k | 0 <= k < |at| ::
          at[k] < |jobs| && names[k] == jobs[at[k]].name && (jobs[at[k]].phase == Running || jobs[at[k]].phase == Pending))
    && (forall k, m | 0 <= k < m < |at| :: at[k] < at[m])
    && forall i: nat | i < |jobs| && (jobs[i].phase == Running || jobs[i].phase == Pending) :: i in at
  }

  /** Nothing is running or pending. */
  ghost predicate Idle(jobs: seq<Job>) {
    forall i | 0 <= i < |jobs| :: jobs[i].phase != Running && jobs[i].phase != Pending
  }

  /** Such a list is empty exactly when nothing is, and a name is in it exactly when such a job has it. */
  lemma ListMeaning(jobs: seq<Job>, names: seq<string>, at: seq<nat>)
    requires ListsActive(jobs, names, at)
    ensures names == [] <==> Idle(jobs)
    ensures forall n :: n in names <==>
                          exists i | 0 <= i < |jobs| :: jobs[i].name == n && (jobs[i].phase == Running || jobs[i].phase == Pending)
  {
    forall n | n in names
      ensures exists i | 0 <= i < |jobs| :: jobs[i].name == n && (jobs[i].phase == Running || jobs[i].phase == Pending)
    {
      var k :| 0 <= k < |names| && names[k] == n;
      assert jobs[at[k]].name == n;
    }
    forall i: nat | i < |jobs| && (jobs[i].phase == Running || jobs[i].phase == Pending) ensures jobs[i].name in names {
      var k :| 0 <= k < |at| && at[k] == i;
      assert names[k] == jobs[i].name;
    }
    if names != [] {
      assert jobs[at[0]].phase == Running || jobs[at[0]].phase == Pending;
    }
  }

  /** `t` is the latest completion among succeeded jobs, or the old value when there is none. */
  ghost predicate LatestSuccess(jobs: seq<Job>, was: Option<int>, t: Option<int>) {
    if exists i | 0 <= i < |jobs| :: jobs[i].phase == Succeeded && jobs[i].completion.Some?
    then
      && t.Some?
      && (exists i | 0 <= i < |jobs| :: jobs[i].phase == Succeeded && jobs[i].completion == t)
      && forall i | 0 <= i < |jobs| && jobs[i].phase == Succeeded && jobs[i].completion.Some? ::
           jobs[i].completion.value <= t.value
    else t == was
  }

  class CronJob {
    const spec: CronSpec
    // The status as the API server holds it.
    var status: Status

    constructor (spec: CronSpec)
      ensures this.spec == spec && status == Status(None, [], None, None)
    {
      this.spec := spec;
      this.status := Status(None, [], None, None);
    }

    /** The list of active jobs and the latest success; `at` says where the active jobs are. */
    method UpdateActiveJobs(s: Status, jobs: seq<Job>) returns (r: Status, ghost at: seq<nat>)
      ensures ListsActive(jobs, r.active, at)
      ensures r.lastSchedule == s.lastSchedule && r.nextSchedule == s.nextSchedule
      ensures LatestSuccess(jobs, s.lastSuccess, r.lastSuccess)
    {
      var active: seq<string>, latest: Option<int> := [], None;
      at := [];
      for i := 0 to |jobs|
        invariant ListsActive(jobs[..i], active, at)
        invariant match latest
                  case None => forall k | 0 <= k < i :: jobs[k].phase != Succeeded || jobs[k].completion.None?
                  case Some(t) =>
                    && (exists k | 0 <= k < i :: jobs[k].phase == Succeeded && jobs[k].completion == latest)
                    && forall k | 0 <= k < i && jobs[k].phase == Succeeded && jobs[k].completion.Some? ::
                         jobs[k].completion.value <= t
      {
        var job := jobs[i];
        ghost var before := at;
        if job.phase == Running || job.phase == Pending {
          active := active + [job.name];
          at := at + [i];
        }
        ListGrows(jobs, i, before, at);
        if job.phase == Succeeded && job.completion.Some? {
          if latest.None? || job.completion.value > latest.value {
            latest := job.completion;
          }
        }
      }
      assert jobs[..|jobs|] == jobs;
      r := s.(active := active);
      if latest.Some? {
        r := r.(lastSuccess := latest);
      }
    }

    /**
     Reconcile, for a cron job that exists, is not being deleted and has its finalizer. `created` says
     whether creating the job succeeds; status updates succeed.
     */
    method Reconcile(lib: Library, now: int, jobs: seq<Job>, created: bool, jobName: int -> string,
                     ghost tick: int -> bool)
      returns (outcome: Outcome, deleted: seq<string>, ghost listed: seq<string>, ghost at: seq<nat>)
      requires Schedule(lib, tick)
      requires !spec.suspend && spec.parses ==> NoGap(lib, tick, Earliest(spec, status.lastSchedule, now), now)
      modifies this
      ensures Reconciled(spec, tick, now, Idle(jobs), created, old(status), status, outcome)
      // What is launched, and that nothing is when it waits, in terms of the last launch and the deadline.
      ensures outcome == Waiting ==> forall u: int :: !Due(spec, old(status).lastSchedule, tick, now, u)
      ensures outcome.Launched? ==>
                && Due(spec, old(status).lastSchedule, tick, now, outcome.at)
                && forall u: int :: Due(spec, old(status).lastSchedule, tick, now, u) ==> u <= outcome.at
      // Forbid.
      ensures outcome.Launched? && spec.policy == Forbid ==>
                forall i | 0 <= i < |jobs| :: jobs[i].phase != Running && jobs[i].phase != Pending
      ensures outcome == Skipped ==> exists i | 0 <= i < |jobs| :: jobs[i].phase == Running || jobs[i].phase == Pending
      // The status: untouched, or brought up to date with the jobs.
      ensures outcome in {Suspended, BadSchedule, TooMany, CreateFailed} ==> status == old(status)
      ensures outcome != Suspended ==> ListsActive(jobs, listed, at)
      ensures outcome in {Waiting, Skipped} ==> status.active == listed
      ensures outcome.Launched? ==>
                status.active == (if spec.policy == Replace then [] else listed) + [jobName(outcome.at)]
      ensures outcome in {Waiting, Skipped} || outcome.Launched? ==>
        LatestSuccess(jobs, old(status).lastSuccess, status.lastSuccess) && status.nextSchedule == Some(lib.next(now))
      // Replace deletes what is active before it launches, and no other policy deletes anything.
      ensures deleted == if spec.policy == Replace && (outcome.Launched? || outcome == CreateFailed) then listed else []
    {
      deleted, listed, at := [], [], [];
      if spec.suspend {
        outcome := Suspended;
        return;
      }
      var s, positions := UpdateActiveJobs(status, jobs);
      listed, at := s.active, positions;
      ListMeaning(jobs, listed, at);
      if !spec.parses {
        outcome := BadSchedule;
        return;
      }
      s := s.(nextSchedule := Some(lib.next(now)));
      var missed, _, tooMany := GetMissedRun(spec, s.lastSchedule, lib, now, tick);
      DueIff(spec, s.lastSchedule, tick, now);
      if tooMany {
        outcome := TooMany;
        return;
      }
      if missed.None? {
        status := s;
        outcome := Waiting;
        return;
      }
      var t := missed.value;
      if spec.deadline.Some? && now > t + spec.deadline.value {
        // The source updates the status and waits here; the search makes the branch unreachable.
        assert false;
        outcome := PastDeadline;
        return;
      }
      if spec.policy == Forbid && |s.active| > 0 {
        status := s;
        outcome := Skipped;
        return;
      }
      if spec.policy == Replace && |s.active| > 0 {
        deleted := s.active;
        s := s.(active := []);
      }
      if !created {
        outcome := CreateFailed;
        return;
      }
      status := s.(lastSchedule := Some(t), active := s.active + [jobName(t)]);
      outcome := Launched(t);
    }
  }

  lemma ListGrows(jobs: seq<Job>, i: nat, before: seq<nat>, after: seq<nat>)
    requires i < |jobs|
    requires exists names :: ListsActive(jobs[..i], names, before)
    requires after == if jobs[i].phase == Running || jobs[i].phase == Pending then before + [i] else before
    ensures forall k: nat | k < i + 1 && (jobs[k].phase == Running || jobs[k].phase == Pending) :: k in after
  {
    var names :| ListsActive(jobs[..i], names, before);
    forall k: nat | k < i + 1 && (jobs[k].phase == Running || jobs[k].phase == Pending) ensures k in after {
      if k < i {
        assert jobs[..i][k] == jobs[k];
      }
    }
  }

  /** A tick after the last launch, or the creation, and inside the starting deadline. */
  ghost predicate Due(spec: CronSpec, last: Option<int>, tick: int -> bool, now: int, u: int) {
    && tick(u) && u <= now
    && (if last.Some? then u > last.value else u > spec.created)
    && (spec.deadline.Some? ==> u > now - spec.deadline.value)
  }

  /** The search covers exactly those. */
  lemma DueIff(spec: CronSpec, last: Option<int>, tick: int -> bool, now: int)
    ensures forall u: int :: MissedTick(tick, Earliest(spec, last, now), now, u) <==> Due(spec, last, tick, now, u)
  {
  }

  /** What one reconcile does to the schedule: when it launches, what it launches, what it records. */
  ghost predicate Reconciled(spec: CronSpec, tick: int -> bool, now: int, idle: bool, created: bool,
                             s: Status, s': Status, outcome: Outcome)
  {
    var from := Earliest(spec, s.lastSchedule, now);
    // The starting-deadline rejection never fires: the search already stayed inside the deadline.
    && outcome != PastDeadline
    && (outcome == Suspended <==> spec.suspend)
    && (outcome == BadSchedule <==> !spec.suspend && !spec.parses)
    && (outcome == TooMany <==> !spec.suspend && spec.parses && TooFarBehind(tick, from, now))
    && (outcome == Waiting <==> !spec.suspend && spec.parses && NoneMissed(tick, from, now))
    && (outcome == Skipped ==> spec.policy == Forbid && !idle)
    && (outcome == CreateFailed ==> !created && (spec.policy == Forbid ==> idle))
    && (outcome.Launched? ==>
          && LatestMissed(tick, from, now, outcome.at) && created && (spec.policy == Forbid ==> idle))
    && s'.lastSchedule == (if outcome.Launched? then Some(outcome.at) else s.lastSchedule)
  }

  // ----- runs of reconciles -----

  datatype Round = Round(now: int, idle: bool, created: bool, outcome: Outcome)

  ghost predicate RoundAt(spec: CronSpec, tick: int -> bool, rounds: seq<Round>, statuses: seq<Status>, i: nat)
    requires i < |rounds| && i + 1 < |statuses|
  {
    var r := rounds[i];
    Reconciled(spec, tick, r.now, r.idle, r.created, statuses[i], statuses[i + 1], r.outcome)
  }

  /** A sequence of reconciles of one cron job, each starting from the status the one before it left. */
  ghost predicate IsHistory(spec: CronSpec, tick: int -> bool, rounds: seq<Round>, statuses: seq<Status>) {
    && |statuses| == |rounds| + 1
    && forall i: nat {:trigger RoundAt(spec, tick, rounds, statuses, i)} | i < |rounds| ::
         RoundAt(spec, tick, rounds, statuses, i)
  }

  /** Without a last schedule nothing has been launched; with one, it only moves forward. */
  lemma {:induction false} ScheduleAdvances(spec: CronSpec, tick: int -> bool, rounds: seq<Round>,
                                            statuses: seq<Status>, i: nat, j: nat)
    requires IsHistory(spec, tick, rounds, statuses) && i <= j < |statuses|
    ensures statuses[i].lastSchedule.Some? ==>
              statuses[j].lastSchedule.Some? && statuses[i].lastSchedule.value <= statuses[j].lastSchedule.value
    decreases j
  {
    if i < j {
      ScheduleAdvances(spec, tick, rounds, statuses, i, j - 1);
      assert RoundAt(spec, tick, rounds, statuses, j - 1);
    }
  }

  /**
   At most once: along any sequence of reconciles, whatever is skipped, forbidden or replaced in between,
   launches are ticks, never in the future, and strictly increasing; so no tick is launched twice.
   */
  lemma LaunchesIncrease(spec: CronSpec, tick: int -> bool, rounds: seq<Round>, statuses: seq<Status>, i: nat, j: nat)
    requires IsHistory(spec, tick, rounds, statuses) && i < j < |rounds|
    requires rounds[i].outcome.Launched? && rounds[j].outcome.Launched?
    ensures tick(rounds[i].outcome.at) && rounds[i].outcome.at <= rounds[i].now
    ensures rounds[i].outcome.at < rounds[j].outcome.at
  {
    assert RoundAt(spec, tick, rounds, statuses, i) && RoundAt(spec, tick, rounds, statuses, j);
    ScheduleAdvances(spec, tick, rounds, statuses, i + 1, j);
  }

  /**
   "Too many missed runs" never heals: without a starting deadline, once it is reported no later
   reconcile, at the same time or later, launches anything.
   */
  lemma {:induction false} TooManyIsForever(spec: CronSpec, tick: int -> bool, rounds: seq<Round>,
                                            statuses: seq<Status>, i: nat, j: nat)
    requires IsHistory(spec, tick, rounds, statuses) && i <= j < |rounds|
    requires forall a, b | i <= a <= b < |rounds| :: rounds[a].now <= rounds[b].now
    requires spec.deadline.None? && rounds[i].outcome == TooMany
    ensures rounds[j].outcome == TooMany && statuses[j + 1].lastSchedule == statuses[i].lastSchedule
    decreases j
  {
    assert RoundAt(spec, tick, rounds, statuses, i) && RoundAt(spec, tick, rounds, statuses, j);
    if i < j {
      TooManyIsForever(spec, tick, rounds, statuses, i, j - 1);
      var from := Earliest(spec, statuses[i].lastSchedule, rounds[i].now);
      var u: int :| MissedTick(tick, from, rounds[i].now, u) && u - from > HUNDRED_DAYS;
      assert MissedTick(tick, from, rounds[j].now, u);
    }
  }

  /** A starting deadline of at most a hundred days rules the error out, at every reconcile. */
  lemma DeadlineExcludesTooMany(spec: CronSpec, tick: int -> bool, r: Round, s: Status, s': Status)
    requires Reconciled(spec, tick, r.now, r.idle, r.created, s, s', r.outcome)
    requires spec.deadline.Some? && spec.deadline.value <= HUNDRED_DAYS
    ensures r.outcome != TooMany
  {
    var from := Earliest(spec, s.lastSchedule, r.now);
    assert from >= r.now - spec.deadline.value;
  }

  /** No other deadline does, nor does none: a job that fires every nanosecond gets there. */
  lemma TooManyIsPossible(spec: CronSpec) returns (now: int)
    requires spec.deadline.None? || spec.deadline.value > HUNDRED_DAYS
    requires !spec.suspend && spec.parses
    ensures var s := Status(None, [], None, None);
            Reconciled(spec, _ => true, now, true, true, s, s, TooMany)
  {
    now := spec.created + (if spec.deadline.Some? then spec.deadline.value else HUNDRED_DAYS + 1);
    assert MissedTick(_ => true, spec.created, now, now);
  }

  /** Such a job, reconciled again any time later, reports the same. */
  lemma TooManyExample(spec: CronSpec, wait: nat) returns (rounds: seq<Round>, statuses: seq<Status>)
    requires spec.deadline.None? && !spec.suspend && spec.parses
    ensures IsHistory(spec, _ => true, rounds, statuses) && |rounds| == 2
    ensures rounds[0].outcome == TooMany == rounds[1].outcome && rounds[1].now == rounds[0].now + wait
  {
    var s := Status(None, [], None, None);
    var now := TooManyIsPossible(spec);
    var tick: int -> bool := _ => true;
    var u: int :| MissedTick(tick, spec.created, now, u) && u - spec.created > HUNDRED_DAYS;
    assert MissedTick(tick, spec.created, now + wait, u);
    rounds := [Round(now, true, true, TooMany), Round(now + wait, true, true, TooMany)];
    statuses := [s, s, s];
    assert RoundAt(spec, tick, rounds, statuses, 0);
    assert RoundAt(spec, tick, rounds, statuses, 1);
  }

  /**
   Forbid looks at running and pending jobs only: the job of the last launch, while it has no phase yet,
   does not keep the next one from being launched.
   */
  lemma ForbidOverlapsExample(spec: CronSpec) returns (rounds: seq<Round>, statuses: seq<Status>, jobs: seq<Job>)
    requires spec.policy == Forbid && spec.deadline.None? && !spec.suspend && spec.parses
    ensures IsHistory(spec, _ => true, rounds, statuses) && |rounds| == 2
    ensures rounds[0].outcome.Launched? && rounds[1].outcome.Launched?
    ensures jobs == [Job("job", Unknown, None)] && rounds[1].idle == Idle(jobs)
  {
    var t := spec.created;
    var tick: int -> bool := _ => true;
    jobs := [Job("job", Unknown, None)];
    rounds := [Round(t + 1, true, true, Launched(t + 1)), Round(t + 2, Idle(jobs), true, Launched(t + 2))];
    statuses := [Status(None, [], None, None), Status(Some(t + 1), ["job"], None, None), Status(Some(t + 2), ["job"], None, None)];
    assert MissedTick(tick, t, t + 1, t + 1) && MissedTick(tick, t + 1, t + 2, t + 2);
    assert RoundAt(spec, tick, rounds, statuses, 0);
    assert RoundAt(spec, tick, rounds, statuses, 1);
  }

  /** A hundred days, to the nanosecond. */
  lemma HundredDays(tick: int -> bool, from: int, now: int)
    ensures TooFarBehind(tick, from, now) <==>
            exists u: int :: from < u <= now && tick(u) && u - from > 8_640_000_000_000_000
  {
    if TooFarBehind(tick, from, now) {
      var u: int :| MissedTick(tick, from, now, u) && u - from > HUNDRED_DAYS;
      assert tick(u);
    }
    if exists u: int :: from < u <= now && tick(u) && u - from > 8_640_000_000_000_000 {
      var u: int :| from < u <= now && tick(u) && u - from > 8_640_000_000_000_000;
      assert MissedTick(tick, from, now, u);
    }
  }
}
