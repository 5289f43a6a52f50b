/**
  Background jobs (queue_job/job.py, queue_job/controllers/main.py, queue_job/models/queue_job.py,
  queue_job_enhancement/job.py): the life of one job over attempts and requeues, and the
  de-duplication of jobs by identity key.
*/
module JobQueue {
  import opened Wrappers

  datatype State = Pending | Enqueued | Started | Done | Failed

  /** What a database row keeps of a job; unset columns are None. */
  datatype Record = Record(state: State, retry: nat, maxRetries: nat, result: Option<string>, excInfo: Option<string>,
                           eta: Option<int>, dateEnqueued: Option<int>, dateStarted: Option<int>, dateDone: Option<int>)

  /** How a run of the job goes: how its function ends, and whether the commits before and after it fail. */
  datatype Outcome =
    | StartConflict(message: string)   // a serialization failure at the commit before the function
    | StartCrashes(trace: string)      // another failure at that commit
    | Returns(value: string)
    | Retryable(message: string, seconds: nat, ignoreRetry: bool)
    | Concurrency(message: string)   // a serialization failure of the database
    | NothingToDo(message: string)
    | Crashes(trace: string)
    | CommitConflict(value: string, message: string)   // it returns, then a serialization failure at the commit
    | CommitCrashes(value: string, trace: string)      // it returns, then another failure at the commit

  /** How `perform` ends. */
  datatype Performed = Completed | RaisesRetryable | RaisesFailed | RaisesOther

  const RETRY_INTERVAL: nat := 600
  const PG_RETRY: nat := 5

  /** Empty text is stored as an unset column. */
  function Stored(text: Option<string>): Option<string> { if text == Some("") then None else text }

  class Job {
    var state: State
    var retry: nat
    var maxRetries: nat
    var result: Option<string>
    var excInfo: Option<string>
    var eta: Option<int>
    var dateEnqueued: Option<int>
    var dateStarted: Option<int>
    var dateDone: Option<int>
    const retryPattern: seq<(nat, nat)>

    constructor (maxRetries: nat, retryPattern: seq<(nat, nat)>)
      ensures Fields() == Record(Pending, 0, maxRetries, None, None, None, None, None, None)
      ensures this.retryPattern == retryPattern
    {
      state, retry, this.maxRetries := Pending, 0, maxRetries;
      result, excInfo, eta, dateEnqueued, dateStarted, dateDone := None, None, None, None, None, None;
      this.retryPattern := retryPattern;
    }

    function Fields(): Record
      reads this
    {
      Record(state, retry, maxRetries, result, excInfo, eta, dateEnqueued, dateStarted, dateDone)
    }

    /** `store`: the values written to the row. */
    method Store() returns (row: Record)
      ensures row == Fields().(result := Stored(result), excInfo := Stored(excInfo))
    {
      row := Record(state, retry, maxRetries, Stored(result), Stored(excInfo), eta, dateEnqueued, dateStarted,
          dateDone);
    }

    /** `_load_from_db_record`: every field is taken over from the row. */
    method LoadFrom(row: Record)
      modifies this
      ensures Fields() == row.(result := Stored(row.result), excInfo := Stored(row.excInfo))
    {
      dateEnqueued, dateStarted, dateDone := None, None, None;
      eta := row.eta;
      if row.dateEnqueued.Some? { dateEnqueued := row.dateEnqueued; }
      if row.dateStarted.Some? { dateStarted := row.dateStarted; }
      if row.dateDone.Some? { dateDone := row.dateDone; }
      state, retry, maxRetries := row.state, row.retry, row.maxRetries;
      result, excInfo := Stored(row.result), Stored(row.excInfo);
    }

    method SetPending(newResult: Option<string>, resetRetry: bool)
      modifies this
      ensures Fields() == old(Fields()).(state := Pending, dateEnqueued := None, dateStarted := None,
                                         retry := if resetRetry then 0 else old(retry),
                                         result := if newResult.Some? then newResult else old(result))
    {
      state, dateEnqueued, dateStarted := Pending, None, None;
      if resetRetry { retry := 0; }
      if newResult.Some? { result := newResult; }
    }

    method SetStarted(now: int)
      modifies this
      ensures Fields() == old(Fields()).(state := Started, dateStarted := Some(now))
    {
      state, dateStarted := Started, Some(now);
    }

    method SetDone(now: int, newResult: Option<string>)
      modifies this
      ensures Fields() == old(Fields()).(state := Done, excInfo := None, dateDone := Some(now),
                                         result := if newResult.Some? then newResult else old(result))
    {
      state, excInfo, dateDone := Done, None, Some(now);
      if newResult.Some? { result := newResult; }
    }

    method SetFailed(trace: Option<string>)
      modifies this
      ensures Fields() == old(Fields()).(state := Failed, excInfo := if trace.Some? then trace else old(excInfo))
    {
      state := Failed;
      if trace.Some? { excInfo := trace; }
    }

    /** `_get_retry_seconds`; the pattern is sorted by its retry counts. */
    method GetRetrySeconds(seconds: nat) returns (r: nat)
      requires forall i, j :: 0 <= i < j < |retryPattern| ==> retryPattern[i].0 < retryPattern[j].0
      ensures r == RetrySeconds(retryPattern, retry, seconds)
    {
      r := seconds;
      if seconds == 0 && retryPattern != [] {
        r := RETRY_INTERVAL;
        var i := 0;
        while i < |retryPattern|
          invariant 0 <= i <= |retryPattern|
          invariant r == PatternValue(retryPattern[..i], retry)
          invariant forall j :: 0 <= j < i ==> retryPattern[j].0 <= retry
        {
          assert retryPattern[..i + 1][..i] == retryPattern[..i];
          if retry >= retryPattern[i].0 {
            r := retryPattern[i].1;
          } else {
            StopEarly(retryPattern, retry, i);
            return;
          }
          i := i + 1;
        }
        assert retryPattern[..|retryPattern|] == retryPattern;
      } else if seconds == 0 {
        r := RETRY_INTERVAL;
      }
    }

    method Postpone(now: int, message: string, seconds: nat)
      requires forall i, j :: 0 <= i < j < |retryPattern| ==> retryPattern[i].0 < retryPattern[j].0
      modifies this
      ensures Fields() == old(Fields()).(eta := Some(now + RetrySeconds(retryPattern, retry, seconds)),
                                         excInfo := None, result := Some(message))
    {
      var wait := GetRetrySeconds(seconds);
      eta, excInfo := Some(now + wait), None;
      result := Some(message);
    }

    /** `perform`, which is reached when the job could be started. */
    method Perform(o: Outcome) returns (p: Performed)
      requires !FailsToStart(o)
      modifies this
      ensures p == PerformEnd(old(Fields()), o)
      ensures Fields() == old(Fields()).(retry := old(retry) + if Counted(o) then 1 else 0,
                                         result := if Finishes(o) then Some(o.value) else old(result))
    {
      retry := retry + 1;
      match o
      case Returns(value) =>
        result := Some(value);
        p := Completed;
      case CommitConflict(value, _) =>
        result := Some(value);
        p := Completed;
      case CommitCrashes(value, _) =>
        result := Some(value);
        p := Completed;
      case Retryable(_, _, ignoreRetry) =>
        if ignoreRetry {
          retry := retry - 1;
          p := RaisesRetryable;
        } else if maxRetries == 0 {
          p := RaisesRetryable;
        } else if retry >= maxRetries {
          p := RaisesFailed;
        } else {
          p := RaisesRetryable;
        }
      case _ => p := RaisesOther;
    }
  }

  function PatternValue(pattern: seq<(nat, nat)>, retry: nat): nat {
    if pattern == [] then RETRY_INTERVAL
    else if pattern[|pattern| - 1].0 <= retry then pattern[|pattern| - 1].1
    else PatternValue(pattern[..|pattern| - 1], retry)
  }

  function RetrySeconds(pattern: seq<(nat, nat)>, retry: nat, seconds: nat): nat {
    if seconds != 0 then seconds else PatternValue(pattern, retry)
  }

  lemma {:induction false} StopEarly(pattern: seq<(nat, nat)>, retry: nat, i: nat)
    requires i < |pattern| && retry < pattern[i].0
    requires forall i, j :: 0 <= i < j < |pattern| ==> pattern[i].0 < pattern[j].0
    ensures PatternValue(pattern, retry) == PatternValue(pattern[..i], retry)
    decreases |pattern|
  {
    var n := |pattern| - 1;
    if i < n {
      assert pattern[i].0 < pattern[n].0;
      assert pattern[..n][..i] == pattern[..i];
      StopEarly(pattern[..n], retry, i);
    }
  }

  /** The wait is that of the greatest retry count reached; the default if none is reached. */
  lemma {:induction false} RetrySecondsMeaning(pattern: seq<(nat, nat)>, retry: nat, i: nat)
    requires forall i, j :: 0 <= i < j < |pattern| ==> pattern[i].0 < pattern[j].0
    ensures i < |pattern| && pattern[i].0 <= retry && (i + 1 < |pattern| ==> retry < pattern[i + 1].0)
            ==> RetrySeconds(pattern, retry, 0) == pattern[i].1
    ensures (pattern != [] ==> retry < pattern[0].0) ==> RetrySeconds(pattern, retry, 0) == RETRY_INTERVAL
    decreases |pattern|
  {
    if pattern != [] && retry < pattern[|pattern| - 1].0 {
      RetrySecondsMeaning(pattern[..|pattern| - 1], retry, i);
    }
  }

  // ----- One run of a job by the controller -----

  /** The job is stopped by the commit of its start, before its function is called. */
  predicate FailsToStart(o: Outcome) { o.StartConflict? || o.StartCrashes? }

  predicate Counted(o: Outcome) { !FailsToStart(o) && !(o.Retryable? && o.ignoreRetry) }

  /** The job's function returns, whatever the commit does. */
  predicate Finishes(o: Outcome) { o.Returns? || o.CommitConflict? || o.CommitCrashes? }

  /** An attempt that is counted and ends in a serialization failure. */
  predicate SerializationFailure(o: Outcome) { o.Concurrency? || o.CommitConflict? }

  function PerformEnd(r: Record, o: Outcome): Performed {
    if Finishes(o) then Completed else
    match o
    case Retryable(_, _, ignoreRetry) =>
      if !ignoreRetry && r.maxRetries > 0 && r.retry + 1 >= r.maxRetries then RaisesFailed else RaisesRetryable
    case _ => RaisesOther
  }

  /** The row after `runjob` on an enqueued row. */
  function Attempt(r: Record, pattern: seq<(nat, nat)>, o: Outcome, start: int, end: int): Record {
    var s := r.(state := Started, dateStarted := Some(start), result := Stored(r.result), excInfo := Stored(r.excInfo),
                retry := r.retry + if Counted(o) then 1 else 0);
    match PerformEnd(r, o)
    case Completed =>
      Committed(s.(state := Done, result := Stored(Some(o.value)), excInfo := None, dateDone := Some(end)),
                pattern, o, end)
    case RaisesRetryable => Postponed(s, pattern, o.message, o.seconds, end)
    case RaisesFailed => s.(state := Failed, excInfo := Some("Max. retries reached"))
    case RaisesOther => Interrupted(s, pattern, o, end)
  }

  /** What the controller does about any other exception. */
  function Interrupted(s: Record, pattern: seq<(nat, nat)>, o: Outcome, end: int): Record {
    match o
    case StartConflict(message) => Postponed(s, pattern, message, PG_RETRY, end)
    case Concurrency(message) => Postponed(s, pattern, message, PG_RETRY, end)
    case NothingToDo(message) => s.(state := Done, excInfo := None, dateDone := Some(end),
                                    result := Stored(Some(if message != "" then message else "nothing to do")))
    case StartCrashes(trace) => s.(state := Failed, excInfo := Stored(Some(trace)))
    case Crashes(trace) => s.(state := Failed, excInfo := Stored(Some(trace)))
    case _ => s
  }

  /** The commit of a job that is done. */
  function Committed(done: Record, pattern: seq<(nat, nat)>, o: Outcome, end: int): Record {
    match o
    case CommitConflict(_, message) => Postponed(done, pattern, message, PG_RETRY, end)
    case CommitCrashes(_, trace) => done.(state := Failed, excInfo := Stored(Some(trace)))
    case _ => done
  }

  /** `retry_postpone`: postpone, set back to pending without resetting the count, store. */
  function Postponed(s: Record, pattern: seq<(nat, nat)>, message: string, seconds: nat, end: int): Record {
    s.(state := Pending, dateEnqueued := None, dateStarted := None, excInfo := None, result := Stored(Some(message)),
       eta := Some(end + RetrySeconds(pattern, s.retry, seconds)))
  }

  class Runner {
    var row: Record

    constructor (row: Record)
      ensures this.row == row
    {
      this.row := row;
    }

    method RetryPostpone(job: Job, message: string, seconds: nat, now: int)
      requires forall i, j :: 0 <= i < j < |job.retryPattern| ==> job.retryPattern[i].0 < job.retryPattern[j].0
      modifies job, this
      ensures row == Postponed(old(job.Fields()), job.retryPattern, message, seconds, now)
    {
      job.Postpone(now, message, seconds);
      job.SetPending(None, false);
      row := job.Store();
    }

    /** The commit of a job that is done, and what follows when it fails. */
    method CommitDone(job: Job, o: Outcome, now: int)
      requires forall i, j :: 0 <= i < j < |job.retryPattern| ==> job.retryPattern[i].0 < job.retryPattern[j].0
      requires job.excInfo == None
      modifies job, this
      ensures row == Committed(old(job.Fields()).(result := Stored(old(job.result))), job.retryPattern, o, now)
    {
      if o.CommitConflict? {
        RetryPostpone(job, o.message, PG_RETRY, now);
      } else {
        if o.CommitCrashes? {
          job.SetFailed(Some(o.trace));
        }
        row := job.Store();
      }
    }

    /** The `except` clauses for a serialization failure, for nothing to do, and for everything else. */
    method HandleException(job: Job, o: Outcome, now: int)
      requires forall i, j :: 0 <= i < j < |job.retryPattern| ==> job.retryPattern[i].0 < job.retryPattern[j].0
      requires FailsToStart(o) || o.Concurrency? || o.NothingToDo? || o.Crashes?
      modifies job, this
      ensures row == Interrupted(old(job.Fields()).(result := Stored(old(job.result)),
                                                    excInfo := Stored(old(job.excInfo))),
                                 job.retryPattern, o, now)
    {
      if o.StartConflict? || o.Concurrency? {
        RetryPostpone(job, o.message, PG_RETRY, now);
      } else {
        if o.NothingToDo? {
          job.SetDone(now, Some(if o.message != "" then o.message else "nothing to do"));
        } else {
          job.SetFailed(Some(o.trace));
        }
        row := job.Store();
      }
    }

    /** `runjob`: only an enqueued row is run; `start` and `end` are the clock before and after. */
    method RunJob(pattern: seq<(nat, nat)>, o: Outcome, start: int, end: int)
      requires forall i, j :: 0 <= i < j < |pattern| ==> pattern[i].0 < pattern[j].0
      modifies this
      ensures row == if old(row).state == Enqueued then Attempt(old(row), pattern, o, start, end) else old(row)
    {
      if row.state != Enqueued { return; }
      var job := new Job(row.maxRetries, pattern);
      job.LoadFrom(row);
      job.SetStarted(start);
      row := job.Store();
      if FailsToStart(o) {
        HandleException(job, o, end);
        return;
      }
      var p := job.Perform(o);
      match p
      case Completed =>
        job.SetDone(end, None);
        CommitDone(job, o, end);
      case RaisesRetryable => RetryPostpone(job, o.message, o.seconds, end);
      case RaisesFailed =>
        job.SetFailed(Some("Max. retries reached"));
        row := job.Store();
      case RaisesOther => HandleException(job, o, end);
    }

    /** `set_job_enqueued`, which writes the row directly. */
    method SetJobEnqueued(now: int)
      modifies this
      ensures row == old(row).(state := Enqueued, dateEnqueued := Some(now))
    {
      row := row.(state := Enqueued, dateEnqueued := Some(now));
    }

    /** One turn of `run_jobs`: a pending job is enqueued, and the controller is asked to run it. */
    method RunPending(pattern: seq<(nat, nat)>, o: Outcome, start: int, end: int)
      requires forall i, j :: 0 <= i < j < |pattern| ==> pattern[i].0 < pattern[j].0
      modifies this
      ensures row == Next(old(row), pattern, Run(o, start, end))
    {
      if row.state == Pending {
        SetJobEnqueued(start);
        RunJob(pattern, o, start, end);
      }
    }

    /** `requeue`. */
    method RequeueJob(pattern: seq<(nat, nat)>)
      modifies this
      ensures row == Next(old(row), pattern, Requeue)
    {
      var job := new Job(row.maxRetries, pattern);
      job.LoadFrom(row);
      job.SetPending(None, true);
      row := job.Store();
    }
  }

  /** Storing and loading again changes nothing: rows are fixed points of the round trip. */
  method StoreThenLoad(job: Job, other: Job)
    requires job != other
    modifies other
    ensures other.Fields() == job.Fields().(result := Stored(job.result), excInfo := Stored(job.excInfo))
  {
    var row := job.Store();
    other.LoadFrom(row);
  }

  // ----- Runs of attempts and requeues -----

  /** What happens to a job: the runner enqueues and runs it if it is pending, or a user requeues it. */
  datatype Event = Run(outcome: Outcome, start: int, end: int) | Requeue

  function Next(r: Record, pattern: seq<(nat, nat)>, e: Event): Record {
    match e
    case Requeue => r.(state := Pending, dateEnqueued := None, dateStarted := None, retry := 0,
                       result := Stored(r.result), excInfo := Stored(r.excInfo))
    case Run(o, start, end) =>
      if r.state == Pending
      then Attempt(r.(state := Enqueued, dateEnqueued := Some(start)), pattern, o, start, end)
      else r
  }

  // ----- How one run ends -----

  /** The last attempt that the limit admits asks for another one. */
  predicate LimitReached(r: Record, o: Outcome) {
    o.Retryable? && !o.ignoreRetry && r.maxRetries > 0 && r.retry + 1 >= r.maxRetries
  }

  /** A row as `store` writes it: no empty texts. */
  predicate WellStored(r: Record) { r.result != Some("") && r.excInfo != Some("") }

  /**
    A run of a pending job: done exactly if its function returned and this was committed, or there was
    nothing to do; failed exactly if anything but a serialization failure stopped it, or the limit was
    reached; pending again otherwise.
  */
  lemma RunEnds(r: Record, pattern: seq<(nat, nat)>, o: Outcome, start: int, end: int)
    requires r.state == Pending
    ensures var a := Next(r, pattern, Run(o, start, end));
            && (a.state == Done <==> o.Returns? || o.NothingToDo?)
            && (a.state == Failed <==> o.Crashes? || o.StartCrashes? || o.CommitCrashes? || LimitReached(r, o))
            && (a.state == Pending <==>
                  o.Concurrency? || o.StartConflict? || o.CommitConflict? || (o.Retryable? && !LimitReached(r, o)))
            && a.maxRetries == r.maxRetries
            && a.retry == (if o.StartConflict? || o.StartCrashes? || (o.Retryable? && o.ignoreRetry) then r.retry
                           else r.retry + 1)
  { }

  /** A job that is done holds its value, or the message; the traceback of earlier failures is gone. */
  lemma DoneRow(r: Record, pattern: seq<(nat, nat)>, o: Outcome, start: int, end: int)
    requires r.state == Pending && (o.Returns? || o.NothingToDo?)
    ensures var a := Next(r, pattern, Run(o, start, end));
            && a.excInfo == None && a.dateDone == Some(end) && a.dateStarted == Some(start) && a.eta == r.eta
            && (o.Returns? ==> a.result == if o.value == "" then None else Some(o.value))
            && (o.NothingToDo? ==> a.result == Some(if o.message == "" then "nothing to do" else o.message))
  { }

  /** A job that failed holds the traceback; its result only changes if the function had returned. */
  lemma FailedRow(r: Record, pattern: seq<(nat, nat)>, o: Outcome, start: int, end: int)
    requires r.state == Pending && WellStored(r)
    requires o.Crashes? || o.StartCrashes? || o.CommitCrashes? || LimitReached(r, o)
    ensures var a := Next(r, pattern, Run(o, start, end));
            && a.dateStarted == Some(start) && a.eta == r.eta
            && (o.Retryable? ==> a.excInfo == Some("Max. retries reached"))
            && (!o.Retryable? ==> a.excInfo == if o.trace == "" then None else Some(o.trace))
            && (o.CommitCrashes? ==>
                  a.result == (if o.value == "" then None else Some(o.value)) && a.dateDone == Some(end))
            && (!o.CommitCrashes? ==> a.result == r.result && a.dateDone == r.dateDone)
  { }

  /** Entry `i` of the pattern is the last whose count is reached. */
  predicate Reached(pattern: seq<(nat, nat)>, retry: nat, i: nat) {
    i < |pattern| && pattern[i].0 <= retry && (i + 1 < |pattern| ==> retry < pattern[i + 1].0)
  }

  /**
    A postponed job holds the message and waits: five seconds after a serialization failure, the seconds
    that the exception asks for, or those of the retry pattern at its count of attempts.
  */
  lemma PostponedRow(r: Record, pattern: seq<(nat, nat)>, o: Outcome, start: int, end: int, i: nat)
    requires r.state == Pending && forall i, j :: 0 <= i < j < |pattern| ==> pattern[i].0 < pattern[j].0
    requires o.Concurrency? || o.StartConflict? || o.CommitConflict? || (o.Retryable? && !LimitReached(r, o))
    ensures var a := Next(r, pattern, Run(o, start, end));
            && a.excInfo == None && a.dateStarted == None && a.dateEnqueued == None
            && a.result == (if o.message == "" then None else Some(o.message))
            && a.dateDone == (if o.CommitConflict? then Some(end) else r.dateDone)
            && (!o.Retryable? ==> a.eta == Some(end + 5))
            && (o.Retryable? && o.seconds != 0 ==> a.eta == Some(end + o.seconds))
            && (o.Retryable? && o.seconds == 0 && Reached(pattern, a.retry, i) ==> a.eta == Some(end + pattern[i].1))
            && (o.Retryable? && o.seconds == 0 && (pattern != [] ==> a.retry < pattern[0].0) ==>
                  a.eta == Some(end + 600))
  {
    RetrySecondsMeaning(pattern, Next(r, pattern, Run(o, start, end)).retry, i);
  }

  /** A requeued job starts from nothing but keeps what it left; a job that is not pending is not run. */
  lemma RequeuedRow(r: Record, pattern: seq<(nat, nat)>)
    requires WellStored(r)
    ensures Next(r, pattern, Requeue)
         == Record(Pending, 0, r.maxRetries, r.result, r.excInfo, r.eta, None, None, r.dateDone)
    ensures forall o, start, end :: r.state != Pending ==> Next(r, pattern, Run(o, start, end)) == r
  { }

  function After(r: Record, pattern: seq<(nat, nat)>, es: seq<Event>): Record {
    if es == [] then r else Next(After(r, pattern, es[..|es| - 1]), pattern, es[|es| - 1])
  }

  /** Attempts made since the last requeue: all that are counted, or only the serialization failures. */
  function Attempts(r: Record, pattern: seq<(nat, nat)>, es: seq<Event>, onlyConcurrency: bool): nat {
    if es == [] then 0
    else
      var front := es[..|es| - 1];
      match es[|es| - 1]
      case Requeue => 0
      case Run(o, _, _) =>
        Attempts(r, pattern, front, onlyConcurrency)
        + if After(r, pattern, front).state == Pending
          && (if onlyConcurrency then SerializationFailure(o) else Counted(o)) then 1 else 0
  }

  /** Over every run, `retry` is the number of counted attempts since the last reset. */
  lemma {:induction false} RetryCountsAttempts(r: Record, pattern: seq<(nat, nat)>, es: seq<Event>)
    requires r.state == Pending && r.retry == 0
    ensures After(r, pattern, es).retry == Attempts(r, pattern, es, false)
    ensures After(r, pattern, es).maxRetries == r.maxRetries
    ensures After(r, pattern, es).state in {Pending, Done, Failed}
    decreases |es|
  {
    if es != [] {
      RetryCountsAttempts(r, pattern, es[..|es| - 1]);
    }
  }

  /**
    With a limit m > 0 a job makes at most m counted attempts since its last reset beyond those that
    ended in a serialization failure, and fewer than m beyond them while it is still pending:
    such failures are postponed without looking at the limit.
  */
  lemma {:induction false} AttemptsBounded(r: Record, pattern: seq<(nat, nat)>, es: seq<Event>)
    requires r.state == Pending && r.retry == 0 && r.maxRetries > 0
    ensures Attempts(r, pattern, es, false) <= r.maxRetries + Attempts(r, pattern, es, true)
    ensures After(r, pattern, es).state == Pending ==>
              Attempts(r, pattern, es, false) < r.maxRetries + Attempts(r, pattern, es, true)
    decreases |es|
  {
    if es != [] {
      var front := es[..|es| - 1];
      AttemptsBounded(r, pattern, front);
      RetryCountsAttempts(r, pattern, front);
    }
  }

  /** Without serialization failures: never more than m counted attempts, and none is left pending after m. */
  lemma LimitHolds(r: Record, pattern: seq<(nat, nat)>, es: seq<Event>)
    requires r.state == Pending && r.retry == 0 && r.maxRetries > 0
    requires forall e :: e in es && e.Run? ==> !SerializationFailure(e.outcome)
    ensures Attempts(r, pattern, es, false) <= r.maxRetries
    ensures Attempts(r, pattern, es, false) == r.maxRetries ==> After(r, pattern, es).state in {Done, Failed}
  {
    NoConcurrency(r, pattern, es);
    AttemptsBounded(r, pattern, es);
    RetryCountsAttempts(r, pattern, es);
  }

  lemma {:induction false} NoConcurrency(r: Record, pattern: seq<(nat, nat)>, es: seq<Event>)
    requires forall e :: e in es && e.Run? ==> !SerializationFailure(e.outcome)
    ensures Attempts(r, pattern, es, true) == 0
    decreases |es|
  {
    if es != [] {
      assert es[|es| - 1] in es;
      assert forall e :: e in es[..|es| - 1] ==> e in es;
      NoConcurrency(r, pattern, es[..|es| - 1]);
    }
  }

  /** The history up to each moment: a pending job has attempts left. */
  ghost predicate WithinLimit(r: Record, pattern: seq<(nat, nat)>, es: seq<Event>) {
    forall n :: 0 <= n <= |es| && After(r, pattern, es[..n]).state == Pending ==>
      Attempts(r, pattern, es[..n], false) < r.maxRetries
  }

  /** A serialization failure postpones a job whose attempts are used up. */
  predicate Escapes(before: Record, e: Event) {
    e.Run? && SerializationFailure(e.outcome) && before.state == Pending && before.retry + 1 >= before.maxRetries
  }

  ghost predicate NoEscape(r: Record, pattern: seq<(nat, nat)>, es: seq<Event>) {
    forall n :: 0 <= n < |es| ==> !Escapes(After(r, pattern, es[..n]), es[n])
  }

  /** One step from a moment within the limit. */
  lemma LimitStep(before: Record, pattern: seq<(nat, nat)>, e: Event)
    requires before.maxRetries > 0 && (before.state == Pending ==> before.retry < before.maxRetries)
    ensures var after := Next(before, pattern, e);
            (after.state == Pending ==> after.retry < before.maxRetries) <==> !Escapes(before, e)
  { }

  lemma WithinFront(r: Record, pattern: seq<(nat, nat)>, es: seq<Event>)
    requires es != []
    ensures var front := es[..|es| - 1];
            && (WithinLimit(r, pattern, es) <==>
                WithinLimit(r, pattern, front)
                && (After(r, pattern, es).state == Pending ==> Attempts(r, pattern, es, false) < r.maxRetries))
            && (NoEscape(r, pattern, es) <==>
                NoEscape(r, pattern, front) && !Escapes(After(r, pattern, front), es[|es| - 1]))
  {
    var front := es[..|es| - 1];
    assert es[..|es|] == es;
    forall n | 0 <= n <= |front| ensures front[..n] == es[..n] { }
    forall n | 0 <= n < |front| ensures front[n] == es[n] { }
    if WithinLimit(r, pattern, front)
      && (After(r, pattern, es).state == Pending ==> Attempts(r, pattern, es, false) < r.maxRetries) {
      forall n | 0 <= n <= |es| && After(r, pattern, es[..n]).state == Pending
        ensures Attempts(r, pattern, es[..n], false) < r.maxRetries
      {
        if n < |es| { assert front[..n] == es[..n]; }
      }
    }
  }

  /**
    Exactly when the limit holds: at every moment of a history a pending job has made fewer than m
    counted attempts, if and only if no attempt that used them up ended in a serialization failure.
  */
  lemma {:induction false} LimitHoldsIff(r: Record, pattern: seq<(nat, nat)>, es: seq<Event>)
    requires r.state == Pending && r.retry == 0 && r.maxRetries > 0
    ensures WithinLimit(r, pattern, es) <==> NoEscape(r, pattern, es)
    decreases |es|
  {
    if es == [] {
      assert es[..0] == [];
    } else {
      var front := es[..|es| - 1];
      LimitHoldsIff(r, pattern, front);
      WithinFront(r, pattern, es);
      RetryCountsAttempts(r, pattern, front);
      RetryCountsAttempts(r, pattern, es);
      if WithinLimit(r, pattern, front) {
        assert front[..|front|] == front;
        LimitStep(After(r, pattern, front), pattern, es[|es| - 1]);
      }
    }
  }

  function Failures(n: nat): seq<Event> { seq(n, i => Run(Concurrency("serialize"), 0, 0)) }

  /** With serialization failures a job with limit m can make any number of attempts and stay pending. */
  lemma {:induction false} LimitEscaped(r: Record, pattern: seq<(nat, nat)>, n: nat)
    requires r.state == Pending && r.retry == 0
    ensures Attempts(r, pattern, Failures(n), false) == n && After(r, pattern, Failures(n)).state == Pending
    decreases n
  {
    if n > 0 {
      assert Failures(n)[..n - 1] == Failures(n - 1);
      LimitEscaped(r, pattern, n - 1);
    }
  }

  // ----- De-duplication by identity key -----

  /** A job in the table; `state` is None once the row is deleted. */
  datatype Entry = Entry(key: Option<string>, state: Option<State>)

  predicate IsActive(e: Entry, key: string) {
    e.key == Some(key) && (e.state == Some(Pending) || e.state == Some(Enqueued))
  }

  function Active(jobs: seq<Entry>, key: string): nat {
    if jobs == [] then 0 else Active(jobs[..|jobs| - 1], key) + if IsActive(jobs[|jobs| - 1], key) then 1 else 0
  }

  class JobTable {
    var jobs: seq<Entry>

    constructor ()
      ensures jobs == []
    {
      jobs := [];
    }

    /** `enqueue`: with a key, a pending or enqueued job of that key is returned instead of a new one. */
    method Enqueue(key: Option<string>) returns (id: nat)
      modifies this
      ensures id < |jobs| && jobs[id].key == key
      ensures jobs == NextTable(old(jobs), Enqueues(key))
      ensures jobs == old(jobs) ==> key.Some? && IsActive(jobs[id], key.value)
      ensures key.Some? && key.value != "" ==>
                Active(jobs, key.value) == if Active(old(jobs), key.value) > 0 then Active(old(jobs), key.value) else 1
    {
      if key.Some? && key.value != "" {
        var i := 0;
        while i < |jobs|
          invariant 0 <= i <= |jobs|
          invariant forall j :: 0 <= j < i ==> !IsActive(jobs[j], key.value)
        {
          if IsActive(jobs[i], key.value) {
            ActiveIff(jobs, key.value);
            return i;
          }
          i := i + 1;
        }
        ActiveIff(jobs, key.value);
      }
      if key.Some? { ActiveSnoc(jobs, Entry(key, Some(Pending)), key.value); }
      jobs := jobs + [Entry(key, Some(Pending))];
      return |jobs| - 1;
    }

    /** Any `set_*` method followed by `store`, or (None) the deletion of the row. */
    method ChangeState(id: nat, state: Option<State>)
      requires id < |jobs|
      modifies this
      ensures jobs == NextTable(old(jobs), Changes(id, state))
      ensures forall key ::
                Active(jobs, key) == Active(old(jobs), key) - (if IsActive(old(jobs)[id], key) then 1 else 0)
                                     + (if IsActive(jobs[id], key) then 1 else 0)
    {
      forall key: string
        ensures Active(jobs[id := jobs[id].(state := state)], key)
                == Active(jobs, key) - (if IsActive(jobs[id], key) then 1 else 0)
                   + (if IsActive(jobs[id].(state := state), key) then 1 else 0)
      {
        ActiveUpdate(jobs, id, jobs[id].(state := state), key);
      }
      jobs := jobs[id := jobs[id].(state := state)];
    }
  }

  function EnqueueSpec(jobs: seq<Entry>, key: Option<string>): seq<Entry> {
    if key.Some? && key.value != "" && Active(jobs, key.value) > 0 then jobs else jobs + [Entry(key, Some(Pending))]
  }

  lemma {:induction false} ActiveIff(jobs: seq<Entry>, key: string)
    ensures Active(jobs, key) > 0 <==> exists i :: 0 <= i < |jobs| && IsActive(jobs[i], key)
    decreases |jobs|
  {
    if jobs != [] {
      var n := |jobs| - 1;
      ActiveIff(jobs[..n], key);
      if i :| 0 <= i < |jobs| && IsActive(jobs[i], key) {
        if i < n { assert IsActive(jobs[..n][i], key); }
      }
      if i :| 0 <= i < n && IsActive(jobs[..n][i], key) { assert IsActive(jobs[i], key); }
    }
  }

  lemma {:induction false} ActiveUpdate(jobs: seq<Entry>, id: nat, e: Entry, key: string)
    requires id < |jobs|
    ensures Active(jobs[id := e], key)
            == Active(jobs, key) - (if IsActive(jobs[id], key) then 1 else 0) + (if IsActive(e, key) then 1 else 0)
    decreases |jobs|
  {
    var n := |jobs| - 1;
    if id == n {
      assert jobs[id := e][..n] == jobs[..n];
    } else {
      assert jobs[id := e][..n] == jobs[..n][id := e];
      ActiveUpdate(jobs[..n], id, e, key);
    }
  }

  datatype Call = Enqueues(key: Option<string>) | Changes(id: nat, state: Option<State>)

  function NextTable(jobs: seq<Entry>, c: Call): seq<Entry> {
    match c
    case Enqueues(key) => EnqueueSpec(jobs, key)
    case Changes(id, state) => if id < |jobs| then jobs[id := jobs[id].(state := state)] else jobs
  }

  function TableAfter(cs: seq<Call>): seq<Entry> {
    if cs == [] then [] else NextTable(TableAfter(cs[..|cs| - 1]), cs[|cs| - 1])
  }

  /** A job of this key is set to pending or enqueued from another state. */
  predicate IsRevival(jobs: seq<Entry>, c: Call, key: string) {
    c.Changes? && c.id < |jobs| && !IsActive(jobs[c.id], key) && IsActive(jobs[c.id].(state := c.state), key)
  }

  /** How often a job of this key was set back to pending or enqueued from another state. */
  function Revivals(cs: seq<Call>, key: string): nat {
    if cs == [] then 0
    else
      var c, jobs := cs[|cs| - 1], TableAfter(cs[..|cs| - 1]);
      Revivals(cs[..|cs| - 1], key) + if IsRevival(jobs, c, key) then 1 else 0
  }

  /** In every run of calls the active jobs of a key are at most one more than the revivals of jobs of that key. */
  lemma {:induction false} ActiveBounded(cs: seq<Call>, key: string)
    requires key != ""
    ensures Active(TableAfter(cs), key) <= 1 + Revivals(cs, key)
    decreases |cs|
  {
    if cs != [] {
      var front, c := cs[..|cs| - 1], cs[|cs| - 1];
      ActiveBounded(front, key);
      var jobs := TableAfter(front);
      match c
      case Enqueues(k) =>
        assert (jobs + [Entry(k, Some(Pending))])[..|jobs|] == jobs;
      case Changes(id, state) =>
        if id < |jobs| { ActiveUpdate(jobs, id, jobs[id].(state := state), key); }
    }
  }

  /** The history up to each moment: at most one job of the key is pending or enqueued. */
  ghost predicate AtMostOne(cs: seq<Call>, key: string) {
    forall n :: 0 <= n <= |cs| ==> Active(TableAfter(cs[..n]), key) <= 1
  }

  /** Every revival happens while no job of the key is pending or enqueued. */
  ghost predicate AloneRevived(cs: seq<Call>, key: string) {
    forall n :: 0 <= n < |cs| && IsRevival(TableAfter(cs[..n]), cs[n], key) ==> Active(TableAfter(cs[..n]), key) == 0
  }

  lemma ActiveStep(jobs: seq<Entry>, c: Call, key: string)
    requires key != "" && Active(jobs, key) <= 1
    ensures Active(NextTable(jobs, c), key) <= 1 <==> (IsRevival(jobs, c, key) ==> Active(jobs, key) == 0)
  {
    match c
    case Enqueues(k) => ActiveSnoc(jobs, Entry(k, Some(Pending)), key);
    case Changes(id, state) =>
      if id < |jobs| { ActiveUpdate(jobs, id, jobs[id].(state := state), key); }
  }

  lemma OneFront(cs: seq<Call>, key: string)
    requires cs != []
    ensures var front := cs[..|cs| - 1];
            && (AtMostOne(cs, key) <==> AtMostOne(front, key) && Active(TableAfter(cs), key) <= 1)
            && (AloneRevived(cs, key) <==>
                AloneRevived(front, key)
                && (IsRevival(TableAfter(front), cs[|cs| - 1], key) ==> Active(TableAfter(front), key) == 0))
  {
    var front := cs[..|cs| - 1];
    assert cs[..|cs|] == cs;
    forall n | 0 <= n <= |front| ensures front[..n] == cs[..n] { }
    forall n | 0 <= n < |front| ensures front[n] == cs[n] { }
    if AtMostOne(front, key) && Active(TableAfter(cs), key) <= 1 {
      forall n | 0 <= n <= |cs| ensures Active(TableAfter(cs[..n]), key) <= 1 {
        if n < |cs| { assert front[..n] == cs[..n]; }
      }
    }
  }

  /**
    Exactly when a key stays unique: at every moment at most one job of the key is pending or
    enqueued, if and only if every revival of a job of the key happens while none is.
  */
  lemma {:induction false} UniqueIff(cs: seq<Call>, key: string)
    requires key != ""
    ensures AtMostOne(cs, key) <==> AloneRevived(cs, key)
    decreases |cs|
  {
    if cs == [] {
      assert cs[..0] == [];
    } else {
      var front := cs[..|cs| - 1];
      UniqueIff(front, key);
      OneFront(cs, key);
      if AtMostOne(front, key) {
        assert front[..|front|] == front;
        ActiveStep(TableAfter(front), cs[|cs| - 1], key);
      }
    }
  }

  /**
    The bound is reached: in any table, a job that is set back to pending while its successor waits
    makes a second active job of the key.
  */
  lemma RevivalMakesTwo(cs: seq<Call>, key: string, id: nat)
    requires key != "" && id < |TableAfter(cs)| && TableAfter(cs)[id].key == Some(key)
             && Active(TableAfter(cs), key) == 0
    ensures var after := (cs + [Enqueues(Some(key))]) + [Changes(id, Some(Pending))];
            Active(TableAfter(after), key) == 2 && Revivals(after, key) == Revivals(cs, key) + 1
  {
    NoneActive(TableAfter(cs), id, key);
    FirstEnqueued(cs, key);
    Changed(cs + [Enqueues(Some(key))], key, id, Pending);
  }

  lemma {:induction false} NoneActive(jobs: seq<Entry>, id: nat, key: string)
    requires id < |jobs| && Active(jobs, key) == 0
    ensures !IsActive(jobs[id], key)
    decreases |jobs|
  {
    if id < |jobs| - 1 { NoneActive(jobs[..|jobs| - 1], id, key); }
  }

  lemma FirstEnqueued(cs: seq<Call>, key: string)
    requires key != "" && Active(TableAfter(cs), key) == 0
    ensures var after := cs + [Enqueues(Some(key))];
            && TableAfter(after) == TableAfter(cs) + [Entry(Some(key), Some(Pending))]
            && Active(TableAfter(after), key) == 1 && Revivals(after, key) == Revivals(cs, key)
  {
    CallsSnoc(cs, Enqueues(Some(key)), key);
    ActiveSnoc(TableAfter(cs), Entry(Some(key), Some(Pending)), key);
  }

  lemma Changed(cs: seq<Call>, key: string, id: nat, state: State)
    requires id < |TableAfter(cs)| && TableAfter(cs)[id].key == Some(key)
    ensures var c := Changes(id, Some(state));
            var jobs, after := TableAfter(cs), TableAfter(cs + [c]);
            && after == jobs[id := jobs[id].(state := Some(state))]
            && Active(after, key) == Active(jobs, key) - (if IsActive(jobs[id], key) then 1 else 0)
                                     + (if IsActive(after[id], key) then 1 else 0)
            && Revivals(cs + [c], key) == Revivals(cs, key) + if IsRevival(jobs, c, key) then 1 else 0
  {
    var jobs := TableAfter(cs);
    CallsSnoc(cs, Changes(id, Some(state)), key);
    ActiveUpdate(jobs, id, jobs[id].(state := Some(state)), key);
  }

  /** Such tables exist: where a key has no active job, enqueue one and start it. */
  lemma StartedJob(cs: seq<Call>, key: string)
    requires key != "" && Active(TableAfter(cs), key) == 0
    ensures var id := |TableAfter(cs)|;
            var after := (cs + [Enqueues(Some(key))]) + [Changes(id, Some(Started))];
            && id < |TableAfter(after)| && TableAfter(after)[id].key == Some(key)
            && Active(TableAfter(after), key) == 0 && Revivals(after, key) == Revivals(cs, key)
  {
    FirstEnqueued(cs, key);
    Changed(cs + [Enqueues(Some(key))], key, |TableAfter(cs)|, Started);
  }

  /** It happens for every key without an active job: enqueue, start, enqueue the successor, requeue the first. */
  lemma RequeuedBesideSuccessor(cs: seq<Call>, key: string)
    requires key != "" && Active(TableAfter(cs), key) == 0
    ensures var started := (cs + [Enqueues(Some(key))]) + [Changes(|TableAfter(cs)|, Some(Started))];
            var after := (started + [Enqueues(Some(key))]) + [Changes(|TableAfter(cs)|, Some(Pending))];
            Active(TableAfter(after), key) == 2 && Revivals(after, key) == Revivals(cs, key) + 1
  {
    StartedJob(cs, key);
    RevivalMakesTwo((cs + [Enqueues(Some(key))]) + [Changes(|TableAfter(cs)|, Some(Started))], key, |TableAfter(cs)|);
  }

  lemma ActiveSnoc(jobs: seq<Entry>, e: Entry, key: string)
    ensures Active(jobs + [e], key) == Active(jobs, key) + if IsActive(e, key) then 1 else 0
  {
    assert (jobs + [e])[..|jobs|] == jobs;
  }

  lemma CallsSnoc(cs: seq<Call>, c: Call, key: string)
    ensures TableAfter(cs + [c]) == NextTable(TableAfter(cs), c)
    ensures Revivals(cs + [c], key) == Revivals(cs, key) + if IsRevival(TableAfter(cs), c, key) then 1 else 0
  {
    assert (cs + [c])[..|cs|] == cs;
  }

  /** A job is added unless it has a key and a job of that key is pending or enqueued; then nothing changes. */
  lemma EnqueueOutcome(jobs: seq<Entry>, key: Option<string>)
    ensures NextTable(jobs, Enqueues(key))
         == if key.Some? && key.value != ""
               && exists i :: 0 <= i < |jobs| && jobs[i].key == key
                              && (jobs[i].state == Some(Pending) || jobs[i].state == Some(Enqueued))
            then jobs else jobs + [Entry(key, Some(Pending))]
  {
    if key.Some? { ActiveIff(jobs, key.value); }
  }
}
