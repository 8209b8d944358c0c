/** The desktop front end of frontend/app.py: links typed into a form become
    jobs on a FIFO queue, one background worker takes them off the queue in
    order until it meets the `None` sentinel, and every job yields a STARTED
    event followed by a DONE event that carries a `{status, result}` record.

    The worker thread is modelled sequentially: `RunWorker` is the thread
    running until it blocks on an empty queue or takes the sentinel.  The
    outcome of the k-th job a worker run hands to the backend is an oracle. */
module Frontend {
  import opened Common
  import opened PyStr

  // ---------------------------------------------------------------------------
  // process_job
  // ---------------------------------------------------------------------------

  /** The `"status"` string of a record: `"done"` or `"error"`. */
  datatype Status = Done | Error

  /** The `"result"` of a record: an error message, or what the pipeline returned. */
  datatype JobResult = Message(text: string) | Pipeline(value: Option<string>)

  /** The `{status, result}` dictionary `process_job` returns. */
  datatype JobRecord = JobRecord(status: Status, result: JobResult)

  /** Whether the backend import at start-up succeeded, and if not, `str(e)`
      of its exception. */
  datatype BackendState = Unavailable(importError: string) | Available

  const UnavailablePrefix: string := "Backend not available: "

  /** `process_job(job)`, given the outcome of running the pipeline on the job
      (its return value, or the exception it raised). */
  function ProcessJob(backend: BackendState, outcome: Call<Option<string>>): (r: JobRecord)
    ensures r.status == Error <==> backend.Unavailable? || outcome.Raised?
    ensures backend.Unavailable? ==> r.result == Message(UnavailablePrefix + backend.importError)
    ensures backend.Available? && outcome.Raised? ==> r.result == Message(outcome.error)
    ensures r.status == Done ==> outcome.Returned? && r.result == Pipeline(outcome.value)
  {
    if backend.Unavailable? then JobRecord(Error, Message(UnavailablePrefix + backend.importError))
    else match outcome
      case Returned(res) => JobRecord(Done, Pipeline(res))
      case Raised(e) => JobRecord(Error, Message(e))
  }

  // ---------------------------------------------------------------------------
  // worker_loop
  // ---------------------------------------------------------------------------

  /** The values the worker writes to the window: `-JOB_STARTED-`,
      `-JOB_DONE-` and `-JOB_ERROR-`. */
  datatype Event = JobStarted(job: string) | JobDone(job: string, record: JobRecord) | JobError(job: string, error: string)

  /** The jobs ahead of the first sentinel of a queue, in queue order. */
  function Pending(queue: seq<Option<string>>): (r: seq<string>)
    ensures |r| <= |queue|
    ensures forall i :: 0 <= i < |r| ==> queue[i] == Some(r[i])
    ensures |r| < |queue| ==> queue[|r|] == None
  {
    if queue == [] || queue[0].None? then [] else [queue[0].value] + Pending(queue[1..])
  }

  /** One worker run: the events it wrote, what it left on the queue, and
      whether it took the sentinel and ended. */
  datatype WorkerRun = WorkerRun(events: seq<Event>, rest: seq<Option<string>>, stopped: bool)

  /** The worker draining `queue`; `outcome(k)` is the pipeline outcome of the
      k-th job it processes. */
  function Drain(queue: seq<Option<string>>, backend: BackendState, outcome: nat -> Call<Option<string>>, k: nat)
    : WorkerRun
    decreases |queue|
  {
    if queue == [] then WorkerRun([], [], false)
    else if queue[0].None? then WorkerRun([], queue[1..], true)
    else
      var job := queue[0].value;
      var r := Drain(queue[1..], backend, outcome, k + 1);
      WorkerRun([JobStarted(job), JobDone(job, ProcessJob(backend, outcome(k)))] + r.events, r.rest, r.stopped)
  }

  /** The events the worker writes for `jobs`: STARTED, then DONE with the
      job's record, job after job. */
  function Expected(jobs: seq<string>, backend: BackendState, outcome: nat -> Call<Option<string>>, k: nat)
    : seq<Event>
  {
    if jobs == [] then []
    else [JobStarted(jobs[0]), JobDone(jobs[0], ProcessJob(backend, outcome(k)))]
         + Expected(jobs[1..], backend, outcome, k + 1)
  }

  /** The worker writes the expected events of the jobs ahead of the first
      sentinel. */
  lemma {:induction false} DrainEvents(queue: seq<Option<string>>, backend: BackendState,
                                       outcome: nat -> Call<Option<string>>, k: nat)
    ensures Drain(queue, backend, outcome, k).events == Expected(Pending(queue), backend, outcome, k)
    decreases |queue|
  {
    if queue != [] && queue[0].Some? {
      DrainEvents(queue[1..], backend, outcome, k + 1);
      assert Pending(queue)[1..] == Pending(queue[1..]);
    }
  }

  /** Two events per job, in job order: the i-th job's STARTED at position
      2i and its DONE, with the record of the (k+i)-th outcome, right after. */
  lemma {:induction false} ExpectedAt(jobs: seq<string>, backend: BackendState,
                                      outcome: nat -> Call<Option<string>>, k: nat)
    ensures |Expected(jobs, backend, outcome, k)| == 2 * |jobs|
    ensures forall i :: 0 <= i < |jobs| ==>
      Expected(jobs, backend, outcome, k)[2 * i] == JobStarted(jobs[i])
      && Expected(jobs, backend, outcome, k)[2 * i + 1] == JobDone(jobs[i], ProcessJob(backend, outcome(k + i)))
    decreases |jobs|
  {
    if jobs != [] {
      var rest := Expected(jobs[1..], backend, outcome, k + 1);
      ExpectedAt(jobs[1..], backend, outcome, k + 1);
      var first := JobStarted(jobs[0]);
      var second := JobDone(jobs[0], ProcessJob(backend, outcome(k)));
      forall i | 1 <= i < |jobs|
        ensures ([first, second] + rest)[2 * i] == JobStarted(jobs[i])
        ensures ([first, second] + rest)[2 * i + 1] == JobDone(jobs[i], ProcessJob(backend, outcome(k + i)))
      {
        PairsShift(first, second, rest, i);
        assert jobs[1..][i - 1] == jobs[i];
        assert k + 1 + (i - 1) == k + i;
      }
    }
  }

  /** Indexing past a leading pair. */
  lemma PairsShift<T>(x: T, y: T, s: seq<T>, i: nat)
    requires 1 <= i && 2 * i + 1 < |s| + 2
    ensures ([x, y] + s)[2 * i] == s[2 * (i - 1)]
    ensures ([x, y] + s)[2 * i + 1] == s[2 * (i - 1) + 1]
  {
  }

  /** The worker ends exactly when the queue holds a sentinel, and then leaves
      what follows the first sentinel on the queue; otherwise it empties the
      queue and blocks. */
  lemma {:induction false} DrainStops(queue: seq<Option<string>>, backend: BackendState,
                                      outcome: nat -> Call<Option<string>>, k: nat)
    ensures var r := Drain(queue, backend, outcome, k);
      && (r.stopped <==> None in queue)
      && (r.stopped ==> r.rest == queue[|Pending(queue)| + 1..])
      && (!r.stopped ==> r.rest == [])
    decreases |queue|
  {
    if queue != [] && queue[0].Some? {
      DrainStops(queue[1..], backend, outcome, k + 1);
      InTail(queue, None);
      var n := |Pending(queue[1..])|;
      assert |Pending(queue)| == n + 1;
      if None in queue {
        DropAfterHead(queue, n + 1);
      }
    }
  }

  /** An element other than the head is in a sequence exactly when it is in its tail. */
  lemma InTail<T>(s: seq<T>, x: T)
    requires s != [] && s[0] != x
    ensures x in s <==> x in s[1..]
  {
    if x in s {
      var i :| 0 <= i < |s| && s[i] == x;
      assert s[1..][i - 1] == x;
    }
  }

  /** Dropping items after the head. */
  lemma DropAfterHead<T>(s: seq<T>, j: nat)
    requires 1 <= j <= |s|
    ensures s[1..][j - 1..] == s[j..]
  {
  }

  /** The jobs of the STARTED events, in order. */
  function Started(events: seq<Event>): seq<string>
  {
    if events == [] then []
    else if events[0].JobStarted? then [events[0].job] + Started(events[1..])
    else Started(events[1..])
  }

  /** Jobs start in the order they were enqueued: the worker starts exactly the
      jobs ahead of the first sentinel, each once.  `process_job` never raises,
      so no ERROR event is ever written. */
  lemma {:induction false} JobsStartInQueueOrder(queue: seq<Option<string>>, backend: BackendState,
                                                outcome: nat -> Call<Option<string>>, k: nat)
    ensures Started(Drain(queue, backend, outcome, k).events) == Pending(queue)
    ensures forall e :: e in Drain(queue, backend, outcome, k).events ==> !e.JobError?
    decreases |queue|
  {
    if queue != [] && queue[0].Some? {
      var job := queue[0].value;
      var r := Drain(queue[1..], backend, outcome, k + 1);
      JobsStartInQueueOrder(queue[1..], backend, outcome, k + 1);
      var done := JobDone(job, ProcessJob(backend, outcome(k)));
      var evs := [JobStarted(job), done] + r.events;
      assert evs[1..] == [done] + r.events;
      assert ([done] + r.events)[1..] == r.events;
      assert Started(evs) == [job] + Started([done] + r.events);
      assert Started([done] + r.events) == Started(r.events);
    }
  }

  // ---------------------------------------------------------------------------
  // The "Enviar" button
  // ---------------------------------------------------------------------------

  /** The lines of the links box: its stripped text split into lines. */
  function Links(text: string): seq<string>
  {
    SplitLines(Strip(text))
  }

  /** The jobs a list of lines yields: each line stripped, blank ones skipped. */
  function Jobs(links: seq<string>): seq<string>
  {
    if links == [] then []
    else
      var rest := Jobs(links[1..]);
      if Strip(links[0]) == [] then rest else [Strip(links[0])] + rest
  }

  /** Every job is a non-blank, already stripped link, and there are no more
      jobs than lines. */
  lemma {:induction false} JobsStripped(links: seq<string>)
    ensures |Jobs(links)| <= |links|
    ensures forall i :: 0 <= i < |Jobs(links)| ==> Jobs(links)[i] != [] && Strip(Jobs(links)[i]) == Jobs(links)[i]
  {
    if links != [] {
      JobsStripped(links[1..]);
      StripIdempotent(links[0]);
    }
  }

  /** A job comes from a non-blank line, and every non-blank line gives its
      stripped text as a job. */
  lemma {:induction false} JobsFromLines(links: seq<string>)
    ensures forall i :: 0 <= i < |links| && Strip(links[i]) != [] ==> Strip(links[i]) in Jobs(links)
    ensures forall e :: e in Jobs(links) ==> exists i :: 0 <= i < |links| && Strip(links[i]) == e
  {
    if links != [] {
      JobsFromLines(links[1..]);
      forall e | e in Jobs(links) ensures exists i :: 0 <= i < |links| && Strip(links[i]) == e {
        if e !in Jobs(links[1..]) {
          assert Strip(links[0]) == e;
        } else {
          var i :| 0 <= i < |links[1..]| && Strip(links[1..][i]) == e;
          assert Strip(links[i + 1]) == e;
        }
      }
      forall i | 0 <= i < |links| && Strip(links[i]) != [] ensures Strip(links[i]) in Jobs(links) {
        if i > 0 {
          assert links[1..][i - 1] == links[i];
        }
      }
    }
  }

  /** Every index one higher: the positions of `s` within a list with one more
      element in front. */
  function ShiftUp(s: seq<nat>): (r: seq<nat>)
    ensures |r| == |s|
    ensures forall k :: 0 <= k < |s| ==> r[k] == s[k] + 1
    ensures forall j :: j in s ==> j + 1 in r
  {
    if s == [] then [] else [s[0] + 1] + ShiftUp(s[1..])
  }

  /** `idx` lists, in increasing order, the positions of `xs` that `ys` are
      taken from, and every position whose element is not `blank` is among them. */
  ghost predicate Picks<T>(xs: seq<T>, blank: T, ys: seq<T>, idx: seq<nat>)
  {
    && |idx| == |ys|
    && (forall k :: 0 <= k < |idx| ==> idx[k] < |xs| && ys[k] == xs[idx[k]])
    && (forall k, m :: 0 <= k < m < |idx| ==> idx[k] < idx[m])
    && (forall i :: 0 <= i < |xs| && xs[i] != blank ==> i in idx)
  }

  lemma SkipFront<T>(xs: seq<T>, blank: T, ys: seq<T>, rest: seq<nat>)
    requires xs != [] && xs[0] == blank
    requires Picks(xs[1..], blank, ys, rest)
    ensures Picks(xs, blank, ys, ShiftUp(rest))
  {
    assert forall i :: 0 < i < |xs| ==> xs[i] == xs[1..][i - 1];
  }

  lemma KeepFront<T>(xs: seq<T>, blank: T, ys: seq<T>, rest: seq<nat>)
    requires xs != []
    requires Picks(xs[1..], blank, ys, rest)
    ensures Picks(xs, blank, [xs[0]] + ys, [0] + ShiftUp(rest))
  {
    assert forall i :: 0 < i < |xs| ==> xs[i] == xs[1..][i - 1];
  }

  /** The stripped lines. */
  function Stripped(links: seq<string>): (r: seq<string>)
    ensures |r| == |links| && forall i :: 0 <= i < |links| ==> r[i] == Strip(links[i])
  {
    seq(|links|, i requires 0 <= i < |links| => Strip(links[i]))
  }

  /** Jobs keep the input order, one per non-blank line: the k-th job is the
      stripped line at `idx[k]`, the indices increase, and every non-blank
      line's index is among them. */
  lemma {:induction false} JobsInOrder(links: seq<string>) returns (idx: seq<nat>)
    ensures Picks(Stripped(links), [], Jobs(links), idx)
  {
    if links == [] {
      idx := [];
    } else {
      var rest := JobsInOrder(links[1..]);
      assert Stripped(links)[1..] == Stripped(links[1..]);
      if Strip(links[0]) == [] {
        SkipFront(Stripped(links), [], Jobs(links[1..]), rest);
        idx := ShiftUp(rest);
      } else {
        KeepFront(Stripped(links), [], Jobs(links[1..]), rest);
        idx := [0] + ShiftUp(rest);
      }
    }
  }

  /** The job-list entries for enqueued jobs. */
  function Labels(jobs: seq<string>): (r: seq<string>)
    ensures |r| == |jobs|
    ensures forall i :: 0 <= i < |jobs| ==> r[i] == "Queued: " + jobs[i]
  {
    seq(|jobs|, i requires 0 <= i < |jobs| => "Queued: " + jobs[i])
  }

  /** The queue entries of a list of jobs. */
  function AsEntries(jobs: seq<string>): (r: seq<Option<string>>)
    ensures |r| == |jobs|
    ensures forall i :: 0 <= i < |jobs| ==> r[i] == Some(jobs[i])
  {
    seq(|jobs|, i requires 0 <= i < |jobs| => Some(jobs[i]))
  }

  // ---------------------------------------------------------------------------
  // Worker threads
  // ---------------------------------------------------------------------------

  /** Every worker thread started so far, by whether it is still alive; the
      newest is the one `worker_thread` refers to, and all older ones have
      ended. */
  predicate OnlyNewestAlive(threads: seq<bool>)
  {
    forall i :: 0 <= i < |threads| - 1 ==> !threads[i]
  }

  /** The number of live worker threads. */
  function AliveCount(threads: seq<bool>): nat
  {
    if threads == [] then 0 else (if threads[0] then 1 else 0) + AliveCount(threads[1..])
  }

  /** With only the newest thread possibly alive, at most one worker runs. */
  lemma {:induction false} AtMostOneWorker(threads: seq<bool>)
    requires OnlyNewestAlive(threads)
    ensures AliveCount(threads) <= 1
    ensures AliveCount(threads) == 1 <==> threads != [] && threads[|threads| - 1]
    decreases |threads|
  {
    if threads != [] {
      AtMostOneWorker(threads[1..]);
      if |threads| > 1 {
        assert !threads[0];
      }
    }
  }

  // ---------------------------------------------------------------------------
  // The window
  // ---------------------------------------------------------------------------

  const QueuedNote: string := "Links enfileirados\n"
  const StartedNote: string := "Worker iniciado\n"
  const StoppedNote: string := "Worker parado\n"

  /** The window's state: the job queue, the events written to it, the job
      list box, the log box and the worker threads. */
  class Window {
    const backend: BackendState
    var queue: seq<Option<string>>
    var events: seq<Event>
    var jobList: seq<string>
    var log: seq<string>
    var threads: seq<bool>

    predicate Valid()
      reads this
    {
      OnlyNewestAlive(threads)
    }

    /** `worker_thread and worker_thread.is_alive()`. */
    predicate WorkerAlive()
      reads this
    {
      threads != [] && threads[|threads| - 1]
    }

    constructor (backend: BackendState)
      ensures this.backend == backend && Valid() && !WorkerAlive()
      ensures queue == [] && events == [] && jobList == [] && log == [] && threads == []
    {
      this.backend := backend;
      queue := [];
      events := [];
      jobList := [];
      log := [];
      threads := [];
    }

    /** The "Enviar" button: enqueue every non-blank line of `text`, stripped,
        in order, and list each as "Queued: <link>". */
    method Submit(text: string)
      modifies this
      ensures queue == old(queue) + AsEntries(Jobs(Links(text)))
      ensures jobList == old(jobList) + Labels(Jobs(Links(text)))
      ensures log == old(log) + [QueuedNote]
      ensures events == old(events) && threads == old(threads)
    {
      var links := Links(text);
      Enqueue(links);
      var labels := Labels(Jobs(links));
      jobList := jobList + labels;
      log := log + [QueuedNote];
    }

    /** `job_queue.put(x)`. */
    method Put(x: Option<string>)
      modifies this
      ensures queue == old(queue) + [x]
      ensures jobList == old(jobList) && log == old(log)
      ensures events == old(events) && threads == old(threads)
    {
      queue := queue + [x];
    }

    /** The loop of the "Enviar" button: put each non-blank line, stripped, on
        the queue, in order. */
    method Enqueue(links: seq<string>)
      modifies this
      ensures queue == old(queue) + AsEntries(Jobs(links))
      ensures jobList == old(jobList) && log == old(log)
      ensures events == old(events) && threads == old(threads)
    {
      var i := 0;
      while i < |links|
        invariant 0 <= i <= |links|
        invariant queue + AsEntries(Jobs(links[i..])) == old(queue) + AsEntries(Jobs(links))
        invariant jobList == old(jobList) && log == old(log)
        invariant events == old(events) && threads == old(threads)
      {
        var l := Strip(links[i]);
        EnqueueStep(links, i);
        if l != [] {
          AppendAssoc(queue, [Some(l)], AsEntries(Jobs(links[i + 1..])));
          Put(Some(l));
        }
        i := i + 1;
      }
      assert AsEntries(Jobs(links[i..])) == [];
    }

    /** The "Iniciar Worker" button: a new worker starts only when none is alive. */
    method StartWorker()
      requires Valid()
      modifies this
      ensures Valid() && WorkerAlive()
      ensures old(WorkerAlive()) ==> threads == old(threads) && log == old(log)
      ensures !old(WorkerAlive()) ==> threads == old(threads) + [true] && log == old(log) + [StartedNote]
      ensures queue == old(queue) && events == old(events) && jobList == old(jobList)
    {
      if !WorkerAlive() {
        threads := threads + [true];
        log := log + [StartedNote];
      }
    }

    /** The "Parar Worker" button: put the sentinel on the queue when a worker
        is alive. */
    method StopWorker()
      modifies this
      ensures old(WorkerAlive()) ==> queue == old(queue) + [None] && log == old(log) + [StoppedNote]
      ensures !old(WorkerAlive()) ==> queue == old(queue) && log == old(log)
      ensures threads == old(threads) && events == old(events) && jobList == old(jobList)
    {
      if WorkerAlive() {
        Put(None);
        log := log + [StoppedNote];
      }
    }

    /** The live worker thread runs `worker_loop` until it takes the sentinel
        (and ends) or finds the queue empty (and blocks). */
    method RunWorker(outcome: nat -> Call<Option<string>>)
      requires Valid() && WorkerAlive()
      modifies this
      ensures var r := Drain(old(queue), backend, outcome, 0);
        events == old(events) + r.events && queue == r.rest
        && threads == old(threads)[|old(threads)| - 1 := !r.stopped]
      ensures Valid()
      ensures jobList == old(jobList) && log == old(log)
    {
      ghost var q0 := queue;
      ghost var e0 := events;
      ghost var done: seq<Event> := [];
      var k := 0;
      while queue != []
        invariant events == e0 + done && threads == old(threads)
        invariant jobList == old(jobList) && log == old(log)
        invariant var r := Drain(queue, backend, outcome, k);
          Drain(q0, backend, outcome, 0) == WorkerRun(done + r.events, r.rest, r.stopped)
        decreases |queue|
      {
        var job := queue[0];
        ghost var q := queue;
        queue := queue[1..];
        if job.None? {
          threads := threads[|threads| - 1 := false];
          return;
        }
        events := events + [JobStarted(job.value)];
        var record := ProcessJob(backend, outcome(k));
        events := events + [JobDone(job.value, record)];
        ghost var step := [JobStarted(job.value), JobDone(job.value, record)];
        AppendAssoc(done, step, Drain(queue, backend, outcome, k + 1).events);
        AppendAssoc(e0 + done, [JobStarted(job.value)], [JobDone(job.value, record)]);
        AppendAssoc(e0, done, step);
        done := done + step;
        k := k + 1;
      }
    }

    /** Closing the window ("Sair"): with a live worker, put the sentinel on
        the queue and wait until the worker has ended. */
    method Quit(outcome: nat -> Call<Option<string>>)
      requires Valid()
      modifies this
      ensures Valid() && !WorkerAlive()
      ensures old(WorkerAlive()) ==>
        var r := Drain(old(queue) + [None], backend, outcome, 0);
        events == old(events) + r.events && queue == r.rest
      ensures !old(WorkerAlive()) ==> queue == old(queue) && events == old(events) && threads == old(threads)
      ensures jobList == old(jobList) && log == old(log)
    {
      if WorkerAlive() {
        Put(None);
        DrainStops(queue, backend, outcome, 0);
        RunWorker(outcome);
      }
    }
  }

  /** The jobs of the lines from `i` on: the job of line `i`, if any, then
      those of the lines after it. */
  lemma EnqueueStep(links: seq<string>, i: nat)
    requires i < |links|
    ensures Strip(links[i]) == [] ==> AsEntries(Jobs(links[i..])) == AsEntries(Jobs(links[i + 1..]))
    ensures Strip(links[i]) != [] ==>
      AsEntries(Jobs(links[i..])) == [Some(Strip(links[i]))] + AsEntries(Jobs(links[i + 1..]))
  {
    assert links[i..][1..] == links[i + 1..];
  }
}
