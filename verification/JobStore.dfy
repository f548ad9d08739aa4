/**
 The in-memory job store and its per-job event queue (backend/core/job_store.py), and the
 stream handler that drains it (backend/routers/onboard.py).
 */
module JobStore {
  import opened Common
  import opened OnboardingModel

  type Data = map<string, string>

  /** A queued event refers to the job's own data, so only its status and time are its own. */
  datatype Event = Event(status: JobStatus, updatedAt: nat)

  datatype Job = Job(status: JobStatus, data: Data, updatedAt: nat, queue: seq<Event>)

  /** What a reader receives: the status, and the data as it is when the event is serialised. */
  datatype Delivery = Delivery(status: JobStatus, data: Data)

  predicate Terminal(s: JobStatus) {
    s in {COMPLETED, FAILED, PARTIALLY_COMPLETE}
  }

  function NewJob(initial: JobStatus, now: nat): Job {
    Job(initial, map[], now, [])
  }

  /** Data is merged, never replaced. */
  function Updated(j: Job, st: JobStatus, data: Data, now: nat): Job {
    Job(st, j.data + data, now, j.queue + [Event(st, now)])
  }

  /** One event a status, all of one time. */
  function EventsFor(statuses: seq<JobStatus>, now: nat): seq<Event> {
    seq(|statuses|, i requires 0 <= i < |statuses| => Event(statuses[i], now))
  }

  /** Old keys keep their values unless they are told anew. */
  ghost predicate Merged(before: Data, data: Data, after: Data) {
    && after.Keys == before.Keys + data.Keys
    && forall key | key in after :: after[key] == if key in data then data[key] else before[key]
  }

  /**
   What the listeners of a job have been told between two states of the store: its queue has grown by exactly these
   statuses, in this order, the last of them is its status, and `data` has been merged. Other jobs are as before.
   */
  ghost predicate Told(before: map<JobId, Job>, after: map<JobId, Job>, id: JobId, statuses: seq<JobStatus>, data: Data,
                       now: nat)
  {
    && after.Keys == before.Keys
    && (forall k | k in before && k != id :: after[k] == before[k])
    && (id in before ==>
          && after[id].queue == before[id].queue + EventsFor(statuses, now)
          && after[id].status == (if statuses == [] then before[id].status else statuses[|statuses| - 1])
          && after[id].updatedAt == (if statuses == [] then before[id].updatedAt else now)
          && Merged(before[id].data, data, after[id].data))
  }

  lemma ToldOn(a: map<JobId, Job>, b: map<JobId, Job>, c: map<JobId, Job>, id: JobId, first: seq<JobStatus>, x: Data,
               second: seq<JobStatus>, y: Data, now: nat)
    requires Told(a, b, id, first, x, now) && Told(b, c, id, second, y, now)
    ensures Told(a, c, id, first + second, x + y, now)
  {
    if id in a {
      assert EventsFor(first + second, now) == EventsFor(first, now) + EventsFor(second, now);
      assert c[id].queue == a[id].queue + (EventsFor(first, now) + EventsFor(second, now));
    }
  }

  class JobStore {
    var jobs: map<JobId, Job>

    constructor ()
      ensures jobs == map[]
    {
      jobs := map[];
    }

    method CreateJob(id: JobId, initial: JobStatus, now: nat)
      modifies this
      ensures jobs == old(jobs)[id := NewJob(initial, now)]
      ensures jobs[id].status == initial && jobs[id].data == map[] && jobs[id].queue == [] && jobs[id].updatedAt == now
    {
      jobs := jobs[id := NewJob(initial, now)];
    }

    function GetJob(id: JobId): Option<Job>
      reads this
    {
      if id in jobs then Some(jobs[id]) else None
    }

    /** A job that is not resident here is left alone. */
    method UpdateJobStatus(id: JobId, st: JobStatus, data: Data, now: nat)
      modifies this
      ensures jobs == if id in old(jobs) then old(jobs)[id := Updated(old(jobs)[id], st, data, now)] else old(jobs)
      ensures Told(old(jobs), jobs, id, [st], data, now)
    {
      if id !in jobs {
        return;
      }
      var job := jobs[id].(status := st, updatedAt := now);
      if data != map[] {
        job := job.(data := job.data + data);
      } else {
        assert job.data + data == job.data;
      }
      job := job.(queue := job.queue + [Event(st, now)]);
      jobs := jobs[id := job];
    }

    /** The reader's side of `await queue.get()`. */
    method Take(id: JobId) returns (event: Event)
      requires id in jobs && jobs[id].queue != []
      modifies this
      ensures event == old(jobs)[id].queue[0]
      ensures jobs == old(jobs)[id := old(jobs)[id].(queue := old(jobs)[id].queue[1..])]
    {
      event := jobs[id].queue[0];
      jobs := jobs[id := jobs[id].(queue := jobs[id].queue[1..])];
    }
  }

  // ---------------------------------------------------------------- a reader among writers

  /** What can happen between two awaits of the reader: an update, or the reader getting its turn. */
  datatype Turn = Write(st: JobStatus, data: Data, now: nat) | Read

  /** One put, with the keys known at that moment. */
  datatype Put = Put(event: Event, known: set<string>)

  datatype Stream = Stream(job: Job, delivered: seq<Delivery>, finished: bool)

  function Connect(j: Job): Stream {
    Stream(j, [Delivery(j.status, j.data)], false)
  }

  function Step(s: Stream, t: Turn): Stream {
    match t
    case Write(st, data, now) => s.(job := Updated(s.job, st, data, now))
    case Read =>
      if s.finished || s.job.queue == [] then s
      else
        var event := s.job.queue[0];
        Stream(s.job.(queue := s.job.queue[1..]), s.delivered + [Delivery(event.status, s.job.data)],
            Terminal(event.status))
  }

  function Steps(s: Stream, turns: seq<Turn>): Stream {
    if turns == [] then s else Step(Steps(s, turns[..|turns| - 1]), turns[|turns| - 1])
  }

  /** Everything put by the writes of a schedule, starting from data with the given keys. */
  function Puts(known: set<string>, turns: seq<Turn>): seq<Put> {
    if turns == [] then []
    else
      var before := turns[..|turns| - 1];
      match turns[|turns| - 1]
      case Write(st, data, now) => Puts(known, before) + [Put(Event(st, now), KeysAfter(known, before) + data.Keys)]
      case Read => Puts(known, before)
  }

  function KeysAfter(known: set<string>, turns: seq<Turn>): set<string> {
    if turns == [] then known
    else
      var before := KeysAfter(known, turns[..|turns| - 1]);
      if turns[|turns| - 1].Write? then before + turns[|turns| - 1].data.Keys else before
  }

  /** The job as the writes made before anyone connects leave it. */
  function Before(initial: JobStatus, now: nat, writes: seq<Turn>): Job {
    Steps(Connect(NewJob(initial, now)), writes).job
  }

  ghost predicate WritesOnly(turns: seq<Turn>) {
    forall t | t in turns :: t.Write?
  }

  /** The state of a reader against the puts so far: what it got, then what is queued, is everything, in order. */
  ghost predicate Consistent(s: Stream, puts: seq<Put>, known: set<string>) {
    && s.job.data.Keys == known
    && 1 <= |s.delivered| <= |puts| + 1
    && s.job.queue == seq(|puts| + 1 - |s.delivered|,
         k requires 0 <= k <= |puts| - |s.delivered| => puts[|s.delivered| - 1 + k].event)
    && (forall k | 0 <= k < |puts| :: puts[k].known <= known)
    && (forall k | 0 <= k < |s.delivered| - 1 ::
          s.delivered[k + 1].status == puts[k].event.status && puts[k].known <= s.delivered[k + 1].data.Keys)
    && (forall k | 1 <= k < |s.delivered| - 1 ::
          s.delivered[k].status !in {COMPLETED, FAILED, PARTIALLY_COMPLETE})
    && (s.finished <==>
          |s.delivered| > 1 && s.delivered[|s.delivered| - 1].status in {COMPLETED, FAILED, PARTIALLY_COMPLETE})
  }

  lemma StepConsistent(s: Stream, puts: seq<Put>, known: set<string>, t: Turn)
    requires Consistent(s, puts, known)
    ensures var s' := Step(s, t);
            match t
            case Write(st, data, now) => Consistent(s', puts + [Put(Event(st, now), known + data.Keys)],
                known + data.Keys)
            case Read => Consistent(s', puts, known)
  {
  }

  lemma {:induction false} StepsConsistent(s: Stream, puts: seq<Put>, known: set<string>, turns: seq<Turn>)
    requires Consistent(s, puts, known)
    ensures Consistent(Steps(s, turns), puts + Puts(known, turns), KeysAfter(known, turns))
  {
    if turns == [] {
      assert puts + Puts(known, turns) == puts;
    } else {
      var before, t := turns[..|turns| - 1], turns[|turns| - 1];
      StepsConsistent(s, puts, known, before);
      StepConsistent(Steps(s, before), puts + Puts(known, before), KeysAfter(known, before), t);
      if t.Write? {
        var put := Put(Event(t.st, t.now), KeysAfter(known, before) + t.data.Keys);
        assert puts + Puts(known, before) + [put] == puts + (Puts(known, before) + [put]);
      }
    }
  }

  /** Before anyone connects, nothing has been taken off the queue. */
  lemma {:induction false} BeforeConsistent(initial: JobStatus, now: nat, writes: seq<Turn>)
    requires WritesOnly(writes)
    ensures Consistent(Connect(Before(initial, now, writes)), Puts({}, writes), KeysAfter({}, writes))
    ensures |Steps(Connect(NewJob(initial, now)), writes).delivered| == 1
  {
    if writes == [] {
    } else {
      var before, t := writes[..|writes| - 1], writes[|writes| - 1];
      assert t in writes && forall x | x in before :: x in writes;
      BeforeConsistent(initial, now, before);
      StepConsistent(Connect(Before(initial, now, before)), Puts({}, before), KeysAfter({}, before), t);
    }
  }

  /**
   A sole reader, connecting at any time and scheduled in any way: after its snapshot it receives the
   statuses put since the job was created, in order and without gaps, stops at the first terminal one,
   and each delivery carries at least the keys known when its event was put. What it has not received
   is still queued.
   */
  lemma ReaderReceivesEverything(initial: JobStatus, now: nat, writes: seq<Turn>, turns: seq<Turn>)
    requires WritesOnly(writes)
    ensures var job := Before(initial, now, writes);
            var s := Steps(Connect(job), turns);
            var known := KeysAfter({}, writes);
            && Consistent(s, Puts({}, writes) + Puts(known, turns), KeysAfter(known, turns))
            && s.delivered[0] == Delivery(job.status, job.data)
  {
    BeforeConsistent(initial, now, writes);
    var job := Before(initial, now, writes);
    StepsConsistent(Connect(job), Puts({}, writes), KeysAfter({}, writes), turns);
    FirstDeliveryStays(Connect(job), turns);
  }

  lemma {:induction false} FirstDeliveryStays(s: Stream, turns: seq<Turn>)
    requires |s.delivered| > 0
    ensures |Steps(s, turns).delivered| > 0 && Steps(s, turns).delivered[0] == s.delivered[0]
  {
    if turns != [] {
      FirstDeliveryStays(s, turns[..|turns| - 1]);
    }
  }

  datatype StreamError = UnknownJob

  /** The handler's generator, with the turns the event loop gives it and the writers. */
  method StreamProgress(store: JobStore, id: JobId, turns: seq<Turn>) returns (r: Result<seq<Delivery>, StreamError>)
    modifies store
    ensures id !in old(store.jobs) ==> r == Err(UnknownJob) && store.jobs == old(store.jobs)
    ensures id in old(store.jobs) ==>
              var s := Steps(Connect(old(store.jobs)[id]), turns);
              r == Ok(s.delivered) && store.jobs == old(store.jobs)[id := s.job]
  {
    if store.GetJob(id).None? {
      return Err(UnknownJob);
    }
    var delivered := [Delivery(store.jobs[id].status, store.jobs[id].data)];
    var finished := false;
    for i := 0 to |turns|
      invariant id in store.jobs
      invariant Steps(Connect(old(store.jobs)[id]), turns[..i]) == Stream(store.jobs[id], delivered, finished)
      invariant store.jobs == old(store.jobs)[id := store.jobs[id]]
    {
      assert turns[..i + 1][..i] == turns[..i];
      match turns[i] {
        case Write(st, data, now) =>
          store.UpdateJobStatus(id, st, data, now);
        case Read =>
          if !finished && store.jobs[id].queue != [] {
            var event := store.Take(id);
            delivered := delivered + [Delivery(event.status, store.jobs[id].data)];
            finished := Terminal(event.status);
          }
      }
    }
    assert turns[..|turns|] == turns;
    r := Ok(delivered);
  }
}
