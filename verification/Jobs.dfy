/** Asynchronous orders: jobs, deliveries of their messages, and workers, over the transaction protocol. */
module Jobs {
  import opened Values
  import opened Serial
  import opened Requests
  import opened History
  import opened Protocol
  import opened Refinement
  import Completeness

  type JobId = nat
  type LegId = nat

  datatype JobStatus = JobPending | JobProcessing | JobCompleted | JobFailed

  datatype JobRow = JobRow(status: JobStatus, orderId: Option<OrderId>, error: Option<string>)

  type JobTable = map<JobId, JobRow>

  const NEW_JOB := JobRow(JobPending, None, None)

  function MarkedProcessing(row: JobRow): JobRow {
    row.(status := JobProcessing)
  }

  function MarkedCompleted(row: JobRow, oid: OrderId): JobRow {
    row.(status := JobCompleted, orderId := Some(oid))
  }

  function MarkedFailed(row: JobRow, message: string): JobRow {
    row.(status := JobFailed, error := Some(message))
  }

  /** What running the order did, from the worker's point of view. */
  datatype Execution = OrderPlaced(oid: OrderId) | Raised(message: string)

  /** The message a job fails with, unless it completes. */
  function FailureOf(execution: Execution, recording: Option<string>): Option<string> {
    match execution
    case Raised(message) => Some(message)
    case OrderPlaced(_) => recording
  }

  /**
   * The job tables one delivery commits, in order: a missing job is left alone; otherwise it is first seen
   * as PROCESSING, then as COMPLETED with the order or as FAILED with the message.
   */
  function Processed(jobs: JobTable, job: JobId, execution: Execution, recording: Option<string>): seq<JobTable> {
    if job !in jobs then []
    else
      var started := MarkedProcessing(jobs[job]);
      var ended := match FailureOf(execution, recording)
                   case Some(message) => MarkedFailed(started, message)
                   case None => MarkedCompleted(started, execution.oid);
      [jobs[job := started], jobs[job := ended]]
  }

  class Worker {
    var jobs: JobTable
    var commits: seq<JobTable>     // every job table this worker has committed

    constructor (jobs: JobTable)
      ensures this.jobs == jobs && commits == []
    {
      this.jobs, commits := jobs, [];
    }

    /** Commits a new state of one job. */
    method Put(job: JobId, row: JobRow)
      modifies this
      ensures jobs == old(jobs)[job := row] && commits == old(commits) + [jobs]
    {
      jobs := jobs[job := row];
      commits := commits + [jobs];
    }

    /**
     * One delivery: `execution` is the outcome of the order transaction, and `recording` the error, if any,
     * of the update that should mark the job completed. No one else writes this job meanwhile. PROCESSING is
     * committed first; then COMPLETED with the placed order, or FAILED with the message of what went wrong.
     */
    method ProcessOrder(job: JobId, execution: Execution, recording: Option<string>)
      modifies this
      ensures job !in old(jobs) ==> jobs == old(jobs) && commits == old(commits)
      ensures job in old(jobs) ==>
                var row := old(jobs)[job];
                && job in jobs && jobs == old(jobs)[job := jobs[job]]
                && commits == old(commits) + [old(jobs)[job := JobRow(JobProcessing, row.orderId, row.error)], jobs]
                && jobs[job] == match execution
                                case Raised(message) => JobRow(JobFailed, row.orderId, Some(message))
                                case OrderPlaced(oid) =>
                                  if recording.Some? then JobRow(JobFailed, row.orderId, recording)
                                  else JobRow(JobCompleted, Some(oid), row.error)
      ensures commits == old(commits) + Processed(old(jobs), job, execution, recording)
      ensures jobs == if job in old(jobs) then commits[|commits| - 1] else old(jobs)
    {
      if job !in jobs {
        assert commits == commits + [];
        return;
      }
      Put(job, MarkedProcessing(jobs[job]));
      var failure: Option<string>;
      match execution {
        case OrderPlaced(oid) =>
          failure := recording;
          if failure.None? {
            Put(job, MarkedCompleted(jobs[job], oid));
          }
        case Raised(message) =>
          failure := Some(message);
      }
      if failure.Some? {
        Put(job, MarkedFailed(jobs[job], failure.value));
      }
      assert jobs == Processed(old(jobs), job, execution, recording)[1];
    }
  }

  datatype LegPhase =
    | Received                     // message taken from the queue
    | Started                      // PROCESSING committed
    | Ordering(t: TxId)            // the order transaction is t
    | Recorded(oid: OrderId)       // COMPLETED committed with this order
    | Gone                         // failed, crashed or dropped

  /** One delivery of a job's message to a worker. */
  datatype Leg = Leg(job: JobId, req: Request, phase: LegPhase)

  datatype World = World(
    sys: State,
    jobs: JobTable,
    asked: map<JobId, Request>,    // what each job is to order
    sent: set<JobId>,              // jobs whose message is in the queue
    legs: map<LegId, Leg>)

  datatype Event =
    | Submit(j: JobId, req: Request)        // the route commits a job row
    | Dispatch(j: JobId)                    // then sends its message
    | Deliver(l: LegId, j: JobId)           // the queue delivers it, perhaps again
    | StartJob(l: LegId)
    | PlaceOrder(l: LegId, t: TxId, oid: OrderId)
    | System(e: Step)                       // any step of any transaction, whoever runs it
    | Complete(l: LegId)
    | Fail(l: LegId, message: string)       // any exception after PROCESSING
    | Crash(l: LegId)

  predicate InTry(w: World, leg: Leg) {
    leg.phase.Started? || (leg.phase.Ordering? && leg.phase.t in w.sys.txs && !Live(w.sys.txs[leg.phase.t]))
  }

  predicate Possible(w: World, e: Event) {
    match e
    case Submit(j, _) => j !in w.jobs && j !in w.asked
    case Dispatch(j) => j in w.asked
    case Deliver(l, j) => l !in w.legs && j in w.sent && j in w.asked
    case StartJob(l) => l in w.legs && w.legs[l].phase.Received?
    case PlaceOrder(l, t, oid) =>
      l in w.legs && w.legs[l].phase.Started? && Enabled(w.sys, Begin(t, Create(w.legs[l].req, oid)))
    case System(e) => Enabled(w.sys, e)
    case Complete(l) =>
      && l in w.legs && w.legs[l].phase.Ordering? && w.legs[l].phase.t in w.sys.txs
      && w.sys.txs[w.legs[l].phase.t].phase.Done? && w.sys.txs[w.legs[l].phase.t].result.Some?
      && w.legs[l].job in w.jobs
    case Fail(l, _) => l in w.legs && InTry(w, w.legs[l]) && w.legs[l].job in w.jobs
    case Crash(l) => l in w.legs
  }

  function At(w: World, l: LegId, phase: LegPhase): map<LegId, Leg>
    requires l in w.legs
  {
    w.legs[l := w.legs[l].(phase := phase)]
  }

  function Happened(c: Config, w: World, e: Event): World
    requires Possible(w, e)
  {
    match e
    case Submit(j, req) => w.(jobs := w.jobs[j := NEW_JOB], asked := w.asked[j := req])
    case Dispatch(j) => w.(sent := w.sent + {j})
    case Deliver(l, j) => w.(legs := w.legs[l := Leg(j, w.asked[j], Received)])
    case StartJob(l) =>
      var j := w.legs[l].job;
      if j !in w.jobs then w.(legs := At(w, l, Gone))
      else w.(jobs := w.jobs[j := MarkedProcessing(w.jobs[j])], legs := At(w, l, Started))
    case PlaceOrder(l, t, oid) =>
      w.(sys := Next(c, w.sys, Begin(t, Create(w.legs[l].req, oid))), legs := At(w, l, Ordering(t)))
    case System(e) => w.(sys := Next(c, w.sys, e))
    case Complete(l) =>
      var j := w.legs[l].job;
      var oid := w.sys.txs[w.legs[l].phase.t].result.value.orderId;
      w.(jobs := w.jobs[j := MarkedCompleted(w.jobs[j], oid)], legs := At(w, l, Recorded(oid)))
    case Fail(l, message) =>
      var j := w.legs[l].job;
      w.(jobs := w.jobs[j := MarkedFailed(w.jobs[j], message)], legs := At(w, l, Gone))
    case Crash(l) => w.(legs := At(w, l, Gone))
  }

  predicate Story(c: Config, w: World, events: seq<Event>, w': World)
    decreases |events|
  {
    if events == [] then w' == w
    else Possible(w, events[0]) && Story(c, Happened(c, w, events[0]), events[1..], w')
  }

  // ---- A worker's delivery as a story ----

  function Systems(steps: seq<Step>): seq<Event> {
    if steps == [] then [] else [System(steps[0])] + Systems(steps[1..])
  }

  lemma {:induction false} SystemsStory(c: Config, w: World, steps: seq<Step>, s: State)
    requires Run(c, w.sys, steps, s)
    ensures Story(c, w, Systems(steps), w.(sys := s))
    decreases |steps|
  {
    if steps != [] {
      var next := w.(sys := Next(c, w.sys, steps[0]));
      SystemsStory(c, next, steps[1..], s);
      assert Systems(steps)[1..] == Systems(steps[1..]);
    }
  }

  lemma {:induction false} StoryThen(c: Config, w: World, x: seq<Event>, w1: World, e: Event)
    requires Story(c, w, x, w1) && Possible(w1, e)
    ensures Story(c, w, x + [e], Happened(c, w1, e))
    decreases |x|
  {
    if x == [] {
      assert (x + [e])[1..] == [];
    } else {
      assert (x + [e])[1..] == x[1..] + [e];
      StoryThen(c, Happened(c, w, x[0]), x[1..], w1, e);
    }
  }

  /** The outcome a worker sees of its order transaction; it may also fail for a reason of its own. */
  predicate Observed(tx: Tx, execution: Execution) {
    execution.OrderPlaced? ==> tx.phase.Done? && tx.result.Some? && tx.result.value.orderId == execution.oid
  }

  function LastEvent(l: LegId, execution: Execution, recording: Option<string>): Event {
    match FailureOf(execution, recording)
    case None => Complete(l)
    case Some(message) => Fail(l, message)
  }

  /** The world once the order transaction of delivery l has ended and the transactions have reached s. */
  function Ordered(w: World, l: LegId, t: TxId, s: State): World
    requires l in w.legs && w.legs[l].job in w.jobs
  {
    w.(sys := s, jobs := w.jobs[w.legs[l].job := MarkedProcessing(w.jobs[w.legs[l].job])], legs := At(w, l, Ordering(t)))
  }

  lemma OrderingStory(c: Config, w: World, l: LegId, t: TxId, oid: OrderId, steps: seq<Step>, s: State)
    requires l in w.legs && w.legs[l].phase.Received? && w.legs[l].job in w.jobs
    requires Enabled(w.sys, Begin(t, Create(w.legs[l].req, oid)))
    requires Run(c, Next(c, w.sys, Begin(t, Create(w.legs[l].req, oid))), steps, s)
    ensures Story(c, w, [StartJob(l), PlaceOrder(l, t, oid)] + Systems(steps), Ordered(w, l, t, s))
  {
    var w1 := Happened(c, w, StartJob(l));
    var w2 := Happened(c, w1, PlaceOrder(l, t, oid));
    assert w2.legs == At(w, l, Ordering(t));
    SystemsStory(c, w2, steps, s);
    var x := [StartJob(l), PlaceOrder(l, t, oid)] + Systems(steps);
    assert x[1..] == [PlaceOrder(l, t, oid)] + Systems(steps) && x[1..][1..] == Systems(steps);
    assert Story(c, w1, x[1..], Ordered(w, l, t, s));
  }

  lemma DeliveryEnds(c: Config, w: World, l: LegId, t: TxId, s: State, execution: Execution, recording: Option<string>)
    requires l in w.legs && w.legs[l].job in w.jobs
    requires t in s.txs && !Live(s.txs[t]) && Observed(s.txs[t], execution)
    ensures Possible(Ordered(w, l, t, s), LastEvent(l, execution, recording))
    ensures var w' := Happened(c, Ordered(w, l, t, s), LastEvent(l, execution, recording));
            w'.jobs == Processed(w.jobs, w.legs[l].job, execution, recording)[1] && w'.sys == s
  {
  }

  /**
   * What ProcessOrder commits is what the protocol's events of one delivery do to the job table, whatever
   * any number of transactions do between the start and the end of the order transaction.
   */
  lemma ProcessOrderIsStory(c: Config, w: World, l: LegId, t: TxId, oid: OrderId, steps: seq<Step>, s: State,
                            execution: Execution, recording: Option<string>)
    requires l in w.legs && w.legs[l].phase.Received? && w.legs[l].job in w.jobs
    requires Enabled(w.sys, Begin(t, Create(w.legs[l].req, oid)))
    requires Run(c, Next(c, w.sys, Begin(t, Create(w.legs[l].req, oid))), steps, s)
    requires t in s.txs && !Live(s.txs[t]) && Observed(s.txs[t], execution)
    ensures Possible(w, StartJob(l))
    ensures Processed(w.jobs, w.legs[l].job, execution, recording)[0] == Happened(c, w, StartJob(l)).jobs
    ensures exists w' ::
              && Story(c, w, [StartJob(l), PlaceOrder(l, t, oid)] + Systems(steps) + [LastEvent(l, execution, recording)], w')
              && w'.jobs == Processed(w.jobs, w.legs[l].job, execution, recording)[1] && w'.sys == s
  {
    OrderingStory(c, w, l, t, oid, steps, s);
    DeliveryEnds(c, w, l, t, s, execution, recording);
    StoryThen(c, w, [StartJob(l), PlaceOrder(l, t, oid)] + Systems(steps), Ordered(w, l, t, s),
              LastEvent(l, execution, recording));
  }

  function Opening(c: Config): World {
    World(Start(c), map[], map[], {}, map[])
  }

  /**
   * The order is committed and confirmed; it is the one its request's key names, and without a key the one
   * its request asks for.
   */
  predicate Placed(catalog: Catalog, db: Db, req: Request, oid: OrderId) {
    && oid in db.orders && db.orders[oid].status == Confirmed
    && if CarriesKey(req) then req.key.value in db.keys && db.keys[req.key.value].orderId == oid
       else OrderFollows(catalog, req, db.orders[oid])
  }

  predicate LegOk(c: Config, w: World, leg: Leg) {
    && leg.job in w.asked && w.asked[leg.job] == leg.req
    && match leg.phase
       case Ordering(t) => t in w.sys.txs && w.sys.txs[t].work.Create? && w.sys.txs[t].work.req == leg.req
       case Recorded(oid) => Placed(c.catalog, w.sys.db, leg.req, oid)
       case _ => true
  }

  predicate JobOk(c: Config, w: World, j: JobId, row: JobRow) {
    && j in w.asked
    && (row.status.JobCompleted? ==> row.orderId.Some? && Placed(c.catalog, w.sys.db, w.asked[j], row.orderId.value))
    && (row.status.JobFailed? ==> row.error.Some?)
  }

  ghost predicate WorldOk(c: Config, w: World) {
    && Inv(c, w.sys)
    && (forall l | l in w.legs :: LegOk(c, w, w.legs[l]))
    && (forall j | j in w.jobs :: JobOk(c, w, j, w.jobs[j]))
  }

  lemma PlacedStays(catalog: Catalog, a: Db, b: Db, req: Request, oid: OrderId)
    requires Extends(a, b) && Placed(catalog, a, req, oid)
    ensures Placed(catalog, b, req, oid)
  {
  }

  lemma WorkStays(c: Config, s: State, e: Step, t: TxId)
    requires Inv(c, s) && Enabled(s, e) && t in s.txs
    ensures t in Next(c, s, e).txs && Next(c, s, e).txs[t].work == s.txs[t].work
  {
    if e.Do? {
      KeyGained(c, s.db, s.txs[e.t], e.act);
    }
  }

  /** What any transaction step leaves in place. */
  lemma SystemStep(c: Config, s: State, e: Step)
    requires Inv(c, s) && Enabled(s, e)
    ensures Inv(c, Next(c, s, e)) && Extends(s.db, Next(c, s, e).db)
    ensures forall t | t in s.txs :: t in Next(c, s, e).txs && Next(c, s, e).txs[t].work == s.txs[t].work
  {
    StepKeeps(c, s, e);
    StepExtends(c, s, e);
    forall t | t in s.txs ensures t in Next(c, s, e).txs && Next(c, s, e).txs[t].work == s.txs[t].work {
      WorkStays(c, s, e, t);
    }
  }

  lemma SystemKeeps(c: Config, w: World, s: State)
    requires WorldOk(c, w) && Inv(c, s) && Extends(w.sys.db, s.db)
    requires forall t | t in w.sys.txs :: t in s.txs && s.txs[t].work == w.sys.txs[t].work
    ensures WorldOk(c, w.(sys := s))
  {
    forall l | l in w.legs ensures LegOk(c, w.(sys := s), w.legs[l]) {
      if w.legs[l].phase.Recorded? {
        PlacedStays(c.catalog, w.sys.db, s.db, w.legs[l].req, w.legs[l].phase.oid);
      }
    }
    forall j | j in w.jobs ensures JobOk(c, w.(sys := s), j, w.jobs[j]) {
      if w.jobs[j].status.JobCompleted? {
        PlacedStays(c.catalog, w.sys.db, s.db, w.asked[j], w.jobs[j].orderId.value);
      }
    }
  }

  lemma ResultIsPlaced(c: Config, db: Db, tx: Tx)
    requires TxOk(c, db, tx) && tx.work.Create? && tx.phase.Done?
    ensures tx.result.Some? && Placed(c.catalog, db, tx.work.req, tx.result.value.orderId)
  {
    if !CarriesKey(tx.work.req) {
      PricedFollows(c.catalog, tx.work.req.items);
    }
  }

  lemma CompleteKeeps(c: Config, w: World, l: LegId)
    requires WorldOk(c, w) && Possible(w, Complete(l))
    ensures WorldOk(c, Happened(c, w, Complete(l)))
  {
    var leg := w.legs[l];
    assert LegOk(c, w, leg);
    assert TxOk(c, w.sys.db, w.sys.txs[leg.phase.t]);
    ResultIsPlaced(c, w.sys.db, w.sys.txs[leg.phase.t]);
  }

  lemma SystemEventKeeps(c: Config, w: World, step: Step)
    requires WorldOk(c, w) && Enabled(w.sys, step)
    ensures WorldOk(c, w.(sys := Next(c, w.sys, step)))
  {
    SystemStep(c, w.sys, step);
    SystemKeeps(c, w, Next(c, w.sys, step));
  }

  lemma PlaceOrderKeeps(c: Config, w: World, l: LegId, t: TxId, oid: OrderId)
    requires WorldOk(c, w) && Possible(w, PlaceOrder(l, t, oid))
    ensures WorldOk(c, Happened(c, w, PlaceOrder(l, t, oid)))
  {
    var step := Begin(t, Create(w.legs[l].req, oid));
    SystemEventKeeps(c, w, step);
    LegMoves(c, w.(sys := Next(c, w.sys, step)), l, Ordering(t));
  }

  /** A delivery may move on to any phase that tells the truth. */
  lemma LegMoves(c: Config, w: World, l: LegId, phase: LegPhase)
    requires WorldOk(c, w) && l in w.legs && LegOk(c, w, w.legs[l].(phase := phase))
    ensures WorldOk(c, w.(legs := At(w, l, phase)))
  {
  }

  /** Every event of jobs, deliveries, workers and transactions keeps the joint invariant. */
  lemma {:induction false} EventKeeps(c: Config, w: World, e: Event)
    requires WorldOk(c, w) && Possible(w, e)
    ensures WorldOk(c, Happened(c, w, e))
  {
    match e
    case System(step) => SystemEventKeeps(c, w, step);
    case PlaceOrder(l, t, oid) => PlaceOrderKeeps(c, w, l, t, oid);
    case Complete(l) => CompleteKeeps(c, w, l);
    case _ => OtherEventKeeps(c, w, e);
  }

  lemma OtherEventKeeps(c: Config, w: World, e: Event)
    requires WorldOk(c, w) && Possible(w, e) && !e.System? && !e.PlaceOrder? && !e.Complete?
    ensures WorldOk(c, Happened(c, w, e))
  {
  }

  lemma {:induction false} StoryKeeps(c: Config, w: World, events: seq<Event>, w': World)
    requires WorldOk(c, w) && Story(c, w, events, w')
    ensures WorldOk(c, w')
    decreases |events|
  {
    if events != [] {
      EventKeeps(c, w, events[0]);
      StoryKeeps(c, Happened(c, w, events[0]), events[1..], w');
    }
  }

  predicate Told(c: Config, events: seq<Event>, w: World) {
    DbOk(c.base) && Story(c, Opening(c), events, w)
  }

  /**
   * Job truthfulness, with any number of jobs, deliveries, crashes and other clients: a COMPLETED job names
   * a committed, confirmed order, which without a key is the one it asked for, and a FAILED job records an error.
   */
  lemma JobsTellTheTruth(c: Config, events: seq<Event>, w: World, j: JobId)
    requires Told(c, events, w) && j in w.jobs
    ensures w.jobs[j].status.JobCompleted? ==>
              && w.jobs[j].orderId.Some?
              && w.jobs[j].orderId.value in w.sys.db.orders
              && w.sys.db.orders[w.jobs[j].orderId.value].status == Confirmed
              && j in w.asked
              && (!CarriesKey(w.asked[j]) ==>
                    OrderFollows(c.catalog, w.asked[j], w.sys.db.orders[w.jobs[j].orderId.value]))
    ensures w.jobs[j].status.JobFailed? ==> w.jobs[j].error.Some?
  {
    StoryKeeps(c, Opening(c), events, w);
    assert JobOk(c, w, j, w.jobs[j]);
  }

  /**
   * Redelivery of a job with an idempotency key: however often the message is delivered, and however the
   * deliveries interleave, at most one order is committed under the key, and all deliveries that complete
   * record that order, as does the job itself.
   */
  lemma RedeliveryIsIdempotent(c: Config, events: seq<Event>, w: World, k: LegId, l: LegId)
    requires Told(c, events, w) && k in w.legs && l in w.legs
    requires w.legs[k].job == w.legs[l].job && HasKey(w.legs[k].req)
    ensures w.legs[k].phase.Recorded? && w.legs[l].phase.Recorded? ==> w.legs[k].phase.oid == w.legs[l].phase.oid
    ensures var j := w.legs[k].job;
            w.legs[k].phase.Recorded? && j in w.jobs && w.jobs[j].status.JobCompleted? ==>
              w.jobs[j].orderId == Some(w.legs[k].phase.oid)
    ensures forall m, n | 0 <= m < |w.sys.log| && 0 <= n < |w.sys.log| && Keyed(w.sys.log[m]) && Keyed(w.sys.log[n])
                          && w.sys.log[m].req.key == w.legs[k].req.key == w.sys.log[n].req.key :: m == n
  {
    StoryKeeps(c, Opening(c), events, w);
    assert LegOk(c, w, w.legs[k]) && LegOk(c, w, w.legs[l]);
    var j := w.legs[k].job;
    if j in w.jobs {
      assert JobOk(c, w, j, w.jobs[j]);
    }
    KeysUsedOnce(c.catalog, c.base, w.sys.log);
  }

  // ---- With a single delivery, a job's status only moves forward ----

  predicate SingleDelivery(w: World) {
    forall k, l | k in w.legs && l in w.legs && k != l :: w.legs[k].job != w.legs[l].job
  }

  function StatusOf(phase: LegPhase, status: JobStatus): JobStatus {
    match phase
    case Received => JobPending
    case Started => JobProcessing
    case Ordering(_) => JobProcessing
    case Recorded(_) => status
    case Gone => status
  }

  /** The jobs a message of which has been delivered. */
  function Taken(w: World): set<JobId> {
    set l | l in w.legs :: w.legs[l].job
  }

  /** A job's status is where its one delivery stands. */
  predicate InStep(w: World) {
    && (forall l | l in w.legs && w.legs[l].job in w.jobs ::
          w.jobs[w.legs[l].job].status == StatusOf(w.legs[l].phase, w.jobs[w.legs[l].job].status))
    && (forall j | j in w.jobs && w.jobs[j].status != JobPending :: j in Taken(w))
    && (forall l | l in w.legs :: w.legs[l].job in w.asked)
    && (forall j | j in w.asked :: j in w.jobs)
  }

  /** What one event may do to a job's status. */
  predicate StepForward(a: JobStatus, b: JobStatus) {
    a == b || (a.JobPending? && b.JobProcessing?) || (a.JobProcessing? && (b.JobCompleted? || b.JobFailed?))
  }

  /** What several may do. */
  predicate Forward(a: JobStatus, b: JobStatus) {
    a == b || a.JobPending? || (a.JobProcessing? && (b.JobCompleted? || b.JobFailed?))
  }

  /** Deliveries stay, and only a job with a delivery changes its status. */
  lemma LegsStay(c: Config, w: World, e: Event)
    requires Possible(w, e)
    ensures var after := Happened(c, w, e);
            && (forall l | l in w.legs :: l in after.legs && after.legs[l].job == w.legs[l].job)
            && Taken(w) <= Taken(after)
            && (forall j | j in w.jobs :: j in after.jobs && (j !in Taken(w) ==> after.jobs[j] == w.jobs[j]))
            && (forall j | j in after.jobs && j !in w.jobs :: after.jobs[j] == NEW_JOB)
  {
    var after := Happened(c, w, e);
    assert forall l | l in w.legs :: l in after.legs && after.legs[l].job == w.legs[l].job;
    forall j | j in Taken(w) ensures j in Taken(after) {
      var l :| l in w.legs && w.legs[l].job == j;
      assert after.legs[l].job == j;
    }
  }

  /** The next world is in step again, and every job's status has moved by at most one step. */
  ghost predicate MovesForward(w: World, after: World) {
    && InStep(after)
    && forall j | j in w.jobs :: j in after.jobs && StepForward(w.jobs[j].status, after.jobs[j].status)
  }

  /** A delivery that is received or sits in its try block advances its job by one step and stays in step with it. */
  lemma LegForward(w: World, after: World, l: LegId, phase: LegPhase, row: JobRow)
    requires InStep(w) && SingleDelivery(w) && l in w.legs && w.legs[l].job in w.jobs
    requires after == w.(legs := At(w, l, phase), jobs := w.jobs[w.legs[l].job := row])
    requires row.status == StatusOf(phase, row.status) && StepForward(w.jobs[w.legs[l].job].status, row.status)
    ensures MovesForward(w, after)
  {
    var job := w.legs[l].job;
    assert forall k | k in w.legs && k != l :: after.legs[k] == w.legs[k] && w.legs[k].job != job;
    forall j | j in after.jobs && after.jobs[j].status != JobPending ensures j in Taken(after) {
      if j == job {
        assert after.legs[l].job == j;
      } else {
        var k :| k in w.legs && w.legs[k].job == j;
        assert after.legs[k].job == j;
      }
    }
  }

  lemma SubmitForward(c: Config, w: World, j: JobId, req: Request)
    requires InStep(w) && Possible(w, Submit(j, req))
    ensures MovesForward(w, Happened(c, w, Submit(j, req)))
  {
    assert Taken(Happened(c, w, Submit(j, req))) == Taken(w);
  }

  lemma DeliverForward(c: Config, w: World, l: LegId, j: JobId)
    requires InStep(w) && Possible(w, Deliver(l, j)) && SingleDelivery(Happened(c, w, Deliver(l, j)))
    ensures MovesForward(w, Happened(c, w, Deliver(l, j)))
  {
    var after := Happened(c, w, Deliver(l, j));
    LegsStay(c, w, Deliver(l, j));
    assert forall k | k in w.legs :: after.legs[k] == w.legs[k] && after.legs[k].job != after.legs[l].job;
    assert j !in Taken(w);
  }

  lemma LegsAsBefore(w: World, after: World)
    requires InStep(w) && after.legs == w.legs && after.jobs == w.jobs && after.asked == w.asked
    ensures MovesForward(w, after)
  {
  }

  lemma StartForward(c: Config, w: World, l: LegId)
    requires InStep(w) && Possible(w, StartJob(l)) && SingleDelivery(w)
    ensures MovesForward(w, Happened(c, w, StartJob(l)))
  {
    LegForward(w, Happened(c, w, StartJob(l)), l, Started, MarkedProcessing(w.jobs[w.legs[l].job]));
  }

  lemma PlaceForward(c: Config, w: World, l: LegId, t: TxId, oid: OrderId)
    requires InStep(w) && Possible(w, PlaceOrder(l, t, oid)) && SingleDelivery(w)
    ensures MovesForward(w, Happened(c, w, PlaceOrder(l, t, oid)))
  {
    var after := Happened(c, w, PlaceOrder(l, t, oid));
    LegForward(w, after.(sys := w.sys), l, Ordering(t), w.jobs[w.legs[l].job]);
    LegsAsBefore(after.(sys := w.sys), after);
  }

  lemma CompleteForward(c: Config, w: World, l: LegId)
    requires InStep(w) && Possible(w, Complete(l)) && SingleDelivery(w)
    ensures MovesForward(w, Happened(c, w, Complete(l)))
  {
    var after := Happened(c, w, Complete(l));
    LegForward(w, after, l, after.legs[l].phase, after.jobs[w.legs[l].job]);
  }

  lemma FailForward(c: Config, w: World, l: LegId, message: string)
    requires InStep(w) && Possible(w, Fail(l, message)) && SingleDelivery(w)
    ensures MovesForward(w, Happened(c, w, Fail(l, message)))
  {
    LegForward(w, Happened(c, w, Fail(l, message)), l, Gone, MarkedFailed(w.jobs[w.legs[l].job], message));
  }

  lemma CrashForward(c: Config, w: World, l: LegId)
    requires InStep(w) && Possible(w, Crash(l)) && SingleDelivery(w)
    ensures MovesForward(w, Happened(c, w, Crash(l)))
  {
    LegForward(w, Happened(c, w, Crash(l)), l, Gone, w.jobs[w.legs[l].job]);
  }

  /**
   * One event, in a world in step in which every job has been delivered at most once: a status goes from
   * PENDING to PROCESSING, from PROCESSING to COMPLETED or FAILED, or stays.
   */
  lemma EventForward(c: Config, w: World, e: Event)
    requires InStep(w) && Possible(w, e) && SingleDelivery(Happened(c, w, e))
    ensures SingleDelivery(w) && MovesForward(w, Happened(c, w, e))
  {
    LegsStay(c, w, e);
    match e
    case Submit(j, req) => SubmitForward(c, w, j, req);
    case Dispatch(_) => LegsAsBefore(w, Happened(c, w, e));
    case Deliver(l, j) => DeliverForward(c, w, l, j);
    case System(_) => LegsAsBefore(w, Happened(c, w, e));
    case StartJob(l) => StartForward(c, w, l);
    case PlaceOrder(l, t, oid) => PlaceForward(c, w, l, t, oid);
    case Complete(l) => CompleteForward(c, w, l);
    case Fail(l, message) => FailForward(c, w, l, message);
    case Crash(l) => CrashForward(c, w, l);
  }

  lemma {:induction false} SingleDeliveryBackwards(c: Config, w: World, events: seq<Event>, w': World)
    requires Story(c, w, events, w') && SingleDelivery(w')
    ensures SingleDelivery(w)
    decreases |events|
  {
    if events != [] {
      var next := Happened(c, w, events[0]);
      SingleDeliveryBackwards(c, next, events[1..], w');
      assert forall l | l in w.legs :: l in next.legs && next.legs[l].job == w.legs[l].job;
    }
  }

  lemma {:induction false} StoryForward(c: Config, w: World, events: seq<Event>, w': World)
    requires InStep(w) && Story(c, w, events, w') && SingleDelivery(w')
    ensures InStep(w')
    ensures forall j | j in w.jobs :: j in w'.jobs && Forward(w.jobs[j].status, w'.jobs[j].status)
    decreases |events|
  {
    if events != [] {
      SingleDeliveryBackwards(c, Happened(c, w, events[0]), events[1..], w');
      EventForward(c, w, events[0]);
      StoryForward(c, Happened(c, w, events[0]), events[1..], w');
    }
  }

  /**
   * With one delivery per job, every event moves every job's status by at most one step of PENDING,
   * PROCESSING, then COMPLETED or FAILED.
   */
  lemma StatusMovesStepByStep(c: Config, events: seq<Event>, w: World, e: Event, j: JobId)
    requires Story(c, Opening(c), events, w) && Possible(w, e) && SingleDelivery(Happened(c, w, e)) && j in w.jobs
    ensures j in Happened(c, w, e).jobs && StepForward(w.jobs[j].status, Happened(c, w, e).jobs[j].status)
  {
    LegsStay(c, w, e);
    assert SingleDelivery(w) by {
      assert forall l | l in w.legs :: Happened(c, w, e).legs[l].job == w.legs[l].job;
    }
    StoryForward(c, Opening(c), events, w);
    EventForward(c, w, e);
  }

  /** Between any two moments of such a story a status never goes back, and COMPLETED and FAILED are final. */
  lemma StatusOnlyMovesForward(c: Config, first: seq<Event>, w: World, more: seq<Event>, w': World, j: JobId)
    requires Story(c, Opening(c), first, w) && Story(c, w, more, w') && SingleDelivery(w') && j in w.jobs
    ensures j in w'.jobs && Forward(w.jobs[j].status, w'.jobs[j].status)
  {
    SingleDeliveryBackwards(c, w, more, w');
    StoryForward(c, Opening(c), first, w);
    StoryForward(c, w, more, w');
  }
}
