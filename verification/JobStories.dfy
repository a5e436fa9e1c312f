/** What the events of a story say about each job: what it ordered, and which error it records. */
module JobStories {
  import opened Values
  import opened Serial
  import opened Requests
  import opened Protocol
  import opened Refinement
  import opened Completeness
  import opened Jobs

  // ---- The last event of a story ----

  lemma {:induction false} LastOf(c: Config, w: World, events: seq<Event>, w': World) returns (before: World)
    requires Story(c, w, events, w') && events != []
    ensures Story(c, w, events[..|events| - 1], before)
    ensures Possible(before, events[|events| - 1]) && w' == Happened(c, before, events[|events| - 1])
    decreases |events|
  {
    if |events| == 1 {
      before := w;
      assert events[1..] == [];
    } else {
      before := LastOf(c, Happened(c, w, events[0]), events[1..], w');
      assert events[..|events| - 1][1..] == events[1..][..|events| - 2];
    }
  }

  /** Message l was a delivery of job j. */
  predicate Delivered(events: seq<Event>, l: LegId, j: JobId) {
    Deliver(l, j) in events
  }

  /** The message of the last failure of job j among the events, if any. */
  function LastFailure(events: seq<Event>, j: JobId): Option<string> {
    if events == [] then None
    else
      var front, last := events[..|events| - 1], events[|events| - 1];
      if last.Fail? && Delivered(front, last.l, j) then Some(last.message) else LastFailure(front, j)
  }

  /** The events explain what every job and every delivery is about, and the error each job records. */
  ghost predicate Explained(events: seq<Event>, w: World) {
    && (forall l, j | Delivered(events, l, j) :: l in w.legs && w.legs[l].job == j)
    && (forall l | l in w.legs :: Delivered(events, l, w.legs[l].job) && w.legs[l].job in w.asked)
    && (forall l | l in w.legs :: w.legs[l].req == w.asked[w.legs[l].job])
    && (forall j | j in w.asked :: Submit(j, w.asked[j]) in events)
    && (forall j, req | Submit(j, req) in events :: j in w.asked && w.asked[j] == req)
    && w.jobs.Keys == w.asked.Keys
    && (forall j | j in w.jobs :: w.jobs[j].error == LastFailure(events, j))
  }

  lemma {:induction false} NeverDelivered(events: seq<Event>, j: JobId)
    requires forall l :: !Delivered(events, l, j)
    ensures LastFailure(events, j) == None
  {
    if events != [] {
      var front := events[..|events| - 1];
      forall l ensures !Delivered(front, l, j) {
        assert Delivered(front, l, j) ==> Delivered(events, l, j);
      }
      NeverDelivered(front, j);
    }
  }

  lemma LastIsIn(events: seq<Event>, e: Event, x: Event)
    ensures x in events + [e] <==> x in events || x == e
    ensures (events + [e])[..|events|] == events && (events + [e])[|events|] == e
  {
  }

  lemma DeliveredMore(events: seq<Event>, e: Event)
    ensures forall l, j :: Delivered(events + [e], l, j) <==> Delivered(events, l, j) || e == Deliver(l, j)
  {
    forall l, j ensures Delivered(events + [e], l, j) <==> Delivered(events, l, j) || e == Deliver(l, j) {
      LastIsIn(events, e, Deliver(l, j));
    }
  }

  /** Every delivery among the events has its worker, after one more event. */
  lemma ExplainedDeliveries(c: Config, events: seq<Event>, w: World, e: Event)
    requires Explained(events, w) && Possible(w, e)
    ensures forall l, j | Delivered(events + [e], l, j) ::
              l in Happened(c, w, e).legs && Happened(c, w, e).legs[l].job == j
  {
    DeliveredMore(events, e);
  }

  lemma ExplainedLegs(c: Config, events: seq<Event>, w: World, e: Event)
    requires Explained(events, w) && Possible(w, e)
    ensures var w', all := Happened(c, w, e), events + [e];
            && w'.jobs.Keys == w'.asked.Keys
            && forall l | l in w'.legs ::
                 && Delivered(all, l, w'.legs[l].job) && w'.legs[l].job in w'.asked
                 && w'.legs[l].req == w'.asked[w'.legs[l].job]
  {
    DeliveredMore(events, e);
    LegsKeepTheirWork(c, w, e);
  }

  lemma LegsKeepTheirWork(c: Config, w: World, e: Event)
    requires Possible(w, e)
    ensures var w' := Happened(c, w, e);
            && (forall l | l in w.legs :: l in w'.legs && w'.legs[l].job == w.legs[l].job && w'.legs[l].req == w.legs[l].req)
            && (forall l | l in w'.legs && l !in w.legs :: e.Deliver? && e.l == l && w'.legs[l] == Leg(e.j, w.asked[e.j], Received))
            && (forall j | j in w.asked :: j in w'.asked && w'.asked[j] == w.asked[j])
  {
  }

  lemma ExplainedOrders(c: Config, events: seq<Event>, w: World, e: Event)
    requires Explained(events, w) && Possible(w, e)
    ensures var w', all := Happened(c, w, e), events + [e];
            && (forall j | j in w'.asked :: Submit(j, w'.asked[j]) in all)
            && (forall j, req | Submit(j, req) in all :: j in w'.asked && w'.asked[j] == req)
  {
    forall j, req ensures Submit(j, req) in events + [e] <==> Submit(j, req) in events || e == Submit(j, req) {
      LastIsIn(events, e, Submit(j, req));
    }
  }

  lemma ExplainedErrors(c: Config, events: seq<Event>, w: World, e: Event, j: JobId)
    requires Explained(events, w) && Possible(w, e) && j in Happened(c, w, e).jobs
    ensures Happened(c, w, e).jobs[j].error == LastFailure(events + [e], j)
  {
    assert (events + [e])[..|events|] == events;
    if e.Submit? && e.j == j {
      NeverDelivered(events, j);
    } else {
      assert j in w.jobs;
    }
  }

  lemma {:induction false} AllExplained(c: Config, events: seq<Event>, w: World)
    requires Story(c, Opening(c), events, w)
    ensures Explained(events, w)
    decreases |events|
  {
    if events != [] {
      var front, e := events[..|events| - 1], events[|events| - 1];
      var before := LastOf(c, Opening(c), events, w);
      AllExplained(c, front, before);
      assert events == front + [e];
      ExplainedDeliveries(c, front, before, e);
      ExplainedLegs(c, front, before, e);
      ExplainedOrders(c, front, before, e);
      forall j | j in w.jobs ensures w.jobs[j].error == LastFailure(events, j) {
        ExplainedErrors(c, front, before, e, j);
      }
    }
  }

  /**
   * A job records exactly the message of its last failure, whichever delivery it came from, and none if it
   * never failed; and every delivery works on the request the job was submitted with.
   */
  lemma FailureIsRecorded(c: Config, events: seq<Event>, w: World, j: JobId)
    requires Told(c, events, w) && j in w.jobs
    ensures w.jobs[j].error == LastFailure(events, j)
    ensures w.jobs[j].status.JobFailed? ==> LastFailure(events, j).Some?
    ensures j in w.asked && Submit(j, w.asked[j]) in events
    ensures forall req | Submit(j, req) in events :: req == w.asked[j]
    ensures forall l | l in w.legs && w.legs[l].job == j :: w.legs[l].req == w.asked[j]
  {
    AllExplained(c, events, w);
    JobsTellTheTruth(c, events, w, j);
  }

  /**
   * A worker may be lost at any moment, which leaves the jobs as they are, and may fail with any message
   * before its order transaction has begun or after it has ended, which leaves its job FAILED.
   */
  lemma DeliveryMayStop(c: Config, events: seq<Event>, w: World, l: LegId, message: string)
    requires Told(c, events, w) && l in w.legs
    ensures Possible(w, Crash(l)) && Happened(c, w, Crash(l)).jobs == w.jobs && Happened(c, w, Crash(l)).sys == w.sys
    ensures w.legs[l].phase.Started?
            || (w.legs[l].phase.Ordering? && w.legs[l].phase.t in w.sys.txs && !Live(w.sys.txs[w.legs[l].phase.t])) ==>
              && Possible(w, Fail(l, message))
              && Happened(c, w, Fail(l, message)).sys == w.sys
              && w.legs[l].job in w.jobs
              && Happened(c, w, Fail(l, message)).jobs
                   == w.jobs[w.legs[l].job := JobRow(JobFailed, w.jobs[w.legs[l].job].orderId, Some(message))]
  {
    AllExplained(c, events, w);
  }

  /** A delivery whose job row is gone ends there: it writes nothing and orders nothing. */
  lemma MissingJobIsIgnored(c: Config, w: World, l: LegId)
    requires Possible(w, StartJob(l)) && w.legs[l].job !in w.jobs
    ensures var after := Happened(c, w, StartJob(l));
            && after.jobs == w.jobs && after.sys == w.sys
            && !Possible(after, Complete(l))
            && (forall t, oid :: !Possible(after, PlaceOrder(l, t, oid)))
            && (forall message :: !Possible(after, Fail(l, message)))
  {
  }

  // ---- From submission to the end ----

  /** The transactions of a story are a run of the protocol. */
  lemma {:induction false} StoryRuns(c: Config, w: World, events: seq<Event>, w': World)
    requires Reachable(c, w.sys) && Story(c, w, events, w')
    ensures Reachable(c, w'.sys)
    decreases |events|
  {
    if events != [] {
      EventRuns(c, w, events[0]);
      StoryRuns(c, Happened(c, w, events[0]), events[1..], w');
    }
  }

  lemma EventRuns(c: Config, w: World, e: Event)
    requires Reachable(c, w.sys) && Possible(w, e)
    ensures Reachable(c, Happened(c, w, e).sys)
  {
    match e
    case System(step) => LeadsOn(c, Start(c), w.sys, step);
    case PlaceOrder(l, t, oid) => LeadsOn(c, Start(c), w.sys, Begin(t, Create(w.legs[l].req, oid)));
    case _ =>
  }

  lemma {:induction false} StoriesJoin(c: Config, w: World, x: seq<Event>, a: World, y: seq<Event>, b: World)
    requires Story(c, w, x, a) && Story(c, a, y, b)
    ensures Story(c, w, x + y, b)
    decreases |x|
  {
    if x == [] {
      assert x + y == y;
    } else {
      assert (x + y)[1..] == x[1..] + y;
      StoriesJoin(c, Happened(c, w, x[0]), x[1..], a, y, b);
    }
  }

  /** Message l of job j has just been received. */
  function JustReceived(w: World, j: JobId, l: LegId): World
    requires j in w.asked
  {
    w.(legs := w.legs[l := Leg(j, w.asked[j], Received)])
  }

  /** A new job whose message has been sent. */
  function Sent(w: World, j: JobId, req: Request): World {
    w.(jobs := w.jobs[j := JobRow(JobPending, None, None)], asked := w.asked[j := req], sent := w.sent + {j})
  }

  lemma SubmitAndSend(c: Config, w: World, j: JobId, req: Request)
    requires j !in w.jobs && j !in w.asked
    ensures Story(c, w, [Submit(j, req), Dispatch(j)], Sent(w, j, req))
  {
    var x := [Submit(j, req), Dispatch(j)];
    var w1 := Happened(c, w, x[0]);
    assert x[1..] == [x[1]] && [x[1]][1..] == [];
    assert Story(c, w1, [x[1]], Sent(w, j, req));
  }

  /** What a worker reports of a creation that came to this outcome. */
  function Reported(outcome: Outcome, message: string): Execution {
    match outcome
    case Created(_, result) => OrderPlaced(result.orderId)
    case Replayed(result) => OrderPlaced(result.orderId)
    case Failed(_) => Raised(message)
  }

  /** The order transaction of a waiting job, run on its own. */
  lemma OrderRuns(c: Config, s: State, t: TxId, req: Request, oid: OrderId, message: string)
    returns (steps: seq<Step>, s': State)
    requires Reachable(c, s) && Enabled(s, Begin(t, Create(req, oid)))
    requires Free(s, t, Wanted(req), KeyOf(Create(req, oid)))
    ensures Run(c, Next(c, s, Begin(t, Create(req, oid))), steps, s')
    ensures t in s'.txs && !Live(s'.txs[t])
    ensures Observed(s'.txs[t], Reported(CreateOrder(c.catalog, s.db, req, oid), message))
  {
    s' := CreationCanRun(c, s, t, req, oid);
    var a := Next(c, s, Begin(t, Create(req, oid)));
    steps :| Run(c, a, steps, s');
  }

  /** What a delivery leaves in the job's row. */
  predicate EndedAs(before: JobRow, outcome: Outcome, message: string, after: JobRow) {
    after == match outcome
             case Created(_, result) => JobRow(JobCompleted, Some(result.orderId), before.error)
             case Replayed(result) => JobRow(JobCompleted, Some(result.orderId), before.error)
             case Failed(_) => JobRow(JobFailed, before.orderId, Some(message))
  }

  lemma ReportedEnds(jobs: JobTable, j: JobId, outcome: Outcome, message: string)
    requires j in jobs
    ensures |Processed(jobs, j, Reported(outcome, message), None)| == 2
    ensures j in Processed(jobs, j, Reported(outcome, message), None)[1]
    ensures EndedAs(jobs[j], outcome, message, Processed(jobs, j, Reported(outcome, message), None)[1][j])
  {
  }

  /** The work on a message that has been received. */
  lemma WorkOnIt(c: Config, w: World, l: LegId, t: TxId, oid: OrderId, message: string)
    returns (events: seq<Event>, w': World)
    requires Reachable(c, w.sys) && l in w.legs && w.legs[l].phase.Received? && w.legs[l].job in w.jobs
    requires Enabled(w.sys, Begin(t, Create(w.legs[l].req, oid)))
    requires Free(w.sys, t, Wanted(w.legs[l].req), KeyOf(Create(w.legs[l].req, oid)))
    ensures Story(c, w, events, w')
    ensures w'.jobs == Processed(w.jobs, w.legs[l].job,
                         Reported(CreateOrder(c.catalog, w.sys.db, w.legs[l].req, oid), message), None)[1]
  {
    var execution := Reported(CreateOrder(c.catalog, w.sys.db, w.legs[l].req, oid), message);
    var steps, s' := OrderRuns(c, w.sys, t, w.legs[l].req, oid, message);
    ProcessOrderIsStory(c, w, l, t, oid, steps, s', execution, None);
    events := [StartJob(l), PlaceOrder(l, t, oid)] + Systems(steps) + [LastEvent(l, execution, None)];
    w' :| Story(c, w, events, w') && w'.jobs == Processed(w.jobs, w.legs[l].job, execution, None)[1] && w'.sys == s';
  }

  /** Some story leads from w to a world in which job j has ended as the atomic creation says. */
  ghost predicate CanEnd(c: Config, w: World, j: JobId, before: JobRow, outcome: Outcome, message: string) {
    exists events, w' :: Story(c, w, events, w') && j in w'.jobs && EndedAs(before, outcome, message, w'.jobs[j])
  }

  /**
   * A job whose message is in the queue can be delivered, for the first time or again, and worked on to its
   * end while no one holds its rows or is about to store its key: it becomes COMPLETED with the order that
   * the atomic creation creates or replays, or FAILED with the worker's message if that is refused.
   */
  lemma DeliveryCanRun(c: Config, w: World, j: JobId, l: LegId, t: TxId, oid: OrderId, message: string)
    requires Reachable(c, w.sys) && j in w.sent && j in w.asked && j in w.jobs && l !in w.legs
    requires Enabled(w.sys, Begin(t, Create(w.asked[j], oid)))
    requires Free(w.sys, t, Wanted(w.asked[j]), KeyOf(Create(w.asked[j], oid)))
    ensures CanEnd(c, w, j, w.jobs[j], CreateOrder(c.catalog, w.sys.db, w.asked[j], oid), message)
  {
    var a := JustReceived(w, j, l);
    var events, w' := WorkOnIt(c, a, l, t, oid, message);
    ReportedEnds(w.jobs, j, CreateOrder(c.catalog, w.sys.db, w.asked[j], oid), message);
    assert Happened(c, w, Deliver(l, j)) == a;
    assert ([Deliver(l, j)] + events)[1..] == events;
    assert Story(c, w, [Deliver(l, j)] + events, w');
  }

  /** So can a new job, in every world of every story, from its submission on. */
  lemma JobCanRun(c: Config, events: seq<Event>, w: World, j: JobId, req: Request, l: LegId, t: TxId, oid: OrderId,
                  message: string)
    requires Told(c, events, w) && j !in w.jobs && j !in w.asked && l !in w.legs
    requires Enabled(w.sys, Begin(t, Create(req, oid))) && Free(w.sys, t, Wanted(req), KeyOf(Create(req, oid)))
    ensures CanEnd(c, w, j, JobRow(JobPending, None, None), CreateOrder(c.catalog, w.sys.db, req, oid), message)
  {
    LeadsNowhere(c, Start(c));
    StoryRuns(c, Opening(c), events, w);
    var a := Sent(w, j, req);
    DeliveryCanRun(c, a, j, l, t, oid, message);
    SentFirst(c, w, j, req, CreateOrder(c.catalog, w.sys.db, req, oid), message);
  }

  lemma SentFirst(c: Config, w: World, j: JobId, req: Request, outcome: Outcome, message: string)
    requires j !in w.jobs && j !in w.asked
    requires CanEnd(c, Sent(w, j, req), j, JobRow(JobPending, None, None), outcome, message)
    ensures CanEnd(c, w, j, JobRow(JobPending, None, None), outcome, message)
  {
    var a := Sent(w, j, req);
    SubmitAndSend(c, w, j, req);
    var events, w' :| Story(c, a, events, w') && j in w'.jobs
      && EndedAs(JobRow(JobPending, None, None), outcome, message, w'.jobs[j]);
    StoriesJoin(c, w, [Submit(j, req), Dispatch(j)], a, events, w');
  }
}
