/** The worker: reading the log into the engine, and sending the jobs that are due. */
module Delivery {
  import opened Wrappers
  import opened IncidentState
  import opened JobSpec
  import opened Invariant
  import opened TimerLoop
  import opened MessageStore
  import opened Messages
  import opened Observing
  import opened Runs
  import opened AppendReader
  import opened AnyState
  import opened IncidentService
  import opened Reconciling

  const MINUTE: Time := 60_000_000_000

  /** What Notifier.Send reports: delivery, or an error that may be permanent or ask for a delay. */
  datatype SendOutcome =
    | Delivered(adapter: string, externalId: string)
    | NotDelivered(message: string, permanent: bool, retryAfter: Time)

  predicate Due(job: Job, now: Time) {
    job.sentAt.None? && !job.permanent && job.nextAt <= now
  }

  function Pow2(n: nat): nat { if n == 0 then 1 else 2 * Pow2(n - 1) }

  lemma Pow2Positive(n: nat)
    ensures Pow2(n) > 0
  {
  }

  /** Attempts are spaced by a doubling number of minutes, up to an hour. */
  function BackoffMinutes(attempt: nat): (minutes: nat)
    requires attempt > 0
    ensures 1 <= minutes <= 60
  {
    Pow2Positive(attempt - 1);
    if Pow2(attempt - 1) > 60 then 60 else Pow2(attempt - 1)
  }

  /** The delay before the next attempt stays within a tenth of min(2^(attempt-1), 60) minutes. */
  method RetryDelay(hash: nat, attempt: nat) returns (delay: Time)
    requires attempt > 0
    ensures 9 * BackoffMinutes(attempt) * MINUTE <= 10 * delay <= 11 * BackoffMinutes(attempt) * MINUTE
    ensures delay > 0
  {
    var minutes := Pow2(attempt - 1);
    Pow2Positive(attempt - 1);
    if minutes > 60 {
      minutes := 60;
    }
    var scaled := 6_000_000 * (9000 + hash % 2001);
    Within(minutes, 54_000_000_000, scaled);
    Within(minutes, scaled, 66_000_000_000);
    delay := minutes * scaled;
  }

  lemma Within(factor: nat, low: int, high: int)
    requires low <= high
    ensures factor * low <= factor * high
  {
  }

  ghost predicate DistinctIds(items: seq<Job>) {
    forall m, n :: 0 <= m < n < |items| ==> items[m].id != items[n].id
  }

  ghost predicate InCreationOrder(items: seq<Job>) {
    forall m, n :: 0 <= m < n < |items| ==> items[m].createdAt <= items[n].createdAt
  }

  method SortByCreation(items: seq<Job>) returns (sorted: seq<Job>)
    requires DistinctIds(items)
    ensures DistinctIds(sorted) && InCreationOrder(sorted)
    ensures forall job :: job in sorted <==> job in items
  {
    sorted := [];
    for n := 0 to |items|
      invariant DistinctIds(sorted) && InCreationOrder(sorted)
      invariant forall job :: job in sorted <==> job in items[..n]
    {
      var at := 0;
      while at < |sorted| && sorted[at].createdAt <= items[n].createdAt
        invariant at <= |sorted|
        invariant forall m :: 0 <= m < at ==> sorted[m].createdAt <= items[n].createdAt
      {
        at := at + 1;
      }
      forall m | 0 <= m < |sorted| ensures sorted[m].id != items[n].id {
        assert sorted[m] in items[..n];
      }
      sorted := sorted[..at] + [items[n]] + sorted[at..];
      assert items[..n + 1] == items[..n] + [items[n]];
    }
    assert items[..|items|] == items;
  }

  /** The delay before a retry: what the notifier asked for, or the backoff with its jitter. */
  predicate RetriedIn(attempt: nat, retryAfter: Time, delay: Time)
    requires attempt > 0
  {
    if retryAfter > 0 then delay == retryAfter
    else 9 * BackoffMinutes(attempt) * MINUTE <= 10 * delay <= 11 * BackoffMinutes(attempt) * MINUTE
  }

  /** What becomes of a due job: a receipt after a successful send, otherwise a failure that is final or retried
      later. */
  predicate Outcome(known: bool, before: Job, after: Job, send: SendOutcome, now: Time) {
    if !known then after == FailedJob(before, "incident not found", now, true)
    else match send
      case Delivered(adapter, externalId) => after == SentJob(before, adapter, externalId, now)
      case NotDelivered(message, permanent, retryAfter) =>
        && after == FailedJob(before, message, after.nextAt, permanent)
        && RetriedIn(before.attempts + 1, retryAfter, after.nextAt - now)
  }

  /** What the notifier answers, job by job. */
  datatype Answers = Answers(given: map<JobId, SendOutcome>, otherwise: SendOutcome)

  function AnswerOf(sends: Answers, j: JobId): SendOutcome {
    if j in sends.given then sends.given[j] else sends.otherwise
  }

  function JitterOf(jitter: map<JobId, nat>, j: JobId): nat { if j in jitter then jitter[j] else 0 }

  /** The world outside a dispatch: the incidents known, the notifier's answer for each job, and the instant. */
  datatype World = World(incidents: map<IncidentId, Incident>, sends: Answers, now: Time)

  predicate Known(w: World, job: Job) { job.incidentId in w.incidents }

  /** The jobs in done have had their outcome; the others are untouched. */
  ghost predicate Progress(before: map<JobId, Job>, after: map<JobId, Job>, done: set<JobId>, w: World) {
    && after.Keys == before.Keys && done <= before.Keys
    && (forall j :: j in before && j !in done ==> after[j] == before[j])
    && (forall j :: j in done ==>
        Due(before[j], w.now) && Outcome(Known(w, before[j]), before[j], after[j], AnswerOf(w.sends, j), w.now))
  }

  /** Each delivered job was due, was sent once, and in creation order. */
  ghost predicate SentOnce(before: map<JobId, Job>, delivered: seq<JobId>, now: Time) {
    && (forall n :: 0 <= n < |delivered| ==> delivered[n] in before && Due(before[delivered[n]], now))
    && (forall m, n :: 0 <= m < n < |delivered| ==>
          delivered[m] != delivered[n] && before[delivered[m]].createdAt <= before[delivered[n]].createdAt)
  }

  /** The receipts recorded are exactly the jobs delivered. */
  ghost predicate Receipts(before: map<JobId, Job>, after: map<JobId, Job>, delivered: seq<JobId>, now: Time) {
    && (forall n :: 0 <= n < |delivered| ==> delivered[n] in after && after[delivered[n]].sentAt == Some(now))
    && (forall j :: j in before && j in after && before[j].sentAt.None? && after[j].sentAt.Some? ==> j in delivered)
  }

  /** The state of a dispatch after the items in done. */
  ghost predicate Handled(before: map<JobId, Job>, after: map<JobId, Job>, done: set<JobId>, delivered: seq<JobId>,
                          w: World)
  {
    && Progress(before, after, done, w)
    && SentOnce(before, delivered, w.now)
    && Receipts(before, after, delivered, w.now)
    && (forall n :: 0 <= n < |delivered| ==> delivered[n] in done && AnswerOf(w.sends, delivered[n]).Delivered?)
  }

  lemma ReceiptsOneMore(before: map<JobId, Job>, middle: map<JobId, Job>, after: map<JobId, Job>,
                        delivered: seq<JobId>, now: Time, j: JobId, sent: bool)
    requires Receipts(before, middle, delivered, now) && j !in delivered && j in before && before[j].sentAt.None?
    requires j in after && after == middle[j := after[j]] && after[j].sentAt == if sent then Some(now) else None
    ensures Receipts(before, after, if sent then delivered + [j] else delivered, now)
  {
    var delivered' := if sent then delivered + [j] else delivered;
    assert sent ==> delivered'[|delivered|] == j;
    forall k | k in before && k in after && before[k].sentAt.None? && after[k].sentAt.Some? ensures k in delivered' {
      if k != j {
        var n :| 0 <= n < |delivered| && delivered[n] == k;
        assert delivered'[n] == k;
      }
    }
    forall n | 0 <= n < |delivered| ensures delivered[n] != j { assert delivered[n] in delivered; }
  }

  lemma SentOneMore(before: map<JobId, Job>, delivered: seq<JobId>, now: Time, j: JobId)
    requires SentOnce(before, delivered, now) && j !in delivered && j in before && Due(before[j], now)
    requires forall k :: k in delivered ==> k in before && before[k].createdAt <= before[j].createdAt
    ensures SentOnce(before, delivered + [j], now)
  {
  }

  lemma ProgressOneMore(before: map<JobId, Job>, middle: map<JobId, Job>, after: map<JobId, Job>, done: set<JobId>,
                        w: World, job: Job)
    requires Progress(before, middle, done, w) && job.id in before && job.id !in done && before[job.id] == job
    requires Due(job, w.now)
    requires job.id in after && after == middle[job.id := after[job.id]]
    requires Outcome(Known(w, job), job, after[job.id], AnswerOf(w.sends, job.id), w.now)
    ensures Progress(before, after, done + {job.id}, w)
  {
    assert after.Keys == before.Keys;
    forall j | j in before && j !in done + {job.id} ensures after[j] == before[j] { assert after[j] == middle[j]; }
    forall j | j in done + {job.id}
      ensures Due(before[j], w.now) && Outcome(Known(w, before[j]), before[j], after[j], AnswerOf(w.sends, j), w.now)
    {
      if j != job.id { assert after[j] == middle[j]; }
    }
  }

  lemma HandledOneMore(before: map<JobId, Job>, middle: map<JobId, Job>, after: map<JobId, Job>, done: set<JobId>,
                       delivered: seq<JobId>, w: World, job: Job, sent: bool, delivered': seq<JobId>)
    requires Handled(before, middle, done, delivered, w)
    requires delivered' == if sent then delivered + [job.id] else delivered
    requires job.id in before && job.id !in done && before[job.id] == job && Due(job, w.now)
    requires forall j :: j in done ==> j in before && before[j].createdAt <= job.createdAt
    requires job.id in after && after == middle[job.id := after[job.id]]
    requires Outcome(Known(w, job), job, after[job.id], AnswerOf(w.sends, job.id), w.now)
    requires sent <==> Known(w, job) && AnswerOf(w.sends, job.id).Delivered?
    ensures Handled(before, after, done + {job.id}, delivered', w)
  {
    assert forall k :: k in delivered ==> k in done;
    ReceiptsOneMore(before, middle, after, delivered, w.now, job.id, sent);
    if sent { SentOneMore(before, delivered, w.now, job.id); }
    ProgressOneMore(before, middle, after, done, w, job);
  }

  ghost function Ids(items: seq<Job>): set<JobId> {
    set n | 0 <= n < |items| :: items[n].id
  }

  /** The items are exactly the due jobs, once each, in creation order. */
  ghost predicate Queued(jobs: map<JobId, Job>, items: seq<Job>, now: Time) {
    && (forall n :: 0 <= n < |items| ==> items[n].id in jobs && jobs[items[n].id] == items[n] && Due(items[n], now))
    && (forall j :: j in jobs && Due(jobs[j], now) ==> j in Ids(items))
    && DistinctIds(items) && InCreationOrder(items)
  }

  lemma QueuedNext(start: map<JobId, Job>, jobs: map<JobId, Job>, items: seq<Job>, n: nat, delivered: seq<JobId>,
                   w: World)
    requires Queued(start, items, w.now) && n < |items| && Handled(start, jobs, Ids(items[..n]), delivered, w)
    ensures items[n].id in jobs && jobs[items[n].id] == items[n] && items[n].id !in Ids(items[..n])
    ensures forall j :: j in Ids(items[..n]) ==> j in start && start[j].createdAt <= items[n].createdAt
    ensures Ids(items[..n + 1]) == Ids(items[..n]) + {items[n].id}
  {
    assert items[..n + 1][n] == items[n];
    forall m | 0 <= m < n ensures items[..n + 1][m] == items[..n][m] == items[m] {}
  }

  /** One job's outcome is recorded, and its receipt if it was delivered. */
  ghost predicate Dispatches(before: map<JobId, Job>, after: map<JobId, Job>, job: Job, delivered: seq<JobId>,
                             delivered': seq<JobId>, w: World)
  {
    && job.id in after && after == before[job.id := after[job.id]]
    && Outcome(Known(w, job), job, after[job.id], AnswerOf(w.sends, job.id), w.now)
    && delivered' == if Known(w, job) && AnswerOf(w.sends, job.id).Delivered? then delivered + [job.id] else delivered
  }

  /** The outcomes of the first count items are recorded, one after the other. */
  ghost predicate Dispatched(start: map<JobId, Job>, jobs: map<JobId, Job>, items: seq<Job>, count: nat,
                             delivered: seq<JobId>, w: World)
    requires count <= |items|
    decreases count
  {
    if count == 0 then jobs == start && delivered == []
    else
      var n, job := count - 1, items[count - 1];
      exists before, sofar ::
        Dispatched(start, before, items, n, sofar, w) && Dispatches(before, jobs, job, sofar, delivered, w)
  }

  lemma DispatchedOneMore(start: map<JobId, Job>, before: map<JobId, Job>, jobs: map<JobId, Job>, items: seq<Job>,
                          count: nat, sofar: seq<JobId>, w: World, sent: bool)
    requires count < |items| && Dispatched(start, before, items, count, sofar, w)
    requires items[count].id in jobs && jobs == before[items[count].id := jobs[items[count].id]]
    requires Outcome(Known(w, items[count]), items[count], jobs[items[count].id],
                     AnswerOf(w.sends, items[count].id), w.now)
    requires sent <==> Known(w, items[count]) && AnswerOf(w.sends, items[count].id).Delivered?
    ensures
      var delivered := if sent then sofar + [items[count].id] else sofar;
      Dispatched(start, jobs, items, count + 1, delivered, w)
  {
    var job, delivered := items[count], if sent then sofar + [items[count].id] else sofar;
    assert Dispatched(start, before, items, count, sofar, w) && Dispatches(before, jobs, job, sofar, delivered, w);
  }

  lemma {:induction false} DispatchedIsHandled(start: map<JobId, Job>, jobs: map<JobId, Job>, items: seq<Job>,
                                               count: nat, delivered: seq<JobId>, w: World)
    requires Queued(start, items, w.now) && count <= |items| && Dispatched(start, jobs, items, count, delivered, w)
    ensures Handled(start, jobs, Ids(items[..count]), delivered, w)
    decreases count
  {
    if count == 0 {
      assert Ids(items[..0]) == {};
      HandledNothing(jobs, w);
    } else {
      var n := count - 1;
      var before, sofar :| Dispatched(start, before, items, n, sofar, w)
        && Dispatches(before, jobs, items[n], sofar, delivered, w);
      DispatchedIsHandled(start, before, items, n, sofar, w);
      QueuedNext(start, before, items, n, sofar, w);
      HandledOneMore(start, before, jobs, Ids(items[..n]), sofar, w, items[n],
                     Known(w, items[n]) && AnswerOf(w.sends, items[n].id).Delivered?, delivered);
    }
  }

  /** The next item is as it was queued. */
  lemma NextIsUntouched(start: map<JobId, Job>, jobs: map<JobId, Job>, items: seq<Job>, count: nat,
                        delivered: seq<JobId>, w: World)
    requires Queued(start, items, w.now) && count < |items| && Dispatched(start, jobs, items, count, delivered, w)
    ensures items[count].id in jobs && jobs[items[count].id] == items[count] && Due(items[count], w.now)
  {
    DispatchedIsHandled(start, jobs, items, count, delivered, w);
    QueuedNext(start, jobs, items, count, delivered, w);
  }

  /** Whatever the outcome, the job is not due again at this instant. */
  lemma OutcomeNotDue(known: bool, before: Job, after: Job, send: SendOutcome, now: Time)
    requires Outcome(known, before, after, send, now)
    ensures !Due(after, now) && after.id == before.id && after.attempts <= before.attempts + 1
    ensures known && send.NotDelivered? ==> after.nextAt > now
  {
  }

  /** What was handled comes before, in creation order, what was not. */
  ghost predicate HandledFirst(jobs: map<JobId, Job>, done: set<JobId>, now: Time) {
    forall d, j :: d in done && d in jobs && j in jobs && j !in done && Due(jobs[j], now) ==>
      jobs[d].createdAt <= jobs[j].createdAt
  }

  /** The outcome of every due job can be saved. */
  ghost predicate AllSaved(jobs: map<JobId, Job>, saves: set<JobId>, now: Time) {
    forall j :: !Unsaved(jobs, saves, now, j)
  }

  /** A due job whose outcome cannot be saved. */
  predicate Unsaved(jobs: map<JobId, Job>, saves: set<JobId>, now: Time, j: JobId) {
    j in jobs && Due(jobs[j], now) && j !in saves
  }

  /** The dispatch stopped at the first job left, because its outcome could not be saved. */
  ghost predicate StoppedAt(jobs: map<JobId, Job>, done: set<JobId>, saves: set<JobId>, now: Time, j: JobId) {
    && Unsaved(jobs, saves, now, j) && j !in done
    && forall k :: k in jobs && k !in done && Due(jobs[k], now) ==> jobs[j].createdAt <= jobs[k].createdAt
  }

  lemma PrefixHandledFirst(jobs: map<JobId, Job>, items: seq<Job>, count: nat, now: Time)
    requires Queued(jobs, items, now) && count <= |items|
    ensures HandledFirst(jobs, Ids(items[..count]), now)
    ensures forall k :: k in jobs && k !in Ids(items[..count]) && Due(jobs[k], now) ==>
      count < |items| && jobs[items[count].id].createdAt <= jobs[k].createdAt
  {
    forall n | 0 <= n < count ensures items[n].id in Ids(items[..count]) { assert items[..count][n] == items[n]; }
    forall k | k in jobs && k !in Ids(items[..count]) && Due(jobs[k], now)
      ensures exists n :: count <= n < |items| && items[n].id == k
    {
      var n :| 0 <= n < |items| && items[n].id == k;
    }
    forall d, j | d in Ids(items[..count]) && d in jobs && j in jobs && j !in Ids(items[..count]) && Due(jobs[j], now)
      ensures jobs[d].createdAt <= jobs[j].createdAt
    {
      var m :| 0 <= m < count && items[..count][m].id == d;
      var n :| count <= n < |items| && items[n].id == j;
      assert items[m].createdAt <= items[n].createdAt;
    }
  }

  lemma HandledAll(start: map<JobId, Job>, jobs: map<JobId, Job>, items: seq<Job>, delivered: seq<JobId>, w: World)
    requires Queued(start, items, w.now) && Handled(start, jobs, Ids(items), delivered, w)
    ensures forall j :: j in jobs ==> !Due(jobs[j], w.now)
    ensures forall j :: j in start && Due(start[j], w.now) ==> j in Ids(items)
  {
    forall j | j in jobs ensures !Due(jobs[j], w.now) {
      if j in Ids(items) { OutcomeNotDue(Known(w, start[j]), start[j], jobs[j], AnswerOf(w.sends, j), w.now); }
    }
  }

  /** Where a dispatch stands that got through the first count items. */
  lemma DispatchEnds(start: map<JobId, Job>, jobs: map<JobId, Job>, items: seq<Job>, count: nat,
                     delivered: seq<JobId>, saves: set<JobId>, w: World)
    requires Queued(start, items, w.now) && count <= |items| && Dispatched(start, jobs, items, count, delivered, w)
    requires forall m :: 0 <= m < count ==> items[m].id in saves
    requires count < |items| ==> items[count].id !in saves
    ensures Handled(start, jobs, Ids(items[..count]), delivered, w)
    ensures Ids(items[..count]) == {} <==> count == 0
    ensures (forall d :: d in Ids(items[..count]) ==> d in saves) && HandledFirst(start, Ids(items[..count]), w.now)
    ensures if count == |items| then AllSaved(start, saves, w.now) && forall j :: j in jobs ==> !Due(jobs[j], w.now)
            else StoppedAt(start, Ids(items[..count]), saves, w.now, items[count].id)
  {
    DispatchedIsHandled(start, jobs, items, count, delivered, w);
    PrefixHandledFirst(start, items, count, w.now);
    if count > 0 { assert items[..count][0].id in Ids(items[..count]); }
    if count == |items| {
      assert items[..count] == items;
      HandledAll(start, jobs, items, delivered, w);
    } else {
      QueuedNext(start, jobs, items, count, delivered, w);
    }
  }

  lemma OutcomeKeepsShape(before: map<JobId, Job>, jobs: map<JobId, Job>, done: set<JobId>, delivered: seq<JobId>,
                          w: World, j: JobId)
    requires Handled(before, jobs, done, delivered, w) && j in jobs
    ensures j in before && jobs[j].id == before[j].id && jobs[j].incidentId == before[j].incidentId
    ensures jobs[j].kind == before[j].kind && jobs[j].createdAt == before[j].createdAt
  {
    if j in done { OutcomeNotDue(Known(w, before[j]), before[j], jobs[j], AnswerOf(w.sends, j), w.now); }
  }

  lemma HandledNothing(jobs: map<JobId, Job>, w: World)
    ensures Handled(jobs, jobs, {}, [], w)
  {
  }

  lemma HandledKeepsKeyed(before: map<JobId, Job>, jobs: map<JobId, Job>, done: set<JobId>, delivered: seq<JobId>,
                          w: World)
    requires Handled(before, jobs, done, delivered, w)
    ensures JobsKeyed(before) ==> JobsKeyed(jobs)
    ensures done == {} ==> jobs == before
  {
    forall j | j in jobs ensures j in before && jobs[j].id == before[j].id {
      OutcomeKeepsShape(before, jobs, done, delivered, w, j);
    }
  }

  /** Recording outcomes leaves the jobs exactly the wanted ones. */
  lemma HandledKeepsExact(wan: string, s: State, jobs: map<JobId, Job>, done: set<JobId>, delivered: seq<JobId>,
                          w: World)
    requires Handled(s.jobs, jobs, done, delivered, w) && JobsExact(wan, s)
    ensures JobsExact(wan, s.(jobs := jobs))
  {
    forall j | j in jobs ensures JobShape(j, jobs[j]) && jobs[j].createdAt == s.jobs[j].createdAt {
      OutcomeKeepsShape(s.jobs, jobs, done, delivered, w, j);
    }
  }

  /** How far a pass got. */
  datatype Progression = Unreadable(error: VisitError) | NotApplied | NotAdvanced | NotSent | Completed

  /** How a pass ends that got this far and then sent the jobs due, if it sent any. */
  ghost function Concluded(reached: Progression, jobs: map<JobId, Job>, saves: set<JobId>, now: Time): Progression {
    if reached.Completed? && !AllSaved(jobs, saves, now) then NotSent else reached
  }

  /** The jobs a pass handled, and the receipts it recorded. */
  datatype Sendings = Sendings(done: set<JobId>, delivered: seq<JobId>)

  /** What a pass that started from the snapshot read; it starts over exactly when something already read has
      changed. */
  ghost predicate Consumed(wan: string, decode: MessageDecoder, files: map<string, File>, before: Snapshot,
                           startedAt: Time, changed: Option<string>, paths: seq<string>, reading: Reading)
  {
    && ReadsLog(wan, decode, files, ContextOf(before, startedAt, changed), paths, reading)
    && (changed.None? <==> Readable(decode, files, before.cursors))
  }

  /** The records read are no older than the clock, and the state is exact from it on, unless it is rebuilt. */
  ghost predicate ReadInTime(cfg: Config, previous: State, changed: bool, observations: seq<Observation>, clock: Time,
                             now: Time)
  {
    Timely(clock, observations, now) && (changed || Inv(cfg, previous, clock))
  }

  /** For some clock they are. */
  ghost predicate InTime(cfg: Config, previous: State, changed: bool, observations: seq<Observation>, now: Time) {
    exists clock :: ReadInTime(cfg, previous, changed, observations, clock, now)
  }

  /** The state after the evidence of a pass, and then the timers due by now. */
  ghost predicate CaughtUp(cfg: Config, previous: State, changed: bool, observations: seq<Observation>, now: Time,
                           s: State)
  {
    && s == Settled(cfg.iface, Updated(cfg, previous, changed, observations), now)
    && CoreInv(cfg.iface, s.core, now)
    && (!changed ==> JobsExact(cfg.iface, s))
  }

  /** The state after the outcomes of the jobs sent. */
  ghost predicate SendsFrom(mid: State, now: Time, sends: Answers, sent: Sendings, s: State) {
    s.core == mid.core && Handled(mid.jobs, s.jobs, sent.done, sent.delivered, World(s.core.incidents, sends, now))
  }

  /** A tick gets to sending unless timers fired and that could not be saved. */
  ghost function Ticked(previous: State, now: Time, tickOk: bool): Progression {
    if !tickOk && !NothingDue(previous.core, now) then NotAdvanced else Completed
  }

  /** The state after the timers due by now, and then the outcomes of the jobs sent. */
  ghost predicate TickReaches(wan: string, previous: State, now: Time, sends: Answers, sent: Sendings, s: State) {
    SendsFrom(Settled(wan, previous, now), now, sends, sent, s)
  }

  /** The same for any state: the timers due fire in some legal order, then come the outcomes. */
  ghost predicate Ticks(wan: string, previous: State, now: Time, tickOk: bool, sends: Answers, saves: set<JobId>,
                        outcome: Progression, sent: Sendings, s: State)
  {
    exists mid ::
      && Advances(wan, previous, now, mid) && SendsFrom(mid, now, sends, sent, s)
      && outcome == Concluded(Ticked(previous, now, tickOk), mid.jobs, saves, now)
  }

  /** A tick saves nothing new after a failed save, or if no timer fired and no outcome was recorded. */
  predicate SavesNothing(quiet: bool, outcome: Progression, sent: Sendings) {
    outcome.NotAdvanced? || (quiet && sent.done == {})
  }

  /** What a tick leaves saved. */
  predicate TickSaves(quiet: bool, outcome: Progression, sent: Sendings, before: Option<Snapshot>,
                      after: Option<Snapshot>, current: Snapshot)
  {
    after == if SavesNothing(quiet, outcome, sent) then before else Some(current)
  }

  /** What a pass leaves saved: nothing new if it could not apply what it read, the applied state if its timers could
      not be saved, else all of it. */
  ghost predicate PassSaves(cfg: Config, previous: State, changed: bool, observations: seq<Observation>,
                            outcome: Progression, before: Option<Snapshot>, after: Option<Snapshot>, current: Snapshot)
  {
    match outcome
    case NotAdvanced => after == Some(current.(state := Updated(cfg, previous, changed, observations)))
    case NotSent | Completed => after == Some(current)
    case _ => after == before
  }

  /** How a pass ends whose evidence is applied and saved. */
  ghost function PassEnds(cfg: Config, previous: State, changed: bool, observations: seq<Observation>, now: Time,
                          tickOk: bool, saves: set<JobId>): Progression
  {
    var applied := Updated(cfg, previous, changed, observations);
    Concluded(Ticked(applied, now, tickOk), Settled(cfg.iface, applied, now).jobs, saves, now)
  }

  /** One pass: when, which saves succeed and what the notifier answers; how it ended, what it read and sent. */
  datatype Pass = Pass(now: Time, applyOk: bool, tickOk: bool, sends: Answers, saves: set<JobId>,
                       outcome: Progression, changed: Option<string>, paths: seq<string>, reading: Reading,
                       sent: Sendings)

  /** One tick between passes. */
  datatype TickStep = TickStep(now: Time, tickOk: bool, sends: Answers, saves: set<JobId>, outcome: Progression,
                               sent: Sendings)

  /** Where a pass whose records are in time leaves memory and the last snapshot, and how it ends. */
  ghost predicate Reached(cfg: Config, before: Snapshot, saved: Option<Snapshot>, p: Pass, after: Snapshot,
                          saved': Option<Snapshot>)
  {
    && PassReaches(cfg, before.state, p.changed.Some?, p.reading.observations, p.now, p.outcome, p.sends, p.sent,
                   after.state)
    && PassSaves(cfg, before.state, p.changed.Some?, p.reading.observations, p.outcome, saved, saved', after)
    && (p.applyOk ==>
          p.outcome == PassEnds(cfg, before.state, p.changed.Some?, p.reading.observations, p.now, p.tickOk, p.saves))
  }

  /** What a pass promises: it reads, applies or rebuilds, fires the timers due, sends; a failed save stops it before
      anything is sent. */
  ghost predicate PassPromised(cfg: Config, decode: MessageDecoder, startedAt: Time, files: map<string, File>,
                               before: Snapshot, saved: Option<Snapshot>, p: Pass, after: Snapshot,
                               saved': Option<Snapshot>)
  {
    if p.outcome.Unreadable? then
      && after == before && saved' == saved && p.sent == Sendings({}, []) && p.outcome.error.Undecodable?
      && Blames(decode, files, if p.changed.Some? then map[] else before.cursors, p.outcome.error)
    else
      && Consumed(cfg.iface, decode, files, before, startedAt, p.changed, p.paths, p.reading)
      && after.cursors == p.reading.next && after.bootstrapped && after.lastCheckpointAt == p.now
      && (p.outcome.NotApplied? <==> !p.applyOk)
      && (p.outcome.NotApplied? || p.outcome.NotAdvanced? ==> p.sent == Sendings({}, []))
      && (p.outcome.NotApplied? ==> saved' == saved)
      && (p.outcome.NotAdvanced? ==>
            && !p.tickOk && saved'.Some? && saved'.value == after.(state := saved'.value.state)
            && Advances(cfg.iface, saved'.value.state, p.now, after.state))
      && (p.outcome.NotSent? || p.outcome.Completed? ==> saved' == Some(after))
      && (InTime(cfg, before.state, p.changed.Some?, p.reading.observations, p.now) ==>
            Reached(cfg, before, saved, p, after, saved'))
  }

  /** What a tick promises: the timers due fire, then the jobs due are sent, unless the timers could not be saved. */
  ghost predicate TickPromised(iface: string, before: Snapshot, saved: Option<Snapshot>, t: TickStep, after: Snapshot,
                               saved': Option<Snapshot>)
  {
    && after == before.(state := after.state)
    && (t.outcome.NotAdvanced? <==> !t.tickOk && !NothingDue(before.state.core, t.now))
    && (t.outcome.NotAdvanced? ==> t.sent == Sendings({}, []))
    && Ticks(iface, before.state, t.now, t.tickOk, t.sends, t.saves, t.outcome, t.sent, after.state)
    && (CoreInv(iface, before.state.core, t.now) ==>
          TickReaches(iface, before.state, t.now, t.sends, t.sent, after.state))
    && TickSaves(NothingDue(before.state.core, t.now), t.outcome, t.sent, saved, saved', after)
  }

  /** The evidence of a pass applied, or rebuilt from, and the timers due fired; exactly so if the evidence is known to
      be in time. */
  ghost predicate Applies(cfg: Config, before: Snapshot, saved: Option<Snapshot>, reading: Reading, changed: bool,
                          now: Time, applyOk: bool, tickOk: bool, inTime: bool, stage: Progression, mid: Snapshot,
                          saved': Option<Snapshot>)
  {
    && (stage.NotApplied? || stage.NotAdvanced? || stage.Completed?)
    && mid.cursors == reading.next && mid.bootstrapped && mid.lastCheckpointAt == now
    && (stage.NotApplied? <==> !applyOk) && (stage.NotApplied? ==> saved' == saved)
    && (stage.NotAdvanced? ==>
          && !tickOk && saved'.Some? && saved'.value == mid.(state := saved'.value.state)
          && Advances(cfg.iface, saved'.value.state, now, mid.state))
    && (stage.Completed? ==> saved' == Some(mid))
    && (inTime ==>
          && (stage.NotApplied? ==> mid.state == Updated(cfg, before.state, changed, reading.observations))
          && (!stage.NotApplied? ==>
                && CaughtUp(cfg, before.state, changed, reading.observations, now, mid.state)
                && stage == Ticked(Updated(cfg, before.state, changed, reading.observations), now, tickOk))
          && PassSaves(cfg, before.state, changed, reading.observations, stage, saved, saved', mid))
  }

  /** What a pass promises before it sends. */
  ghost predicate Staged(cfg: Config, decode: MessageDecoder, startedAt: Time, files: map<string, File>,
                         before: Snapshot, saved: Option<Snapshot>, now: Time, applyOk: bool, tickOk: bool,
                         stage: Progression, changed: Option<string>, paths: seq<string>, reading: Reading,
                         mid: Snapshot, saved': Option<Snapshot>)
  {
    if stage.Unreadable? then
      && mid == before && saved' == saved && stage.error.Undecodable?
      && Blames(decode, files, if changed.Some? then map[] else before.cursors, stage.error)
    else
      && Consumed(cfg.iface, decode, files, before, startedAt, changed, paths, reading)
      && Applies(cfg, before, saved, reading, changed.Some?, now, applyOk, tickOk,
                 InTime(cfg, before.state, changed.Some?, reading.observations, now), stage, mid, saved')
  }

  /** The timers fire on what was applied and saved. */
  lemma AppliesThenTicks(cfg: Config, before: Snapshot, saved: Option<Snapshot>, reading: Reading, changed: bool,
                         now: Time, tickOk: bool, clock: Time, inTime: bool, applied: Snapshot, ticked: bool,
                         mid: Snapshot, saved': Option<Snapshot>)
    requires ConfigOk(cfg) && applied == Snapshot(applied.state, reading.next, true, now)
    requires inTime ==>
      && applied.state == Updated(cfg, before.state, changed, reading.observations)
      && (changed || Inv(cfg, before.state, clock))
      && Monotone(clock, Events(reading.observations)) && Clock(clock, Events(reading.observations)) <= now
    requires mid == applied.(state := mid.state) && Advances(cfg.iface, applied.state, now, mid.state)
    requires ticked <==> tickOk || NothingDue(applied.state.core, now)
    requires saved' == Some(if ticked then mid else applied)
    ensures Applies(cfg, before, saved, reading, changed, now, true, tickOk, inTime,
                    if ticked then Completed else NotAdvanced, mid, saved')
  {
    if inTime {
      UpdatedKeepsInv(cfg, before.state, changed, reading.observations, clock, now);
      AdvancesIsSettled(cfg.iface, applied.state, now, mid.state);
      SettleKeepsInv(cfg.iface, applied.state.core, now);
    }
  }

  /** A pass that stopped before sending. */
  lemma StageIsPass(cfg: Config, decode: MessageDecoder, startedAt: Time, files: map<string, File>, before: Snapshot,
                    saved: Option<Snapshot>, p: Pass, after: Snapshot, saved': Option<Snapshot>)
    requires Staged(cfg, decode, startedAt, files, before, saved, p.now, p.applyOk, p.tickOk, p.outcome, p.changed,
                    p.paths, p.reading, after, saved')
    requires p.sent == Sendings({}, []) && (p.outcome.Unreadable? || p.outcome.NotApplied? || p.outcome.NotAdvanced?)
    ensures PassPromised(cfg, decode, startedAt, files, before, saved, p, after, saved')
  {
    if !p.outcome.Unreadable? && InTime(cfg, before.state, p.changed.Some?, p.reading.observations, p.now) {
      if p.outcome.NotAdvanced? {
        SendsNothing(after.state, p.now, p.sends);
        SendingsReach(cfg, before.state, p.changed.Some?, p.reading.observations, p.now, p.outcome, p.sends, p.sent,
                      after.state, after.state);
      }
      assert Reached(cfg, before, saved, p, after, saved');
    }
  }

  /** Sending completes a pass that got to it. */
  lemma StageThenSend(cfg: Config, decode: MessageDecoder, startedAt: Time, files: map<string, File>,
                      before: Snapshot, saved: Option<Snapshot>, mid: Snapshot, p: Pass, after: Snapshot,
                      saved': Option<Snapshot>)
    requires Staged(cfg, decode, startedAt, files, before, saved, p.now, p.applyOk, p.tickOk, Completed, p.changed,
                    p.paths, p.reading, mid, Some(mid))
    requires p.outcome == Concluded(Completed, mid.state.jobs, p.saves, p.now)
    requires after == mid.(state := after.state) && SendsFrom(mid.state, p.now, p.sends, p.sent, after.state)
    requires saved' == Some(after)
    ensures PassPromised(cfg, decode, startedAt, files, before, saved, p, after, saved')
  {
    if InTime(cfg, before.state, p.changed.Some?, p.reading.observations, p.now) {
      SendingsReach(cfg, before.state, p.changed.Some?, p.reading.observations, p.now, p.outcome, p.sends, p.sent,
                    mid.state, after.state);
      assert Reached(cfg, before, saved, p, after, saved');
    }
  }

  lemma SendsNothing(s: State, now: Time, sends: Answers)
    ensures SendsFrom(s, now, sends, Sendings({}, []), s)
  {
    HandledNothing(s.jobs, World(s.core.incidents, sends, now));
  }

  lemma TicksThenSends(wan: string, previous: State, now: Time, tickOk: bool, sends: Answers, saves: set<JobId>,
                       outcome: Progression, sent: Sendings, reached: State, s: State)
    requires Advances(wan, previous, now, reached) && SendsFrom(reached, now, sends, sent, s)
    requires outcome == Concluded(Ticked(previous, now, tickOk), reached.jobs, saves, now)
    ensures Ticks(wan, previous, now, tickOk, sends, saves, outcome, sent, s)
    ensures CoreInv(wan, previous.core, now) ==> TickReaches(wan, previous, now, sends, sent, s)
  {
    if CoreInv(wan, previous.core, now) { AdvancesIsSettled(wan, previous, now, reached); }
  }

  /** The state after a pass: the evidence, then, if that was saved, the timers due by now,
      then the outcomes of the jobs sent. */
  ghost predicate PassReaches(cfg: Config, previous: State, changed: bool, observations: seq<Observation>, now: Time,
                              outcome: Progression, sends: Answers, sent: Sendings, s: State) {
    if outcome.NotApplied? then s == Updated(cfg, previous, changed, observations)
    else
      && TickReaches(cfg.iface, Updated(cfg, previous, changed, observations), now, sends, sent, s)
      && CoreInv(cfg.iface, s.core, now)
      && (!changed ==> JobsExact(cfg.iface, s))
  }

  lemma SendingsReach(cfg: Config, previous: State, changed: bool, observations: seq<Observation>, now: Time,
                      outcome: Progression, sends: Answers, sent: Sendings, reached: State, s: State)
    requires CaughtUp(cfg, previous, changed, observations, now, reached) && !outcome.NotApplied?
    requires SendsFrom(reached, now, sends, sent, s)
    ensures PassReaches(cfg, previous, changed, observations, now, outcome, sends, sent, s)
  {
    if !changed {
      HandledKeepsExact(cfg.iface, reached, s.jobs, sent.done, sent.delivered, World(s.core.incidents, sends, now));
    }
  }

  class Worker {
    const engine: Service
    const store: FileStore
    const decode: MessageDecoder
    const startedAt: Time

    constructor (engine: Service, store: FileStore, decode: MessageDecoder, startedAt: Time)
      ensures this.engine == engine && this.store == store && this.decode == decode && this.startedAt == startedAt
    {
      this.engine, this.store, this.decode, this.startedAt := engine, store, decode, startedAt;
    }

    /** Visits what is new, or the whole log when something already read has changed. */
    method Visit()
      returns (r: Result<seq<StoredRecord>, VisitError>, next: map<string, Cursor>, changed: Option<string>,
               ghost paths: seq<string>)
      ensures r.Success? ==>
        Visits(decode, store.files, if changed.Some? then map[] else engine.cursors, paths, next, r.value)
      ensures changed.None? && r.Success? ==> Readable(decode, store.files, engine.cursors)
      ensures changed.Some? ==>
        Blames(decode, store.files, engine.cursors, PartitionChanged(changed.value))
          && !Readable(decode, store.files, engine.cursors)
      ensures r.Failure? ==>
        r.error.Undecodable? && Blames(decode, store.files, if changed.Some? then map[] else engine.cursors, r.error)
    {
      changed := None;
      r, next, paths := VisitAfter(store, decode, engine.cursors);
      if r.Failure? && r.error.PartitionChanged? {
        changed := Some(r.error.file);
        r, next, paths := VisitAfter(store, decode, map[]);
        if r.Failure? { NothingReadNothingChanged(decode, store.files, r.error); }
      }
    }

    /** Makes observations of the records visited. */
    method Read() returns (r: Result<Reading, VisitError>, changed: Option<string>, ghost paths: seq<string>)
      ensures r.Success? ==>
        ReadsLog(engine.cfg.iface, decode, store.files, ContextOf(engine.Current(), startedAt, changed), paths, r.value)
      ensures r.Success? ==> (changed.None? <==> Readable(decode, store.files, engine.cursors))
      ensures r.Failure? ==>
        r.error.Undecodable? && Blames(decode, store.files, if changed.Some? then map[] else engine.cursors, r.error)
    {
      var visited, next;
      visited, next, changed, paths := Visit();
      if visited.Failure? {
        return Failure(visited.error), changed, paths;
      }
      var wan, ctx := engine.cfg.iface,
        Context(engine.bootstrapped, startedAt, engine.lastCheckpointAt, engine.cursors, changed);
      var records := Ordering(wan, visited.value);
      forall record | record in records ensures Supported(wan, record) { OrderingMembers(wan, visited.value, record); }
      var observations := Judge(wan, ctx, records);
      r := Success(Reading(next, observations));
    }

    /** Applies the evidence, or rebuilds from it, and saves that with the new cursors. */
    method Consume(reading: Reading, changed: bool, now: Time, applyOk: bool, ghost clock: Time, ghost inTime: bool)
      returns (applied: bool)
      requires ConfigOk(engine.cfg)
      requires inTime ==>
        (changed || Inv(engine.cfg, engine.Derived(), clock)) && Monotone(clock, Events(reading.observations))
      modifies engine
      ensures applied == applyOk && engine.saved == if applied then Some(engine.Current()) else old(engine.saved)
      ensures engine.Current() == Snapshot(engine.Derived(), reading.next, true, now)
      ensures inTime ==> engine.Derived() == Updated(engine.cfg, old(engine.Derived()), changed, reading.observations)
      ensures JobsKeyed(old(engine.jobs)) ==> JobsKeyed(engine.jobs)
    {
      if changed {
        applied := engine.Rebuild(reading.observations, reading.next, now, applyOk, clock);
      } else {
        applied := engine.Apply(reading.observations, reading.next, now, applyOk, clock);
      }
    }

    /** Applies what was read and fires the timers due. */
    method Update(reading: Reading, changed: bool, now: Time, applyOk: bool, tickOk: bool, ghost clock: Time,
                  ghost inTime: bool)
      returns (stage: Progression)
      requires ConfigOk(engine.cfg)
      requires inTime ==>
        && (changed || Inv(engine.cfg, engine.Derived(), clock))
        && Monotone(clock, Events(reading.observations)) && Clock(clock, Events(reading.observations)) <= now
      modifies engine
      ensures JobsKeyed(old(engine.jobs)) ==> JobsKeyed(engine.jobs)
      ensures Applies(engine.cfg, old(engine.Current()), old(engine.saved), reading, changed, now, applyOk, tickOk,
                      inTime, stage, engine.Current(), engine.saved)
    {
      ghost var before, saved := engine.Current(), engine.saved;
      var applied := Consume(reading, changed, now, applyOk, clock, inTime);
      if !applied { return NotApplied; }
      ghost var consumed := engine.Current();
      var ticked := engine.Tick(now, tickOk);
      stage := if ticked then Completed else NotAdvanced;
      AppliesThenTicks(engine.cfg, before, saved, reading, changed, now, tickOk, clock, inTime, consumed, ticked,
                       engine.Current(), engine.saved);
    }

    method DueNotifications(now: Time) returns (items: seq<Job>)
      requires JobsKeyed(engine.jobs)
      ensures forall job :: job in items <==> job.id in engine.jobs && engine.jobs[job.id] == job && Due(job, now)
      ensures DistinctIds(items) && InCreationOrder(items)
      ensures Queued(engine.jobs, items, now)
    {
      items := [];
      var rest := engine.jobs.Keys;
      while rest != {}
        invariant rest <= engine.jobs.Keys
        invariant forall job :: job in items <==>
          job.id in engine.jobs && job.id !in rest && engine.jobs[job.id] == job && Due(job, now)
        invariant DistinctIds(items)
        decreases |rest|
      {
        var id :| id in rest;
        rest := rest - {id};
        var job := engine.jobs[id];
        if job.sentAt.None? && !job.permanent && job.nextAt <= now {
          items := items + [job];
        }
      }
      items := SortByCreation(items);
      forall n | 0 <= n < |items| ensures items[n] in items {}
      forall j | j in engine.jobs && Due(engine.jobs[j], now) ensures j in Ids(items) {
        assert engine.jobs[j] in items;
        var n :| 0 <= n < |items| && items[n] == engine.jobs[j];
      }
    }

    /** Sends one due job and records the outcome; on a failed save the job is as before. */
    method DispatchOne(job: Job, now: Time, send: SendOutcome, saveOk: bool, jitter: nat)
      returns (marked: bool, ghost sent: bool)
      requires job.id in engine.jobs && engine.jobs[job.id] == job && Due(job, now)
      modifies engine`jobs, engine`saved
      ensures marked == saveOk
      ensures sent <==> job.incidentId in engine.incidents && send.Delivered?
      ensures marked ==>
        && job.id in engine.jobs
        && engine.jobs == old(engine.jobs)[job.id := engine.jobs[job.id]]
        && Outcome(job.incidentId in engine.incidents, job, engine.jobs[job.id], send, now)
        && engine.saved == Some(engine.Current())
      ensures !marked ==> engine.jobs == old(engine.jobs) && engine.saved == old(engine.saved)
    {
      sent := false;
      if job.incidentId !in engine.incidents {
        marked := engine.MarkNotificationFailed(job.id, "incident not found", now, true, saveOk);
      } else {
        match send {
          case Delivered(adapter, externalId) =>
            sent := true;
            marked := engine.MarkNotificationSent(job.id, adapter, externalId, now, saveOk);
          case NotDelivered(message, permanent, retryAfter) =>
            var delay := RetryDelay(jitter, job.attempts + 1);
            var next := now + delay;
            if retryAfter > 0 { next := now + retryAfter; }
            marked := engine.MarkNotificationFailed(job.id, message, next, permanent, saveOk);
        }
      }
    }

    /** The dispatch loop: it handles the items in order, up to the first one whose outcome could not be saved. */
    method DispatchItems(items: seq<Job>, now: Time, sends: Answers, saves: set<JobId>,
                         jitter: map<JobId, nat>)
      returns (count: nat, ghost delivered: seq<JobId>, ghost lost: Option<JobId>)
      requires Queued(engine.jobs, items, now)
      modifies engine`jobs, engine`saved
      ensures count <= |items|
      ensures Dispatched(old(engine.jobs), engine.jobs, items, count, delivered, World(engine.incidents, sends, now))
      ensures forall m :: 0 <= m < count ==> items[m].id in saves
      ensures count < |items| ==> items[count].id !in saves
      ensures lost.Some? ==> count < |items| && lost.value == items[count].id && AnswerOf(sends, lost.value).Delivered?
      ensures engine.saved == if count == 0 then old(engine.saved) else Some(engine.Current())
    {
      ghost var start, w := engine.jobs, World(engine.incidents, sends, now);
      count, delivered, lost := 0, [], None;
      while count < |items|
        invariant count <= |items| && lost.None?
        invariant Dispatched(start, engine.jobs, items, count, delivered, w)
        invariant forall m :: 0 <= m < count ==> items[m].id in saves
        invariant engine.saved == if count == 0 then old(engine.saved) else Some(engine.Current())
      {
        var job := items[count];
        ghost var before := engine.jobs;
        NextIsUntouched(start, before, items, count, delivered, w);
        var marked, sent := DispatchOne(job, now, AnswerOf(sends, job.id), job.id in saves, JitterOf(jitter, job.id));
        if !marked {
          lost := if sent then Some(job.id) else None;
          return;
        }
        DispatchedOneMore(start, before, engine.jobs, items, count, delivered, w, sent);
        delivered := if sent then delivered + [job.id] else delivered;
        count := count + 1;
      }
    }

    /** Sends every due job once, in creation order, and records each outcome before the next one is sent.
        delivered are the receipts recorded; lost is a job that was sent although its receipt could not be saved.
        The notifier's answers, the success of each save and the jitter come from outside. */
    method Dispatch(now: Time, sends: Answers, saves: set<JobId>, jitter: map<JobId, nat>)
      returns (success: bool, ghost done: set<JobId>, ghost delivered: seq<JobId>, ghost lost: Option<JobId>)
      requires JobsKeyed(engine.jobs)
      modifies engine`jobs, engine`saved
      ensures Handled(old(engine.jobs), engine.jobs, done, delivered, World(engine.incidents, sends, now))
      ensures success ==> forall j :: j in engine.jobs ==> !Due(engine.jobs[j], now)
      ensures success <==> AllSaved(old(engine.jobs), saves, now)
      ensures (forall d :: d in done ==> d in saves) && HandledFirst(old(engine.jobs), done, now)
      ensures !success ==> exists j :: StoppedAt(old(engine.jobs), done, saves, now, j)
      ensures lost.Some? ==>
        !success && StoppedAt(old(engine.jobs), done, saves, now, lost.value) && AnswerOf(sends, lost.value).Delivered?
      ensures engine.saved == (if done == {} then old(engine.saved) else Some(engine.Current()))
    {
      ghost var start, w := engine.jobs, World(engine.incidents, sends, now);
      var items := DueNotifications(now);
      var count;
      count, delivered, lost := DispatchItems(items, now, sends, saves, jitter);
      DispatchEnds(start, engine.jobs, items, count, delivered, saves, w);
      done := Ids(items[..count]);
      success := count == |items|;
    }

    /** Dispatch, as the last part of a pass. */
    method Send(now: Time, sends: Answers, saves: set<JobId>, jitter: map<JobId, nat>)
      returns (outcome: Progression, ghost sent: Sendings)
      requires JobsKeyed(engine.jobs)
      modifies engine`jobs, engine`saved
      ensures JobsKeyed(engine.jobs)
      ensures Handled(old(engine.jobs), engine.jobs, sent.done, sent.delivered, World(engine.incidents, sends, now))
      ensures outcome == Concluded(Completed, old(engine.jobs), saves, now)
      ensures outcome.Completed? ==> forall j :: j in engine.jobs ==> !Due(engine.jobs[j], now)
      ensures outcome.NotSent? ==> exists j :: Unsaved(engine.jobs, saves, now, j)
      ensures engine.saved == if sent.done == {} then old(engine.saved) else Some(engine.Current())
      ensures sent.done == {} ==> engine.jobs == old(engine.jobs)
    {
      ghost var before := engine.jobs;
      var success, done, delivered, lost := Dispatch(now, sends, saves, jitter);
      sent := Sendings(done, delivered);
      outcome := if success then Completed else NotSent;
      HandledKeepsKeyed(before, engine.jobs, done, delivered, World(engine.incidents, sends, now));
      if !success {
        ghost var j :| StoppedAt(before, done, saves, now, j);
        assert Unsaved(engine.jobs, saves, now, j);
      }
    }

    /** The pass between reconciliations: fire the timers, send. A failed save of fired timers stops it before anything
        is sent; a save that failed earlier does not hold it back. */
    method Tick(now: Time, tickOk: bool, sends: Answers, saves: set<JobId>, jitter: map<JobId, nat>)
      returns (outcome: Progression, ghost sent: Sendings)
      requires JobsKeyed(engine.jobs)
      modifies engine`trackers, engine`incidents, engine`jobs, engine`saved
      ensures JobsKeyed(engine.jobs)
      ensures TickPromised(engine.cfg.iface, old(engine.Current()), old(engine.saved),
                           TickStep(now, tickOk, sends, saves, outcome, sent), engine.Current(), engine.saved)
      ensures outcome.Completed? ==> forall j :: j in engine.jobs ==> !Due(engine.jobs[j], now)
      ensures outcome.NotSent? ==> exists j :: Unsaved(engine.jobs, saves, now, j)
    {
      ghost var previous := engine.Derived();
      var ticked := engine.Tick(now, tickOk);
      ghost var reached := engine.Derived();
      outcome, sent := NotAdvanced, Sendings({}, []);
      SendsNothing(reached, now, sends);
      if ticked {
        outcome, sent := Send(now, sends, saves, jitter);
      }
      TicksThenSends(engine.cfg.iface, previous, now, tickOk, sends, saves, outcome, sent, reached, engine.Derived());
    }

    /** Reads, applies or rebuilds, and fires the timers. */
    method CatchUp(now: Time, applyOk: bool, tickOk: bool)
      returns (reached: Progression, changed: Option<string>, ghost reading: Reading, ghost paths: seq<string>)
      requires ConfigOk(engine.cfg)
      modifies engine
      ensures JobsKeyed(old(engine.jobs)) ==> JobsKeyed(engine.jobs)
      ensures !reached.NotSent?
      ensures Staged(engine.cfg, decode, startedAt, store.files, old(engine.Current()), old(engine.saved), now, applyOk,
                     tickOk, reached, changed, paths, reading, engine.Current(), engine.saved)
    {
      reading := Reading(map[], []);
      ghost var previous, ctx := engine.Derived(), ContextOf(engine.Current(), startedAt, None);
      var r;
      r, changed, paths := Read();
      if r.Failure? {
        reached := Unreadable(r.error);
        return;
      }
      reading := r.value;
      ghost var clock := now;
      ghost var inTime := InTime(engine.cfg, previous, changed.Some?, r.value.observations, now);
      if c :| ReadInTime(engine.cfg, previous, changed.Some?, r.value.observations, c, now) {
        clock := c;
        PassIsMonotone(engine.cfg.iface, decode, store.files, ctx.(changed := changed), paths, r.value, c, now);
      }
      reached := Update(r.value, changed.Some?, now, applyOk, tickOk, clock, inTime);
    }

    /** One pass of the worker: read, apply or rebuild, fire the timers, send. When every record is in time, the state
        is that of the specification, then advanced to now, then marked with the outcomes of the jobs sent. */
    method Reconcile(now: Time, applyOk: bool, tickOk: bool, sends: Answers, saves: set<JobId>,
                     jitter: map<JobId, nat>)
      returns (outcome: Progression, changed: Option<string>, ghost reading: Reading, ghost paths: seq<string>,
               ghost sent: Sendings)
      requires ConfigOk(engine.cfg) && JobsKeyed(engine.jobs)
      modifies engine
      ensures JobsKeyed(engine.jobs)
      ensures PassPromised(engine.cfg, decode, startedAt, store.files, old(engine.Current()), old(engine.saved),
                           Pass(now, applyOk, tickOk, sends, saves, outcome, changed, paths, reading, sent),
                           engine.Current(), engine.saved)
      ensures outcome.Completed? ==> forall j :: j in engine.jobs ==> !Due(engine.jobs[j], now)
      ensures outcome.NotSent? ==> exists j :: Unsaved(engine.jobs, saves, now, j)
    {
      ghost var before, saved := engine.Current(), engine.saved;
      var stage;
      stage, changed, reading, paths := CatchUp(now, applyOk, tickOk);
      outcome, sent := stage, Sendings({}, []);
      if !stage.Completed? {
        StageIsPass(engine.cfg, decode, startedAt, store.files, before, saved,
                    Pass(now, applyOk, tickOk, sends, saves, outcome, changed, paths, reading, sent),
                    engine.Current(), engine.saved);
        return;
      }
      ghost var mid := engine.Current();
      outcome, sent := Send(now, sends, saves, jitter);
      StageThenSend(engine.cfg, decode, startedAt, store.files, before, saved, mid,
                    Pass(now, applyOk, tickOk, sends, saves, outcome, changed, paths, reading, sent),
                    engine.Current(), engine.saved);
    }
  }
}
