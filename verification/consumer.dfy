/**
  The multi-queue consumer `AmqpxConsumer` of consumer.go.

  A handler is a function from a message body to its outcome (it returns
  nil, returns an error, or panics). Broker calls the consumer makes, through
  its `Amqpx` or on a delivery, land in that instance's call log; the jobs
  `Start` launches are recorded as (key, entry) pairs, and `Stop` reports the
  order of its shutdown steps.
 */
module Consumer {
  import opened Options
  import opened ConsumerKeys
  import opened Amqpd

  /** What a handler invocation does with one delivery. */
  datatype Outcome = Ok | Err | Panic

  type Handler = Body -> Outcome

  /** A registered binding: the queue to consume and the handler for its messages. */
  datatype Entry = Entry(queue: string, handler: Handler)

  /** A consumption job launched by `Start` for one registered key. */
  datatype Job = Job(key: string, entry: Entry)

  /** The steps of the shutdown task that `Stop` starts. */
  datatype Step = CancelStep(key: string) | WaitStep | CloseStep | DoneStep

  /** The process-wide `consumerSeq` counter. */
  class ConsumerSeq {
    var value: uint64

    constructor ()
      ensures value == 0
    {
      value := 0;
    }
  }

  /** `runWithRecovery`: a panic is recovered and then counts as no error. */
  function RunWithRecovery(h: Handler, body: Body): (failed: bool)
    ensures failed <==> h(body) == Err
    ensures h(body) == Panic ==> !failed
  {
    match h(body)
    case Err => true
    case Ok => false
    case Panic => false
  }

  /** The acknowledgement or rejection `consume` sends for each delivery of a stream, in order. */
  function Dispositions(ds: seq<Delivery>, h: Handler): (cs: seq<Call>)
    ensures |cs| == |ds|
  {
    if ds == [] then []
    else
      var d := ds[|ds| - 1];
      Dispositions(ds[..|ds| - 1], h)
        + [if RunWithRecovery(h, d.body) then RejectCall(d.tag, true) else AckCall(d.tag, false)]
  }

  /** One disposition per delivery, in stream order: a rejection with requeue when the handler
      returned an error, a single acknowledgement otherwise (a recovered panic included). */
  lemma {:induction false} DispositionAt(ds: seq<Delivery>, h: Handler, i: nat)
    requires i < |ds|
    ensures Dispositions(ds, h)[i]
      == if h(ds[i].body) == Err then RejectCall(ds[i].tag, true) else AckCall(ds[i].tag, false)
  {
    if i < |ds| - 1 {
      DispositionAt(ds[..|ds| - 1], h, i);
    }
  }

  /** Every disposition carries the fixed flags: no multiple acknowledgement, always requeue. */
  lemma DispositionsFixed(ds: seq<Delivery>, h: Handler)
    ensures AllFixed(Dispositions(ds, h))
  {
    forall i | 0 <= i < |ds|
      ensures FixedFlags(Dispositions(ds, h)[i])
    {
      DispositionAt(ds, h, i);
    }
  }

  lemma DispositionsSnoc(ds: seq<Delivery>, i: nat, h: Handler)
    requires i < |ds|
    ensures Dispositions(ds[..i + 1], h) == Dispositions(ds[..i], h)
      + [if h(ds[i].body) == Err then RejectCall(ds[i].tag, true) else AckCall(ds[i].tag, false)]
  {
    assert ds[..i + 1][..i] == ds[..i];
  }

  function CountAcks(cs: seq<Call>): nat {
    if cs == [] then 0 else CountAcks(cs[..|cs| - 1]) + (if cs[|cs| - 1].AckCall? then 1 else 0)
  }

  function CountRejects(cs: seq<Call>): nat {
    if cs == [] then 0 else CountRejects(cs[..|cs| - 1]) + (if cs[|cs| - 1].RejectCall? then 1 else 0)
  }

  /** The number of deliveries whose handler returned an error. */
  function CountFailed(ds: seq<Delivery>, h: Handler): nat {
    if ds == [] then 0 else CountFailed(ds[..|ds| - 1], h) + (if h(ds[|ds| - 1].body) == Err then 1 else 0)
  }

  /** Each delivery gets exactly one disposition: as many rejections as failed handler
      runs, and an acknowledgement for every other delivery. */
  lemma {:induction false} DispositionCounts(ds: seq<Delivery>, h: Handler)
    ensures CountRejects(Dispositions(ds, h)) == CountFailed(ds, h)
    ensures CountAcks(Dispositions(ds, h)) == |ds| - CountFailed(ds, h)
    ensures CountFailed(ds, h) <= |ds|
  {
    if ds != [] {
      var init := ds[..|ds| - 1];
      var cs := Dispositions(ds, h);
      assert cs[..|cs| - 1] == Dispositions(init, h);
      DispositionCounts(init, h);
    }
  }

  /** A handler that always fails gets every delivery rejected with requeue, none acknowledged;
      one that never returns an error (a panic included) gets every delivery acknowledged. */
  lemma {:induction false} UniformHandler(ds: seq<Delivery>, h: Handler)
    ensures (forall i :: 0 <= i < |ds| ==> h(ds[i].body) == Err) ==>
      CountAcks(Dispositions(ds, h)) == 0 && CountRejects(Dispositions(ds, h)) == |ds|
    ensures (forall i :: 0 <= i < |ds| ==> h(ds[i].body) != Err) ==>
      CountAcks(Dispositions(ds, h)) == |ds| && CountRejects(Dispositions(ds, h)) == 0
  {
    DispositionCounts(ds, h);
    AllFailedCount(ds, h);
  }

  lemma {:induction false} AllFailedCount(ds: seq<Delivery>, h: Handler)
    ensures (forall i :: 0 <= i < |ds| ==> h(ds[i].body) == Err) ==> CountFailed(ds, h) == |ds|
    ensures (forall i :: 0 <= i < |ds| ==> h(ds[i].body) != Err) ==> CountFailed(ds, h) == 0
  {
    if ds != [] {
      AllFailedCount(ds[..|ds| - 1], h);
    }
  }

  /** The calls one `consume` makes: the consume request, then one disposition per delivery
      when the request succeeded. */
  function ConsumeLog(ch: Channel, queue: string, consumer: string, h: Handler,
                      reply: Option<seq<Delivery>>): seq<Call>
  {
    [ConsumeCall(ch, queue, consumer, false, false, false, false)]
      + (match reply
         case None => []
         case Some(ds) => Dispositions(ds, h))
  }

  /** The calls of successive `consume` rounds of one job. */
  function RunLog(ch: Channel, key: string, e: Entry, replies: seq<Option<seq<Delivery>>>): seq<Call> {
    if replies == [] then []
    else RunLog(ch, key, e, replies[..|replies| - 1])
           + ConsumeLog(ch, e.queue, key, e.handler, replies[|replies| - 1])
  }

  lemma RunLogSnoc(ch: Channel, key: string, e: Entry, replies: seq<Option<seq<Delivery>>>, i: nat)
    requires i < |replies|
    ensures RunLog(ch, key, e, replies[..i + 1])
      == RunLog(ch, key, e, replies[..i]) + ConsumeLog(ch, e.queue, key, e.handler, replies[i])
  {
    assert replies[..i + 1][..i] == replies[..i];
  }

  /** Every call a job makes carries the fixed flags: manual acknowledgement, no multiple
      acknowledgement, rejection with requeue. */
  lemma {:induction false} RunLogFixed(ch: Channel, key: string, e: Entry, replies: seq<Option<seq<Delivery>>>)
    ensures AllFixed(RunLog(ch, key, e, replies))
  {
    if replies != [] {
      RunLogFixed(ch, key, e, replies[..|replies| - 1]);
      var r := replies[|replies| - 1];
      if r.Some? {
        DispositionsFixed(r.value, e.handler);
      }
    }
  }

  /** `ks` lists every element of `s` exactly once. */
  ghost predicate Enumerates(ks: seq<string>, s: set<string>) {
    && (forall i, j :: 0 <= i < j < |ks| ==> ks[i] != ks[j])
    && (forall k :: k in ks <==> k in s)
  }

  lemma {:induction false} EnumerationLength(ks: seq<string>, s: set<string>)
    requires Enumerates(ks, s)
    ensures |ks| == |s|
  {
    if ks != [] {
      var last := ks[|ks| - 1];
      var init := ks[..|ks| - 1];
      assert forall k :: k in init <==> k in s - {last} by {
        forall k
          ensures k in init <==> k in s - {last}
        {
          if k in init {
            var i :| 0 <= i < |init| && init[i] == k;
            assert ks[i] == k;
          }
          if k in s - {last} {
            var i :| 0 <= i < |ks| && ks[i] == k;
            assert i < |ks| - 1;
            assert init[i] == k;
          }
        }
      }
      EnumerationLength(init, s - {last});
    }
  }

  function KeysOf(js: seq<Job>): (ks: seq<string>)
    ensures |ks| == |js| && forall i :: 0 <= i < |js| ==> ks[i] == js[i].key
  {
    seq(|js|, i requires 0 <= i < |js| => js[i].key)
  }

  /** `js` holds one job for every key of `keys`, each paired with that key's entry of `m`. */
  ghost predicate LaunchesFor(js: seq<Job>, m: map<string, Entry>, keys: set<string>) {
    && Enumerates(KeysOf(js), keys)
    && (forall i :: 0 <= i < |js| ==> js[i].key in m && m[js[i].key] == js[i].entry)
  }

  /** A launch of one job per registered key is as long as the registry. */
  lemma LaunchCount(js: seq<Job>, m: map<string, Entry>)
    requires LaunchesFor(js, m, m.Keys)
    ensures |js| == |m|
  {
    EnumerationLength(KeysOf(js), m.Keys);
  }

  function CancelSteps(order: seq<string>): (t: seq<Step>)
    ensures |t| == |order| && forall i :: 0 <= i < |order| ==> t[i] == CancelStep(order[i])
  {
    seq(|order|, i requires 0 <= i < |order| => CancelStep(order[i]))
  }

  function CancelCalls(ch: Channel, order: seq<string>): (t: seq<Call>)
    ensures |t| == |order| && forall i :: 0 <= i < |order| ==> t[i] == CancelCall(ch, order[i], false)
  {
    seq(|order|, i requires 0 <= i < |order| => CancelCall(ch, order[i], false))
  }

  /** The shutdown task's steps: cancel every key in `order`, wait for the jobs, then, when
      the close signal is received, close the channel and cancel the returned context. */
  function ShutdownSteps(order: seq<string>, closes: bool): seq<Step> {
    CancelSteps(order) + [WaitStep] + (if closes then [CloseStep, DoneStep] else [])
  }

  /** In a shutdown trace every cancellation comes before the wait, the wait before the close,
      and the context is cancelled last, only when the close happened, after every key of
      `order` was cancelled. */
  lemma ShutdownOrder(order: seq<string>, closes: bool)
    ensures var t := ShutdownSteps(order, closes);
      && (forall i, j :: 0 <= i < |t| && 0 <= j < |t| && t[i].CancelStep? && !t[j].CancelStep? ==> i < j)
      && (forall i, j :: 0 <= i < |t| && 0 <= j < |t| && t[i].WaitStep? && !t[j].WaitStep? && !t[j].CancelStep? ==> i < j)
      && (forall i, j :: 0 <= i < |t| && 0 <= j < |t| && t[i].CloseStep? && t[j].DoneStep? ==> i < j)
      && (DoneStep in t <==> closes)
      && (forall i :: 0 <= i < |t| && t[i].DoneStep? ==> i == |t| - 1 && forall k :: k in order ==> CancelStep(k) in t[..i])
  {
    var t := ShutdownSteps(order, closes);
    var n := |order|;
    assert t[n] == WaitStep;
    forall i | 0 <= i < |t| && t[i].DoneStep?
      ensures i == |t| - 1 && forall k :: k in order ==> CancelStep(k) in t[..i]
    {
      assert i == n + 2;
      forall k | k in order
        ensures CancelStep(k) in t[..i]
      {
        var m :| 0 <= m < n && order[m] == k;
        assert t[..i][m] == CancelStep(k);
      }
    }
  }

  class AmqpxConsumer {
    var entries: map<string, Entry>
    var cli: Amqpx
    var running: bool
    /** Jobs launched by `Start` that `Stop` has not yet waited for. */
    var jobs: seq<Job>

    ghost predicate Valid()
      reads this, cli, cli.owned
    {
      cli.Ready()
    }

    constructor (cli: Amqpx)
      requires cli.Ready()
      ensures Valid() && this.cli == cli
      ensures entries == map[] && !running && jobs == []
    {
      this.cli := cli;
      entries := map[];
      running := false;
      jobs := [];
    }

    /** `NewAmqpxConsumer`: no consumer when the client cannot be created; otherwise an
        empty, stopped consumer over a fresh client. */
    static method New(t: Transport, initOk: bool, openOk: bool) returns (ac: AmqpxConsumer?)
      modifies t
      ensures ac == null <==> !((old(t.Live()) || initOk) && openOk)
      ensures ac != null ==> fresh(ac) && fresh(ac.cli) && fresh(ac.cli.channel) && ac.Valid() && ac.cli.redialing
      ensures ac != null ==> ac.entries == map[] && !ac.running && ac.jobs == []
    {
      var cli := Amqpx.New(t, initOk, openOk);
      if cli == null {
        return null;
      }
      ac := new AmqpxConsumer(cli);
    }

    /** `AddFunc`: raise the global counter by one and store the binding under the consumer
        name, a dash and the new counter value. Unless the counter wraps, the key is new. */
    method AddFunc(consumerSeq: ConsumerSeq, queue: string, consumer: string, fn: Handler)
      modifies this`entries, consumerSeq
      ensures consumerSeq.value == Increment(old(consumerSeq.value))
      ensures entries == old(entries)[ConsumerKey(consumer, consumerSeq.value as int) := Entry(queue, fn)]
      ensures Issued(old(entries), old(consumerSeq.value)) && old(consumerSeq.value) as int < MaxUint64 ==>
        && ConsumerKey(consumer, consumerSeq.value as int) !in old(entries)
        && |entries| == |old(entries)| + 1
        && Issued(entries, consumerSeq.value)
    {
      if Issued(entries, consumerSeq.value) && consumerSeq.value as int < MaxUint64 {
        AddFresh(entries, consumerSeq.value, consumer, Entry(queue, fn));
      }
      consumerSeq.value := Increment(consumerSeq.value);
      entries := entries[ConsumerKey(consumer, consumerSeq.value as int) := Entry(queue, fn)];
    }

    /** `Start`: nothing when already running; otherwise set the flag and launch one job
        per registered key, paired with that key's entry. */
    method Start()
      modifies this`running, this`jobs
      ensures old(running) ==> running && jobs == old(jobs)
      ensures !old(running) ==>
        && running
        && |jobs| >= |old(jobs)| && jobs[..|old(jobs)|] == old(jobs)
        && LaunchesFor(jobs[|old(jobs)|..], entries, entries.Keys)
    {
      if running {
        return;
      }
      running := true;
      ghost var before := jobs;
      var remaining := entries.Keys;
      while remaining != {}
        invariant running && remaining <= entries.Keys
        invariant |jobs| >= |before| && jobs[..|before|] == before
        invariant LaunchesFor(jobs[|before|..], entries, entries.Keys - remaining)
        decreases remaining
      {
        var k :| k in remaining;
        ghost var launched := jobs[|before|..];
        jobs := jobs + [Job(k, entries[k])];
        assert jobs[|before|..] == launched + [Job(k, entries[k])];
        assert KeysOf(jobs[|before|..]) == KeysOf(launched) + [k];
        remaining := remaining - {k};
      }
    }

    /** `consume`: request a delivery stream; when that fails report an error and dispose of
        nothing, otherwise reject with requeue every delivery whose handler failed and
        acknowledge every other, in stream order, and report no error when the stream ends. */
    method Consume(queue: string, consumer: string, handler: Handler, reply: Option<seq<Delivery>>)
      returns (err: bool)
      requires Valid()
      modifies cli`log
      ensures Valid()
      ensures err <==> reply.None?
      ensures cli.log == old(cli.log) + ConsumeLog(cli.channel, queue, consumer, handler, reply)
    {
      var deliveries := cli.Consume(queue, consumer, reply);
      if deliveries.None? {
        return true;
      }
      Drain(deliveries.value, handler);
      err := false;
    }

    /** The delivery loop of `consume`: each delivery in stream order is rejected with
        requeue when its handler failed and acknowledged otherwise. */
    method Drain(ds: seq<Delivery>, handler: Handler)
      requires Valid()
      modifies cli`log
      ensures Valid()
      ensures cli.log == old(cli.log) + Dispositions(ds, handler)
    {
      for i := 0 to |ds|
        invariant cli.Ready()
        invariant cli.log == old(cli.log) + Dispositions(ds[..i], handler)
      {
        DispositionsSnoc(ds, i, handler);
        var failed := RunWithRecovery(handler, ds[i].body);
        if failed {
          cli.Dispose(RejectCall(ds[i].tag, true));
          continue;
        }
        cli.Dispose(AckCall(ds[i].tag, false));
      }
      assert ds[..|ds|] == ds;
    }

    /** `run`, bounded by the broker's replies to successive consume requests: while the
        consumer is running, consume once per reply, retrying after an error and after a
        stream ends. */
    method Run(key: string, e: Entry, replies: seq<Option<seq<Delivery>>>) returns (rounds: nat)
      requires Valid()
      modifies cli`log
      ensures Valid()
      ensures rounds == if running then |replies| else 0
      ensures cli.log == old(cli.log) + RunLog(cli.channel, key, e, replies[..rounds])
    {
      rounds := 0;
      while running && rounds < |replies|
        invariant Valid()
        invariant rounds <= |replies|
        invariant !running ==> rounds == 0
        invariant cli.channel == old(cli.channel)
        invariant cli.log == old(cli.log) + RunLog(cli.channel, key, e, replies[..rounds])
      {
        RunLogSnoc(cli.channel, key, e, replies, rounds);
        var err := Consume(e.queue, key, e.handler, replies[rounds]);
        rounds := rounds + 1;
        if err {
          continue;
        }
        if !running {
          break;
        }
      }
    }

    /** `Stop`: clear the running flag, then cancel every registered key, wait for the jobs,
        close the client and only then cancel the returned context. The close never returns
        when the client's redial task has already been stopped, so neither do the steps after it. */
    method Stop() returns (cancelled: seq<string>, steps: seq<Step>)
      requires Valid()
      modifies this`running, this`jobs, cli`log, cli`redialing, cli.channel
      ensures Valid() && !running && jobs == [] && !cli.redialing
      ensures Enumerates(cancelled, entries.Keys)
      ensures steps == ShutdownSteps(cancelled, old(cli.redialing))
      ensures cli.log == old(cli.log) + CancelCalls(cli.channel, cancelled)
                         + (if old(cli.redialing) then [CloseCall(cli.channel)] else [])
      ensures old(cli.redialing) ==> cli.channel.closed
      ensures !old(cli.redialing) ==> cli.channel.closed == old(cli.channel.closed)
    {
      if running {
        running := false;
      }
      cancelled, steps := [], [];
      var remaining := entries.Keys;
      while remaining != {}
        invariant Valid() && !running
        invariant remaining <= entries.Keys
        invariant Enumerates(cancelled, entries.Keys - remaining)
        invariant steps == CancelSteps(cancelled)
        invariant cli.log == old(cli.log) + CancelCalls(cli.channel, cancelled)
        invariant cli.redialing == old(cli.redialing) && cli.channel.closed == old(cli.channel.closed)
        decreases remaining
      {
        var k :| k in remaining;
        var cancelErr := cli.Cancel(k, false);
        cancelled := cancelled + [k];
        steps := steps + [CancelStep(k)];
        remaining := remaining - {k};
      }
      jobs := [];
      steps := steps + [WaitStep];
      var closed := cli.Close(false);
      if closed.Closed? {
        steps := steps + [CloseStep, DoneStep];
      }
    }
  }

  /** Two bindings registered under the same consumer name get two keys. */
  method SameNameScenario(cli: Amqpx, h1: Handler, h2: Handler)
    requires cli.Ready()
  {
    var ac := new AmqpxConsumer(cli);
    var consumerSeq := new ConsumerSeq();
    assert Issued(ac.entries, consumerSeq.value);
    ac.AddFunc(consumerSeq, "orders", "worker", h1);
    assert consumerSeq.value == 1;
    ac.AddFunc(consumerSeq, "events", "worker", h2);
    assert |ac.entries| == 2;
  }

  /** Starting a stopped consumer with two bindings launches two jobs; starting it again
      launches none. */
  method StartScenario(ac: AmqpxConsumer)
    requires |ac.entries| == 2 && !ac.running && ac.jobs == []
    modifies ac
  {
    ac.Start();
    LaunchCount(ac.jobs, ac.entries);
    assert |ac.jobs| == 2;
    ac.Start();
    assert |ac.jobs| == 2;
  }

  /** A first `Stop` closes the client and signals completion; a second `Stop` never gets
      past the close. */
  method DoubleStopScenario(ac: AmqpxConsumer)
    requires ac.Valid() && ac.cli.redialing
    modifies ac, ac.cli, ac.cli.channel
  {
    var cancelled1, steps1 := ac.Stop();
    ShutdownOrder(cancelled1, true);
    var cancelled2, steps2 := ac.Stop();
    ShutdownOrder(cancelled2, false);
    assert DoneStep in steps1 && DoneStep !in steps2;
  }
}
