/**
 * The asyncio connection driver of `simple_amqp`: it replays the action log
 * against the transport, one awaited step at a time, keeps per-channel
 * tables of channels, consumer tags, queues and exchanges, retries whole
 * passes when auto-reconnect is on, and turns a consumer callback's result
 * into an ack or a nack.
 *
 * The transport (aio_pika) is a `Transport` object that records every
 * operation in `trace` and answers each awaited one from a script of planned
 * outcomes; transport handles are abstracted to the keys they are stored under.
 */
module SimpleDriver {
  import opened Wrappers
  import opened SimpleActions
  import opened AmqpData
  import SimpleTopology

  /** The exchange types the driver can translate for the transport. */
  const ExchangeTypes: set<string> := {"direct", "topic", "fanout"}

  datatype ExchangeRef = DefaultExchange | NamedExchange(name: string)

  datatype TransportOp =
    | Run(action: Action)
    | Sleep(seconds: int)
    | Send(channel: int, exchange: ExchangeRef, routingKey: string, msg: AmqpMsg)
    | Cancel(channel: int, tag: string)
    | CloseChannel(channel: int)
    | CloseConnection
    | Ack
    | Nack(requeue: bool)

  /** The answer the transport gives to the next awaited step: success unless the script says otherwise. */
  function Answer(script: seq<bool>): bool { script == [] || script[0] }
  function Rest(script: seq<bool>): seq<bool> { if script == [] then [] else script[1..] }

  class Transport {
    var trace: seq<TransportOp>
    var script: seq<bool>

    constructor (script: seq<bool>)
      ensures trace == [] && this.script == script
    {
      trace := [];
      this.script := script;
    }

    /** An awaited step: it is recorded, and succeeds or fails as the script says. */
    method Await(op: TransportOp) returns (ok: bool)
      modifies this
      ensures trace == old(trace) + [op]
      ensures ok == Answer(old(script)) && script == Rest(old(script))
    {
      trace := trace + [op];
      ok := Answer(script);
      script := Rest(script);
    }

    /** A step nobody waits for (a sleep, an ack, a nack). */
    method Emit(op: TransportOp)
      modifies this
      ensures trace == old(trace) + [op] && script == old(script)
    {
      trace := trace + [op];
    }
  }

  /** The driver's tables: whether a connection object exists, and the handles per channel. */
  datatype Tables = Tables(
    hasConn: bool,
    channels: set<int>,
    consumers: map<int, set<string>>,
    queues: map<int, set<string>>,
    exchanges: map<int, set<string>>)

  const EmptyTables := Tables(false, {}, map[], map[], map[])

  /** `_set_channel`: registers the channel with an empty consumer-tag set. */
  function SetChannel(t: Tables, n: int): (r: Tables)
    ensures r.channels == t.channels + {n} && r.consumers == t.consumers[n := {}]
    ensures r.queues == t.queues && r.exchanges == t.exchanges && r.hasConn == t.hasConn
  {
    t.(channels := t.channels + {n}, consumers := t.consumers[n := {}])
  }

  /**
   * `_remove_channel`: pops the channel, then its tag set; a missing channel
   * raises `KeyError` with nothing removed, a missing tag set raises it
   * after the channel is gone.
   */
  function RemoveChannel(t: Tables, n: int): (r: (Tables, Result<(), PyError>))
    ensures r.1.Ok? <==> n in t.channels && n in t.consumers
    ensures n in t.channels ==> r.0.channels == t.channels - {n}
    ensures n !in t.channels ==> r.0 == t
    ensures r.1.Ok? ==> r.0.consumers == t.consumers - {n}
    ensures r.0.consumers.Keys <= t.consumers.Keys
    ensures r.0.queues == t.queues && r.0.exchanges == t.exchanges && r.0.hasConn == t.hasConn
  {
    if n !in t.channels then (t, Err(KeyError("channel")))
    else
      var t1 := t.(channels := t.channels - {n});
      if n !in t.consumers then (t1, Err(KeyError("channel")))
      else (t1.(consumers := t.consumers - {n}), Ok(()))
  }

  /** `_set_channel` and `_remove_channel` undo each other on a channel that was not open. */
  lemma SetThenRemoveChannel(t: Tables, n: int)
    requires n !in t.channels && n !in t.consumers
    ensures RemoveChannel(SetChannel(t, n), n) == (t, Ok(()))
  {
    assert SetChannel(t, n).channels - {n} == t.channels;
    assert SetChannel(t, n).consumers - {n} == t.consumers;
  }

  /** `queues.setdefault(channel, {})` spelt out. */
  function WithQueueTable(q: map<int, set<string>>, c: int): (r: map<int, set<string>>)
    ensures c in r && r.Keys == q.Keys + {c}
    ensures forall k | k in q :: r[k] == q[k]
    ensures c !in q ==> r[c] == {}
  {
    if c in q then q else q[c := {}]
  }

  predicate Has(m: map<int, set<string>>, c: int, name: string) { c in m && name in m[c] }

  /**
   * One action of `_run_actions`, given whether the transport accepts its
   * step: the new tables, the outcome, and whether the transport was asked at
   * all (a failed lookup raises `KeyError` before anything is awaited).
   */
  function ExecAction(t: Tables, a: Action, ok: bool): (r: (Tables, Result<(), PyError>, bool))
    ensures r.1.Ok? ==> r.2 && ok
    ensures r.2 <==> r.1.Ok? || r.1.error.TransportError?
    ensures r.2 && !ok ==> r.1 == Err(TransportError("step"))
    ensures a.CreateChannel? && r.1.Ok? ==> r.0 == SetChannel(t, a.number)
    ensures a.DeclareQueue? ==> (r.1.Ok? <==> a.channel in t.channels && ok)
    ensures a.BindQueue? ==>
      (r.1.Ok? <==> (Has(t.queues, a.channel, a.queue) && Has(t.exchanges, a.channel, a.exchange) && ok))
    ensures a.BindConsumer? ==>
      (r.1.Ok? <==> (Has(t.queues, a.channel, a.queue) && a.channel in t.consumers && ok))
  {
    match a
    case CreateConnection(_, _, _, _, _) =>
      if ok then (t.(hasConn := true), Ok(()), true) else (t, Err(TransportError("step")), true)
    case CreateChannel(n) =>
      if !t.hasConn then (t, Err(AttributeError("channel")), false)
      else if ok then (SetChannel(t, n), Ok(()), true)
      else (t, Err(TransportError("step")), true)
    case DeclareQueue(c, name, _, _, _, _) =>
      if c !in t.channels then (t, Err(KeyError("channel")), false)
      else
        var t1 := t.(queues := WithQueueTable(t.queues, c));
        if ok then (t1.(queues := t1.queues[c := t1.queues[c] + {name}]), Ok(()), true)
        else (t1, Err(TransportError("step")), true)
    case DeclareExchange(c, name, ty, _, _, _, _) =>
      if c !in t.channels then (t, Err(KeyError("channel")), false)
      else
        var t1 := t.(exchanges := WithQueueTable(t.exchanges, c));
        if ty !in ExchangeTypes then (t1, Err(KeyError(ty)), false)
        else if ok then (t1.(exchanges := t1.exchanges[c := t1.exchanges[c] + {name}]), Ok(()), true)
        else (t1, Err(TransportError("step")), true)
    case BindQueue(c, q, e, _, _) =>
      if !Has(t.queues, c, q) then (t, Err(KeyError(q)), false)
      else if !Has(t.exchanges, c, e) then (t, Err(KeyError(e)), false)
      else if ok then (t, Ok(()), true)
      else (t, Err(TransportError("step")), true)
    case BindExchange(c, src, dst, _, _) =>
      if !Has(t.exchanges, c, src) then (t, Err(KeyError(src)), false)
      else if !Has(t.exchanges, c, dst) then (t, Err(KeyError(dst)), false)
      else if ok then (t, Ok(()), true)
      else (t, Err(TransportError("step")), true)
    case BindConsumer(c, q, tag, _, _, _, _, _) =>
      if !Has(t.queues, c, q) then (t, Err(KeyError(q)), false)
      else if c !in t.consumers then (t, Err(KeyError("channel")), false)
      else
        var t1 := t.(consumers := t.consumers[c := t.consumers[c] + {tag}]);
        if ok then (t1, Ok(()), true) else (t1, Err(TransportError("step")), true)
  }

  /** Result of one pass over the log: `done` is the index where it stopped. */
  datatype Pass = Pass(tables: Tables, done: nat, result: Result<(), PyError>, script: seq<bool>)

  /**
   * The rest of a pass over `log`, from action `i` on, with tables `t` and
   * planned transport answers `script`: actions run in log order and the
   * first failure ends the pass.
   */
  function ReplayFrom(t: Tables, log: seq<Action>, i: nat, script: seq<bool>): (p: Pass)
    requires i <= |log|
    ensures i <= p.done <= |log|
    ensures p.result.Ok? <==> p.done == |log|
    decreases |log| - i
  {
    if i == |log| then Pass(t, i, Ok(()), script)
    else
      var step := ExecAction(t, log[i], Answer(script));
      var s1 := if step.2 then Rest(script) else script;
      if step.1.Err? then Pass(step.0, i, step.1, s1)
      else ReplayFrom(step.0, log, i + 1, s1)
  }

  /** A whole pass over the log. */
  function Replay(t: Tables, log: seq<Action>, script: seq<bool>): (p: Pass)
    ensures p.done <= |log|
    ensures p.result.Ok? <==> p.done == |log|
  {
    ReplayFrom(t, log, 0, script)
  }

  /** The `Run` operations of the first `n` actions, in order. */
  function Runs(log: seq<Action>, n: nat): (ops: seq<TransportOp>)
    requires n <= |log|
    ensures |ops| == n && forall k | 0 <= k < n :: ops[k] == Run(log[k])
  {
    if n == 0 then [] else Runs(log, n - 1) + [Run(log[n - 1])]
  }

  /** The transport operations a pass issues: every completed action, then the failing one if it was awaited. */
  function PassTrace(log: seq<Action>, done: nat, r: Result<(), PyError>): seq<TransportOp>
    requires done <= |log|
    requires r.Err? ==> done < |log|
  {
    Runs(log, done) + (if r.Err? && r.error.TransportError? then [Run(log[done])] else [])
  }

  /** A successful pass never loses a channel, a queue or an exchange it started with. */
  lemma {:induction false} ReplayKeepsHandles(t: Tables, log: seq<Action>, i: nat, script: seq<bool>)
    requires i <= |log| && ReplayFrom(t, log, i, script).result.Ok?
    ensures var t' := ReplayFrom(t, log, i, script).tables;
      (t.hasConn ==> t'.hasConn)
      && t.channels <= t'.channels
      && (forall c, n | Has(t.queues, c, n) :: Has(t'.queues, c, n))
      && (forall c, n | Has(t.exchanges, c, n) :: Has(t'.exchanges, c, n))
    decreases |log| - i
  {
    if i < |log| {
      var step := ExecAction(t, log[i], Answer(script));
      var s1 := if step.2 then Rest(script) else script;
      ReplayKeepsHandles(step.0, log, i + 1, s1);
    }
  }

  /**
   * After a successful pass every channel, queue and exchange the log
   * declares from action `i` on is in the driver's tables.
   */
  lemma {:induction false} ReplayDeclaresAll(t: Tables, log: seq<Action>, i: nat, script: seq<bool>)
    requires i <= |log| && ReplayFrom(t, log, i, script).result.Ok?
    ensures var t' := ReplayFrom(t, log, i, script).tables;
      (forall k | i <= k < |log| && log[k].CreateChannel? :: log[k].number in t'.channels)
      && (forall k | i <= k < |log| && log[k].DeclareQueue? ::
            Has(t'.queues, log[k].channel, log[k].name))
      && (forall k | i <= k < |log| && log[k].DeclareExchange? ::
            Has(t'.exchanges, log[k].channel, log[k].name))
    decreases |log| - i
  {
    if i < |log| {
      var step := ExecAction(t, log[i], Answer(script));
      var s1 := if step.2 then Rest(script) else script;
      ReplayDeclaresAll(step.0, log, i + 1, s1);
      ReplayKeepsHandles(step.0, log, i + 1, s1);
    }
  }

  /** A registered consumer tag survives a successful pass that never re-creates its channel. */
  lemma {:induction false} ConsumerSurvives(t: Tables, log: seq<Action>, i: nat, script: seq<bool>,
                                            c: int, tag: string)
    requires i <= |log| && ReplayFrom(t, log, i, script).result.Ok? && Has(t.consumers, c, tag)
    requires forall k | i <= k < |log| && log[k].CreateChannel? :: log[k].number != c
    ensures Has(ReplayFrom(t, log, i, script).tables.consumers, c, tag)
    decreases |log| - i
  {
    if i < |log| {
      var step := ExecAction(t, log[i], Answer(script));
      var s1 := if step.2 then Rest(script) else script;
      ConsumerSurvives(step.0, log, i + 1, s1, c, tag);
    }
  }

  /**
   * After a successful pass every consumer the log binds from action `i` on
   * is registered, provided no channel is created again after a consumer
   * was bound on it.
   */
  lemma {:induction false} ReplayBindsAllConsumers(t: Tables, log: seq<Action>, i: nat, script: seq<bool>)
    requires i <= |log| && ReplayFrom(t, log, i, script).result.Ok?
    requires forall j, k | i <= j < k < |log| && log[j].BindConsumer? && log[k].CreateChannel? ::
               log[j].channel != log[k].number
    ensures var t' := ReplayFrom(t, log, i, script).tables;
      forall k | i <= k < |log| && log[k].BindConsumer? ::
        Has(t'.consumers, log[k].channel, log[k].tag)
    decreases |log| - i
  {
    if i < |log| {
      var step := ExecAction(t, log[i], Answer(script));
      var s1 := if step.2 then Rest(script) else script;
      ReplayBindsAllConsumers(step.0, log, i + 1, s1);
      if log[i].BindConsumer? {
        ConsumerSurvives(step.0, log, i + 1, s1, log[i].channel, log[i].tag);
      }
    }
  }

  /** No number occurs twice. */
  predicate Distinct(s: seq<int>)
  {
    forall x, y | 0 <= x < y < |s| :: s[x] != s[y]
  }

  /** Every consumer is bound on a channel the log created before it. */
  ghost predicate ConsumersOnEarlierChannels(log: seq<Action>)
  {
    forall j | 0 <= j < |log| && log[j].BindConsumer? :: log[j].channel in SimpleTopology.ChannelsCreated(log[..j])
  }

  /** `ChannelsCreated` distributes over concatenation. */
  lemma {:induction false} ChannelsCreatedSplit(a: seq<Action>, b: seq<Action>)
    ensures SimpleTopology.ChannelsCreated(a + b)
         == SimpleTopology.ChannelsCreated(a) + SimpleTopology.ChannelsCreated(b)
  {
    if a == [] {
      assert a + b == b;
    } else {
      assert (a + b)[0] == a[0] && (a + b)[1..] == a[1..] + b;
      ChannelsCreatedSplit(a[1..], b);
    }
  }

  /** The two halves of a sequence without repeats share no number. */
  lemma DistinctHalves(a: seq<int>, b: seq<int>, u: int, v: int)
    requires Distinct(a + b) && u in a && v in b
    ensures u != v
  {
    var x :| 0 <= x < |a| && a[x] == u;
    var y :| 0 <= y < |b| && b[y] == v;
    assert (a + b)[x] == u && (a + b)[|a| + y] == v;
  }

  /** A `CreateChannel` of the log puts its number in `ChannelsCreated`. */
  lemma {:induction false} CreatedIsListed(log: seq<Action>, k: nat)
    requires k < |log| && log[k].CreateChannel?
    ensures log[k].number in SimpleTopology.ChannelsCreated(log)
  {
    if k > 0 {
      CreatedIsListed(log[1..], k - 1);
    }
  }

  /**
   * When the created channels are numbered without repeats (as the builder
   * numbers them) and every consumer sits on a channel created before it,
   * no channel is created again after a consumer was bound on it.
   */
  lemma NoChannelRecreated(log: seq<Action>)
    requires Distinct(SimpleTopology.ChannelsCreated(log))
    requires ConsumersOnEarlierChannels(log)
    ensures forall j, k | 0 <= j < k < |log| && log[j].BindConsumer? && log[k].CreateChannel? ::
              log[j].channel != log[k].number
  {
    forall j, k | 0 <= j < k < |log| && log[j].BindConsumer? && log[k].CreateChannel?
      ensures log[j].channel != log[k].number
    {
      NotRecreated(log, j, k, log[j].channel);
    }
  }

  /** Cutting the log at `j` cuts its created channels in two, with `k >= j` in the second part. */
  lemma CutCreated(log: seq<Action>, j: nat, k: nat)
    requires j < k < |log| && log[k].CreateChannel?
    ensures SimpleTopology.ChannelsCreated(log)
         == SimpleTopology.ChannelsCreated(log[..j]) + SimpleTopology.ChannelsCreated(log[j..])
    ensures log[k].number in SimpleTopology.ChannelsCreated(log[j..])
  {
    ChannelsCreatedSplit(log[..j], log[j..]);
    assert log[..j] + log[j..] == log;
    assert log[j..][k - j] == log[k];
    CreatedIsListed(log[j..], k - j);
  }

  /** One pair of `NoChannelRecreated`: channel `c`, created before `j`, is not the one created at `k`. */
  lemma NotRecreated(log: seq<Action>, j: nat, k: nat, c: int)
    requires Distinct(SimpleTopology.ChannelsCreated(log))
    requires j < k < |log| && log[k].CreateChannel?
    requires c in SimpleTopology.ChannelsCreated(log[..j])
    ensures c != log[k].number
  {
    CutCreated(log, j, k);
    DistinctHalves(SimpleTopology.ChannelsCreated(log[..j]), SimpleTopology.ChannelsCreated(log[j..]), c, log[k].number);
  }

  /**
   * The pass over the log of a builder whose consumers sit on channels it
   * created earlier: once it succeeds, every channel, queue, exchange and
   * consumer of the log is in the tables.
   */
  lemma BuilderLogFullyReplayed(conn: SimpleTopology.AmqpConnection, t: Tables, script: seq<bool>)
    requires conn.Valid() && ConsumersOnEarlierChannels(conn.actions)
    requires Replay(t, conn.actions, script).result.Ok?
    ensures var log, t' := conn.actions, Replay(t, conn.actions, script).tables;
      (forall k | 0 <= k < |log| && log[k].CreateChannel? :: log[k].number in t'.channels)
      && (forall k | 0 <= k < |log| && log[k].DeclareQueue? :: Has(t'.queues, log[k].channel, log[k].name))
      && (forall k | 0 <= k < |log| && log[k].DeclareExchange? ::
            Has(t'.exchanges, log[k].channel, log[k].name))
      && (forall k | 0 <= k < |log| && log[k].BindConsumer? :: Has(t'.consumers, log[k].channel, log[k].tag))
  {
    NoChannelRecreated(conn.actions);
    ReplayDeclaresAll(t, conn.actions, 0, script);
    ReplayBindsAllConsumers(t, conn.actions, 0, script);
  }

  /** Every channel, queue and exchange the log declares is in the tables. */
  ghost predicate HoldsAllDeclared(t: Tables, log: seq<Action>)
  {
    (forall k | 0 <= k < |log| && log[k].CreateChannel? :: log[k].number in t.channels)
    && (forall k | 0 <= k < |log| && log[k].DeclareQueue? :: Has(t.queues, log[k].channel, log[k].name))
    && (forall k | 0 <= k < |log| && log[k].DeclareExchange? :: Has(t.exchanges, log[k].channel, log[k].name))
  }

  /** What a consumer callback did with a delivered message. */
  datatype CallbackOutcome = Returned(truthy: bool) | Raised(error: PyError)

  datatype AckDecision = SendAck | SendNack(requeue: bool) | SendNothing

  /**
   * The ack/nack choice of `_handle_msg`: an exception counts as a false
   * result; with manual ack a true result acks and anything else nacks with
   * the action's `nack_requeue`; with `auto_ack` nothing is sent.
   */
  function AckDecisionFor(autoAck: bool, nackRequeue: bool, outcome: CallbackOutcome): (d: AckDecision)
    ensures d == SendNothing <==> autoAck
    ensures d == SendAck <==> !autoAck && outcome == Returned(true)
    ensures d.SendNack? <==> !autoAck && outcome != Returned(true)
    ensures d.SendNack? ==> d.requeue == nackRequeue
  {
    var result := match outcome
      case Returned(b) => b
      case Raised(_) => false;
    if !autoAck && result then SendAck
    else if !autoAck then SendNack(nackRequeue)
    else SendNothing
  }

  /** `publish` drops a negative expiration and keeps any other. */
  function NormalizeExpiration(e: Option<int>): (r: Option<int>)
    ensures r.Some? <==> e.Some? && e.value >= 0
    ensures r.Some? ==> r == e
  {
    if e.Some? && e.value < 0 then None else e
  }

  /**
   * The exchange `publish` sends through: the channel's default exchange for
   * an empty `msg.exchange`, otherwise the declared exchange of that name; a
   * channel or exchange the tables do not hold raises `KeyError`.
   */
  function PublishTarget(t: Tables, channel: int, msg: AmqpMsg): (r: Result<ExchangeRef, PyError>)
    ensures r.Ok? <==> channel in t.channels && (msg.exchange == "" || Has(t.exchanges, channel, msg.exchange))
    ensures r.Ok? ==> (r.value == DefaultExchange <==> msg.exchange == "")
    ensures r.Ok? && msg.exchange != "" ==> r.value == NamedExchange(msg.exchange)
  {
    if channel !in t.channels then Err(KeyError("channel"))
    else if msg.exchange != "" then
      if Has(t.exchanges, channel, msg.exchange) then Ok(NamedExchange(msg.exchange))
      else Err(KeyError(msg.exchange))
    else Ok(DefaultExchange)
  }

  /** `t` is the tail of `s`. */
  predicate EndsWith(s: seq<TransportOp>, t: seq<TransportOp>) { |s| >= |t| && s[|s| - |t|..] == t }

  datatype ProcessorOutcome = Done | GaveUp(error: PyError) | OutOfFuel

  function CountSleeps(ops: seq<TransportOp>): nat
  {
    if ops == [] then 0 else (if ops[|ops| - 1].Sleep? then 1 else 0) + CountSleeps(ops[..|ops| - 1])
  }

  lemma CountSleepsAppend(a: seq<TransportOp>, b: seq<TransportOp>)
    ensures CountSleeps(a + b) == CountSleeps(a) + CountSleeps(b)
    decreases |b|
  {
    if b != [] {
      assert (a + b)[..|a + b| - 1] == a + b[..|b| - 1];
      assert (a + b)[|a + b| - 1] == b[|b| - 1];
      CountSleepsAppend(a, b[..|b| - 1]);
    } else {
      assert a + b == a;
    }
  }

  lemma NoSleeps(ops: seq<TransportOp>)
    requires forall k | 0 <= k < |ops| :: !ops[k].Sleep?
    ensures CountSleeps(ops) == 0
    decreases |ops|
  {
    if ops != [] {
      NoSleeps(ops[..|ops| - 1]);
    }
  }

  lemma NoSleepInPass(log: seq<Action>, done: nat, r: Result<(), PyError>)
    requires done <= |log| && (r.Err? ==> done < |log|)
    ensures CountSleeps(PassTrace(log, done, r)) == 0
    ensures forall k | 0 <= k < |PassTrace(log, done, r)| :: !PassTrace(log, done, r)[k].Sleep?
  {
    NoSleeps(PassTrace(log, done, r));
  }

  /** Every sleep in `s` lasts `delay` seconds. */
  ghost predicate SleepsLast(s: seq<TransportOp>, delay: int)
  {
    forall k | 0 <= k < |s| && s[k].Sleep? :: s[k].seconds == delay
  }

  /** Appending a round to the trace so far adds its sleeps and keeps its ending. */
  lemma RoundAppended(added: seq<TransportOp>, step: seq<TransportOp>, delay: int, tail: seq<TransportOp>)
    requires SleepsLast(added, delay) && SleepsLast(step, delay)
    ensures SleepsLast(added + step, delay)
    ensures CountSleeps(added + step) == CountSleeps(added) + CountSleeps(step)
    ensures EndsWith(step, tail) ==> EndsWith(added + step, tail)
  {
    CountSleepsAppend(added, step);
    forall k | 0 <= k < |added + step| && (added + step)[k].Sleep?
      ensures (added + step)[k].seconds == delay
    {
      if k >= |added| {
        assert (added + step)[k] == step[k - |added|];
      }
    }
    if EndsWith(step, tail) {
      assert (added + step)[|added + step| - |tail|..] == step[|step| - |tail|..];
    }
  }

  /** The trace of one round: the pass, then the reconnect sleep when there is one. */
  function RoundTrace(log: seq<Action>, done: nat, r: Result<(), PyError>, sleeps: bool, delay: int): seq<TransportOp>
    requires done <= |log| && (r.Err? ==> done < |log|)
  {
    PassTrace(log, done, r) + (if sleeps then [Sleep(delay)] else [])
  }

  /** A round holds one sleep when it sleeps and none otherwise, and every sleep in it lasts `delay`. */
  lemma RoundSleeps(log: seq<Action>, done: nat, r: Result<(), PyError>, sleeps: bool, delay: int)
    requires done <= |log| && (r.Err? ==> done < |log|)
    ensures var s := RoundTrace(log, done, r, sleeps, delay);
            && CountSleeps(s) == (if sleeps then 1 else 0)
            && (forall k | 0 <= k < |s| && s[k].Sleep? :: s[k].seconds == delay)
            && (!sleeps ==> s == PassTrace(log, done, r))
  {
    var pass := PassTrace(log, done, r);
    var tail: seq<TransportOp> := if sleeps then [Sleep(delay)] else [];
    NoSleepInPass(log, done, r);
    CountSleepsAppend(pass, tail);
    if sleeps {
      assert CountSleeps(tail) == 1 by {
        assert tail[..0] == [];
      }
    } else {
      assert pass + tail == pass;
    }
  }

  datatype Settings = Settings(
    closing: bool, autoReconnect: bool, reconnectDelay: int,
    hasConnErrorHandler: bool, hasConsumerErrorHandler: bool,
    connErrors: seq<PyError>, consumerErrors: seq<PyError>, replaysScheduled: nat)

  /** The (channel, consumer tag) pairs of a consumer table. */
  function Pairs(m: map<int, set<string>>): set<(int, string)>
  {
    set c, tag | c in m && tag in m[c] :: (c, tag)
  }

  lemma PairsRemove(m: map<int, set<string>>, c: int, tag: string)
    requires c in m
    ensures Pairs(m[c := m[c] - {tag}]) == Pairs(m) - {(c, tag)}
  {
  }

  lemma NonEmptyHasMember(s: set<int>)
    requires s != {}
    ensures exists n :: n in s
  {
    if forall n :: n !in s {
      assert false;
    }
  }

  class AsyncioAmqpConnection {
    /** The action log the driver replays (the builder part of the connection). */
    const builder: SimpleTopology.AmqpConnection
    const transport: Transport

    var hasConn: bool
    var channels: set<int>
    var consumers: map<int, set<string>>
    var queues: map<int, set<string>>
    var exchanges: map<int, set<string>>

    var closing: bool
    var autoReconnect: bool
    var reconnectDelay: int

    var hasConnErrorHandler: bool
    var hasConsumerErrorHandler: bool
    /** The errors handed to the registered connection-error handler, in order. */
    var connErrors: seq<PyError>
    /** The errors handed to the registered consumer-error handler, in order. */
    var consumerErrors: seq<PyError>
    /** How many replays `_on_connection_close` has scheduled. */
    var replaysScheduled: nat

    function View(): Tables
      reads this
    {
      Tables(hasConn, channels, consumers, queues, exchanges)
    }

    /** Everything but the tables. */
    function Config(): Settings
      reads this
    {
      Settings(closing, autoReconnect, reconnectDelay, hasConnErrorHandler, hasConsumerErrorHandler,
               connErrors, consumerErrors, replaysScheduled)
    }

    constructor (params: AmqpParameters, transport: Transport)
      ensures fresh(builder) && builder.Valid() && this.transport == transport
      ensures builder.actions == [CreateConnection(params.host, params.port, params.username,
                                                   params.password, params.vhost)]
      ensures View() == EmptyTables
      ensures !closing && !autoReconnect && reconnectDelay == 1
      ensures !hasConnErrorHandler && !hasConsumerErrorHandler
      ensures connErrors == [] && consumerErrors == [] && replaysScheduled == 0
    {
      builder := new SimpleTopology.AmqpConnection(params);
      this.transport := transport;
      hasConn := false;
      channels := {};
      consumers := map[];
      queues := map[];
      exchanges := map[];
      closing := false;
      autoReconnect := false;
      reconnectDelay := 1;
      hasConnErrorHandler := false;
      hasConsumerErrorHandler := false;
      connErrors := [];
      consumerErrors := [];
      replaysScheduled := 0;
    }

    method SetTables(t: Tables)
      modifies this
      ensures View() == t && Config() == old(Config())
    {
      hasConn, channels, consumers, queues, exchanges :=
        t.hasConn, t.channels, t.consumers, t.queues, t.exchanges;
    }

    /** `_clear_channels`: empties the channel and consumer tables and nothing else. */
    method ClearChannels()
      modifies this`channels, this`consumers
      ensures channels == {} && consumers == map[]
    {
      channels := {};
      consumers := map[];
    }

    /**
     * Action `i` of `_run_actions` (the `_connect`, `_create_channel`, ...
     * it dispatches to): the lookups first, then the awaited transport step.
     */
    method RunAction(log: seq<Action>, i: nat) returns (r: Result<(), PyError>)
      requires i < |log|
      modifies this, transport
      ensures Config() == old(Config())
      ensures r.Ok? ==> ReplayFrom(old(View()), log, i, old(transport.script))
                        == ReplayFrom(View(), log, i + 1, transport.script)
                        && transport.trace == old(transport.trace) + [Run(log[i])]
      ensures r.Err? ==> ReplayFrom(old(View()), log, i, old(transport.script))
                         == Pass(View(), i, r, transport.script)
                         && transport.trace == old(transport.trace)
                              + (if r.error.TransportError? then [Run(log[i])] else [])
    {
      var step := ExecAction(View(), log[i], Answer(transport.script));
      if step.2 {
        var accepted := transport.Await(Run(log[i]));
      }
      SetTables(step.0);
      r := step.1;
    }

    /**
     * `_run_actions`: every action of the log in order, one awaited step at
     * a time, stopping at the first failure.
     */
    method RunActions() returns (done: nat, r: Result<(), PyError>)
      modifies this, transport
      ensures Config() == old(Config())
      ensures var p := Replay(old(View()), builder.actions, old(transport.script));
              View() == p.tables && done == p.done && r == p.result
              && transport.script == p.script
      ensures done <= |builder.actions| && (r.Ok? <==> done == |builder.actions|)
      ensures transport.trace == old(transport.trace) + PassTrace(builder.actions, done, r)
    {
      var log := builder.actions;
      ghost var t0, s0, tr0 := View(), transport.script, transport.trace;
      var i := 0;
      r := Ok(());
      while i < |log|
        invariant 0 <= i <= |log|
        invariant Replay(t0, log, s0) == ReplayFrom(View(), log, i, transport.script)
        invariant transport.trace == tr0 + Runs(log, i)
        invariant r == Ok(())
        invariant Config() == old(Config())
        decreases |log| - i
      {
        r := RunAction(log, i);
        if r.Err? {
          done := i;
          return;
        }
        r := Ok(());
        i := i + 1;
      }
      done := i;
    }

    /**
     * `_action_processor`: passes over the whole log until one succeeds, or
     * one fails with auto-reconnect off. A failed pass goes to the
     * connection-error handler when one is set, and the next pass starts
     * from the first action after sleeping `reconnect_delay`, on the tables
     * the failed pass left. `fuel` bounds the number of passes. The ghost
     * results name the tables and transport script the last pass started
     * from, and the errors of the failed passes in order.
     */
    method ActionProcessor(fuel: nat)
      returns (outcome: ProcessorOutcome, passes: nat, ghost added: seq<TransportOp>,
               ghost lastStart: Tables, ghost lastScript: seq<bool>, ghost failures: seq<PyError>)
      requires fuel >= 1
      modifies this, transport
      ensures 1 <= passes <= fuel
      ensures !autoReconnect ==> passes == 1 && !outcome.OutOfFuel?
      ensures outcome.OutOfFuel? ==> passes == fuel
      ensures outcome.GaveUp? ==> !autoReconnect
      ensures passes == 1 ==> lastStart == old(View()) && lastScript == old(transport.script)
      ensures var p := Replay(lastStart, builder.actions, lastScript);
              View() == p.tables && transport.script == p.script
              && (outcome.Done? <==> p.result.Ok?)
              && (outcome.GaveUp? ==> p.result == Err(outcome.error))
      ensures Config() == old(Config()).(connErrors := connErrors)
      ensures |failures| == (if outcome.Done? then passes - 1 else passes)
      ensures outcome.GaveUp? ==> failures[|failures| - 1] == outcome.error
      ensures connErrors == old(connErrors) + (if hasConnErrorHandler then failures else [])
      ensures transport.trace == old(transport.trace) + added
      ensures outcome.Done? ==> EndsWith(added, Runs(builder.actions, |builder.actions|))
      ensures CountSleeps(added) == passes - 1
      ensures SleepsLast(added, reconnectDelay)
    {
      passes := 0;
      added := [];
      failures := [];
      while true
        invariant passes < fuel
        invariant transport.trace == old(transport.trace) + added
        invariant passes == 0 || autoReconnect
        invariant passes == 0 ==> View() == old(View()) && transport.script == old(transport.script)
        invariant Config() == old(Config()).(connErrors := connErrors)
        invariant |failures| == passes
        invariant connErrors == old(connErrors) + (if hasConnErrorHandler then failures else [])
        invariant CountSleeps(added) == passes
        invariant SleepsLast(added, reconnectDelay)
        decreases fuel - passes
      {
        lastStart, lastScript := View(), transport.script;
        var r, step := Attempt(passes + 1 == fuel);
        RoundAppended(added, step, reconnectDelay, Runs(builder.actions, |builder.actions|));
        added := added + step;
        passes := passes + 1;
        if r.Err? {
          assert old(connErrors) + failures + [r.error] == old(connErrors) + (failures + [r.error]);
          failures := failures + [r.error];
        }
        if r.Ok? || !autoReconnect || passes == fuel {
          outcome := if r.Ok? then Done else if !autoReconnect then GaveUp(r.error) else OutOfFuel;
          return;
        }
      }
    }

    /**
     * One round of `_action_processor`: a pass over the log, its failure
     * handed to the connection-error handler when one is set, and the sleep
     * before the next round when it failed, auto-reconnect is on and this is
     * not the `last` round.
     */
    method Attempt(last: bool) returns (r: Result<(), PyError>, ghost step: seq<TransportOp>)
      modifies this, transport
      ensures var p := Replay(old(View()), builder.actions, old(transport.script));
              View() == p.tables && r == p.result && transport.script == p.script
      ensures transport.trace == old(transport.trace) + step
      ensures r.Ok? ==> EndsWith(step, Runs(builder.actions, |builder.actions|))
      ensures CountSleeps(step) == (if r.Err? && autoReconnect && !last then 1 else 0)
      ensures SleepsLast(step, reconnectDelay)
      ensures Config() == old(Config()).(connErrors := connErrors)
      ensures connErrors == old(connErrors) + (if r.Err? && hasConnErrorHandler then [r.error] else [])
    {
      ghost var before := transport.trace;
      var done;
      done, r := RunPass();
      ghost var pass := PassTrace(builder.actions, done, r);
      var sleeps := r.Err? && autoReconnect && !last;
      if sleeps {
        transport.Emit(Sleep(reconnectDelay));
        assert before + pass + [Sleep(reconnectDelay)] == before + (pass + [Sleep(reconnectDelay)]);
      }
      step := RoundTrace(builder.actions, done, r, sleeps, reconnectDelay);
      RoundSleeps(builder.actions, done, r, sleeps, reconnectDelay);
    }

    /** The guarded pass of `_action_processor`: a failure goes to the connection-error handler when one is set. */
    method RunPass() returns (done: nat, r: Result<(), PyError>)
      modifies this, transport
      ensures var p := Replay(old(View()), builder.actions, old(transport.script));
              View() == p.tables && done == p.done && r == p.result && transport.script == p.script
      ensures done <= |builder.actions| && (r.Ok? <==> done == |builder.actions|)
      ensures transport.trace == old(transport.trace) + PassTrace(builder.actions, done, r)
      ensures Config() == old(Config()).(connErrors := connErrors)
      ensures connErrors == old(connErrors) + (if r.Err? && hasConnErrorHandler then [r.error] else [])
    {
      done, r := RunActions();
      if r.Err? && hasConnErrorHandler {
        connErrors := connErrors + [r.error];
      }
    }

    /**
     * `start` with `wait`: clears the closing flag, sets auto-reconnect and
     * runs the processor; its outcome, tables and handler errors are the
     * processor's.
     */
    method Start(autoReconnectArg: bool, fuel: nat)
      returns (outcome: ProcessorOutcome, passes: nat,
               ghost lastStart: Tables, ghost lastScript: seq<bool>, ghost failures: seq<PyError>)
      requires fuel >= 1
      modifies this, transport
      ensures !closing && autoReconnect == autoReconnectArg
      ensures 1 <= passes <= fuel
      ensures !autoReconnectArg ==> passes == 1 && !outcome.OutOfFuel?
      ensures outcome.GaveUp? ==> !autoReconnectArg
      ensures passes == 1 ==> lastStart == old(View()) && lastScript == old(transport.script)
      ensures var p := Replay(lastStart, builder.actions, lastScript);
              View() == p.tables && transport.script == p.script
              && (outcome.Done? <==> p.result.Ok?)
              && (outcome.GaveUp? ==> p.result == Err(outcome.error))
      ensures outcome.Done? ==> HoldsAllDeclared(View(), builder.actions)
      ensures |failures| == (if outcome.Done? then passes - 1 else passes)
      ensures outcome.GaveUp? ==> failures[|failures| - 1] == outcome.error
      ensures connErrors == old(connErrors) + (if hasConnErrorHandler then failures else [])
      ensures outcome.Done? ==> EndsWith(transport.trace, Runs(builder.actions, |builder.actions|))
    {
      closing := false;
      autoReconnect := autoReconnectArg;
      ghost var added;
      outcome, passes, added, lastStart, lastScript, failures := ActionProcessor(fuel);
      if outcome.Done? {
        ReplayDeclaresAll(lastStart, builder.actions, 0, lastScript);
      }
    }

    /**
     * `_on_connection_close`: every table is emptied; a new replay is
     * scheduled, after `reconnect_delay`, only when not closing and
     * auto-reconnect is on.
     */
    method OnConnectionClose() returns (rescheduled: bool)
      modifies this, transport
      ensures channels == {} && consumers == map[] && queues == map[] && exchanges == map[]
      ensures hasConn == old(hasConn)
      ensures rescheduled <==> !closing && autoReconnect
      ensures replaysScheduled == old(replaysScheduled) + (if rescheduled then 1 else 0)
      ensures transport.trace == old(transport.trace) + (if rescheduled then [Sleep(reconnectDelay)] else [])
      ensures closing == old(closing) && autoReconnect == old(autoReconnect)
    {
      ClearChannels();
      queues := map[];
      exchanges := map[];
      rescheduled := !closing && autoReconnect;
      if rescheduled {
        transport.Emit(Sleep(reconnectDelay));
        replaysScheduled := replaysScheduled + 1;
      }
    }

    /**
     * `_cancel_consumer`: the channel must be open; after the awaited cancel
     * the tag leaves exactly its channel's set (a tag not in it raises `KeyError`).
     */
    method CancelConsumerTag(channel: int, tag: string) returns (r: Result<(), PyError>)
      modifies this`consumers, transport
      ensures channel !in old(channels) ==> r.Err? && consumers == old(consumers) && unchanged(transport)
      ensures channel in old(channels) ==> transport.trace == old(transport.trace) + [Cancel(channel, tag)]
      ensures r.Ok? <==> channel in old(channels) && Answer(old(transport.script))
                         && Has(old(consumers), channel, tag)
      ensures r.Ok? ==> consumers == old(consumers)[channel := old(consumers)[channel] - {tag}]
      ensures r.Err? ==> consumers == old(consumers)
      ensures channels == old(channels) && queues == old(queues) && exchanges == old(exchanges)
    {
      if channel !in channels {
        return Err(KeyError("channel"));
      }
      var ok := transport.Await(Cancel(channel, tag));
      if !ok {
        return Err(TransportError("cancel"));
      }
      if !Has(consumers, channel, tag) {
        return Err(KeyError(tag));
      }
      consumers := consumers[channel := consumers[channel] - {tag}];
      r := Ok(());
    }

    /** The (channel, consumer tag) pairs the tables hold. */
    function Registered(): set<(int, string)>
      reads this
    {
      Pairs(consumers)
    }

    /**
     * `_stop_consuming`: every registered consumer is cancelled, in no
     * particular order; the first failure stops it.
     */
    method StopConsuming() returns (r: Result<(), PyError>, ghost added: seq<TransportOp>)
      modifies this`consumers, transport
      ensures transport.trace == old(transport.trace) + added
      ensures forall k | 0 <= k < |added| :: added[k].Cancel? && (added[k].channel, added[k].tag) in old(Registered())
      ensures r.Ok? ==> Registered() == {}
                        && forall p | p in old(Registered()) :: Cancel(p.0, p.1) in added
    {
      var pending := Registered();
      added := [];
      while pending != {}
        invariant Registered() == pending && pending <= old(Registered())
        invariant transport.trace == old(transport.trace) + added
        invariant forall k | 0 <= k < |added| :: added[k].Cancel? && (added[k].channel, added[k].tag) in old(Registered())
        invariant forall p | p in old(Registered()) - pending :: Cancel(p.0, p.1) in added
        decreases |pending|
      {
        var p :| p in pending;
        ghost var m := consumers;
        r := CancelConsumerTag(p.0, p.1);
        if p.0 in channels {
          added := added + [Cancel(p.0, p.1)];
        }
        if r.Err? {
          return;
        }
        PairsRemove(m, p.0, p.1);
        pending := pending - {p};
      }
      r := Ok(());
    }

    /** `_close_channels`: closes every open channel, in no particular order, stopping at the first failure. */
    method CloseChannels() returns (r: Result<(), PyError>, ghost added: seq<TransportOp>)
      modifies transport
      ensures transport.trace == old(transport.trace) + added
      ensures forall k | 0 <= k < |added| :: added[k].CloseChannel? && added[k].channel in channels
      ensures r.Ok? ==> forall n | n in channels :: CloseChannel(n) in added
    {
      var pending := channels;
      added := [];
      while pending != {}
        invariant pending <= channels
        invariant transport.trace == old(transport.trace) + added
        invariant forall k | 0 <= k < |added| :: added[k].CloseChannel? && added[k].channel in channels
        invariant forall n | n in channels - pending :: CloseChannel(n) in added
        decreases |pending|
      {
        NonEmptyHasMember(pending);
        var n :| n in pending;
        var ok := transport.Await(CloseChannel(n));
        added := added + [CloseChannel(n)];
        if !ok {
          return Err(TransportError("close")), added;
        }
        pending := pending - {n};
      }
      r := Ok(());
    }

    /**
     * `_close_connection`: sets the closing flag, closes the connection (no
     * connection object raises `AttributeError`) and drops it.
     */
    method CloseConnectionStep() returns (r: Result<(), PyError>)
      modifies this`closing, this`hasConn, transport
      ensures closing
      ensures !old(hasConn) ==> r.Err? && hasConn == old(hasConn) && transport.trace == old(transport.trace)
      ensures old(hasConn) ==> transport.trace == old(transport.trace) + [CloseConnection]
      ensures r.Ok? <==> old(hasConn) && Answer(old(transport.script))
      ensures hasConn == (old(hasConn) && !r.Ok?)
    {
      closing := true;
      if !hasConn {
        return Err(AttributeError("close"));
      }
      var ok := transport.Await(CloseConnection);
      if !ok {
        return Err(TransportError("close"));
      }
      hasConn := false;
      r := Ok(());
    }

    /**
     * `stop`: marks the driver as closing, so that the connection's close
     * callback does not schedule a replay, then cancels the consumers,
     * closes the channels and closes the connection, stopping at the first failure.
     */
    method Stop() returns (r: Result<(), PyError>)
      modifies this`closing, this`hasConn, this`consumers, transport
      ensures closing
      ensures r.Ok? ==> Registered() == {} && !hasConn
    {
      closing := true;
      ghost var cancelled, closed;
      r, cancelled := StopConsuming();
      if r.Err? {
        return;
      }
      r, closed := CloseChannels();
      if r.Err? {
        return;
      }
      r := CloseConnectionStep();
    }

    /**
     * `cancel_consumer` as written: it looks the channel up (a closed channel
     * raises `KeyError`), then creates the `_cancel_consumer` coroutine
     * without awaiting it, so nothing is cancelled.
     */
    method CancelConsumerAsWritten(channel: int, tag: string) returns (r: Result<(), PyError>)
      ensures r.Ok? <==> channel in channels
    {
      if channel !in channels {
        return Err(KeyError("channel"));
      }
      r := Ok(());
    }

    /** `cancel_consumer` as intended: the channel's consumer is cancelled through `_cancel_consumer`. */
    method CancelConsumer(channel: int, tag: string) returns (r: Result<(), PyError>)
      modifies this`consumers, transport
      ensures r.Ok? <==> channel in old(channels) && Answer(old(transport.script))
                         && Has(old(consumers), channel, tag)
      ensures r.Ok? ==> !Has(consumers, channel, tag) && Registered() == old(Registered()) - {(channel, tag)}
    {
      r := CancelConsumerTag(channel, tag);
    }

    /**
     * `_handle_msg`: runs the decision of `AckDecisionFor`, hands a raised
     * exception to the consumer-error handler when one is set, and sends the
     * ack or nack it chose.
     */
    method HandleMsg(a: Action, outcome: CallbackOutcome) returns (d: AckDecision)
      requires a.BindConsumer?
      modifies this`consumerErrors, transport
      ensures d == AckDecisionFor(a.autoAck, a.nackRequeue, outcome)
      ensures consumerErrors == old(consumerErrors)
                + (if outcome.Raised? && hasConsumerErrorHandler then [outcome.error] else [])
      ensures transport.trace == old(transport.trace)
                + (match d case SendAck => [Ack] case SendNack(q) => [Nack(q)] case SendNothing => [])
    {
      if outcome.Raised? && hasConsumerErrorHandler {
        consumerErrors := consumerErrors + [outcome.error];
      }
      d := AckDecisionFor(a.autoAck, a.nackRequeue, outcome);
      match d
      case SendAck => transport.Emit(Ack);
      case SendNack(q) => transport.Emit(Nack(q));
      case SendNothing =>
    }

    /**
     * `publish`: picks the exchange (see `PublishTarget`), drops a negative
     * expiration and sends the message with its topic as routing key.
     */
    method Publish(channel: int, msg: AmqpMsg) returns (r: Result<(), PyError>)
      modifies transport
      ensures var target := PublishTarget(View(), channel, msg);
              (target.Err? ==> r == Err(target.error) && unchanged(transport))
              && (target.Ok? ==>
                    transport.trace == old(transport.trace)
                      + [Send(channel, target.value, msg.topic,
                                 msg.(expiration := NormalizeExpiration(msg.expiration)))]
                    && (r.Ok? <==> Answer(old(transport.script))))
    {
      var target := PublishTarget(View(), channel, msg);
      if target.Err? {
        return Err(target.error);
      }
      var ok := transport.Await(Send(channel, target.value, msg.topic,
                                        msg.(expiration := NormalizeExpiration(msg.expiration))));
      r := if ok then Ok(()) else Err(TransportError("publish"));
    }
  }

  /** With a consumer registered on open channel 1, `cancel_consumer` as written succeeds and leaves it registered. */
  method CancelAsWrittenKeepsConsumer() returns (stillRegistered: bool)
    ensures stillRegistered
  {
    var transport := new Transport([]);
    var conn := new AsyncioAmqpConnection(DefaultParameters, transport);
    conn.SetTables(Tables(true, {1}, map[1 := {"consumer.a"}], map[], map[]));
    var r := conn.CancelConsumerAsWritten(1, "consumer.a");
    stillRegistered := r.Ok? && Has(conn.consumers, 1, "consumer.a");
  }

  /** The same call through the corrected `cancel_consumer` unregisters the consumer. */
  method CancelRemovesConsumer() returns (unregistered: bool)
    ensures unregistered
  {
    var transport := new Transport([]);
    var conn := new AsyncioAmqpConnection(DefaultParameters, transport);
    conn.SetTables(Tables(true, {1}, map[1 := {"consumer.a"}], map[], map[]));
    var r := conn.CancelConsumer(1, "consumer.a");
    unregistered := r.Ok? && !Has(conn.consumers, 1, "consumer.a");
  }

  /** With manual ack, a falsy result under `nack_requeue` nacks with requeue, a truthy one acks. */
  lemma AckPolicyExamples()
    ensures AckDecisionFor(false, true, Returned(false)) == SendNack(true)
    ensures AckDecisionFor(false, true, Raised(OtherError("boom"))) == SendNack(true)
    ensures AckDecisionFor(false, true, Returned(true)) == SendAck
    ensures forall q, o :: AckDecisionFor(true, q, o) == SendNothing
  {
  }
}
