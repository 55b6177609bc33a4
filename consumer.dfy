/**
 * The `consume_hn_stories` command: check the broker settings, create a
 * consumer in the fetch group, subscribe it to the fetch topic, then poll.
 * Each message whose value decodes as JSON triggers one ingestion run.
 * Polling is given as a finite script of poll outcomes. The run's own world
 * (API responses, clock, store fault) travels with each message.
 */
module Consumer {
  import opened Wrappers
  import opened Models
  import opened CacheBackend
  import opened IngestionSpec
  import Tasks

  const PLACEHOLDER_SERVERS := "your_kafka_bootstrap_servers"

  /** How an f-string renders an optional setting: an unset one is written `None`. */
  function SettingText(v: Option<string>): string {
    match v
    case Some(s) => s
    case None => "None"
  }

  /** The topic the ingestion trigger is published on. */
  function FetchStoriesTopic(prefix: Option<string>): string {
    SettingText(prefix) + "fetch_stories"
  }

  /** The consumer group of the command. */
  function GroupId(prefix: Option<string>): string {
    SettingText(prefix) + "fetch_stories_consumer_group"
  }

  /** The group id is the topic name followed by `_consumer_group`. */
  lemma GroupIdExtendsTopic(prefix: Option<string>)
    ensures GroupId(prefix) == FetchStoriesTopic(prefix) + "_consumer_group"
  {
  }

  /** The command runs only with bootstrap servers that are set, not empty and not the placeholder. */
  predicate Configured(servers: Option<string>) {
    servers.Some? && servers.value != "" && servers.value != PLACEHOLDER_SERVERS
  }

  /** The settings the command reads and whether creating or subscribing the consumer raises. */
  datatype Startup = Startup(
    bootstrapServers: Option<string>,
    topicPrefix: Option<string>,
    constructRaises: bool,
    subscribeRaises: bool)

  /** A message value: absent, not UTF-8, UTF-8 but not JSON, or a JSON document. */
  datatype MessageValue = NullValue | NotUtf8 | NotJson | Json(payload: string)

  /** What one `poll` yields, or the exception it raises. */
  datatype Poll =
    | NoMessage
    | PartitionEnd
    | BrokerError
    | Message(value: MessageValue, inputs: RunInputs)
    | KafkaFault
    | Interrupt
    | OtherFault

  /** Why the command returned. `ScriptEnd` is the end of a finite poll script. */
  datatype Exit = NotConfigured | ConstructFailed | SubscribeFailed | KafkaStopped | Interrupted | Crashed | ScriptEnd

  /** The broker handle: its group, its subscription and how often it was closed. */
  class KafkaConsumer {
    const groupId: string
    var subscription: seq<string>
    var closeCount: nat

    constructor (groupId: string)
      ensures this.groupId == groupId && subscription == [] && closeCount == 0
    {
      this.groupId := groupId;
      subscription := [];
      closeCount := 0;
    }

    method Subscribe(topics: seq<string>)
      modifies this
      ensures subscription == topics && closeCount == old(closeCount)
    {
      subscription := topics;
    }

    method Close()
      modifies this
      ensures closeCount == old(closeCount) + 1 && subscription == old(subscription)
    {
      closeCount := closeCount + 1;
    }
  }

  /** The loop's state: the store, the cache, the results of the runs so far, and why it stopped if it did. */
  datatype LoopState = LoopState(store: Store, cache: map<string, CacheValue>, results: seq<RunResult>, stopped: Option<Exit>)

  /**
   * Whether a poll ends the loop: a fatal exception, or a value that cannot be
   * decoded. For the latter the exception handler decodes the value once more
   * to log it, raises again, and the outer handler ends the command.
   */
  predicate Stops(p: Poll) {
    p.KafkaFault? || p.Interrupt? || p.OtherFault? || (p.Message? && (p.value.NullValue? || p.value.NotUtf8?))
  }

  function StopReason(p: Poll): Exit
    requires Stops(p)
  {
    match p
    case KafkaFault => KafkaStopped
    case Interrupt => Interrupted
    case _ => Crashed
  }

  /** One pass of the poll loop. */
  function Step(ls: LoopState, p: Poll, supportsPattern: bool, netloc: string -> string): LoopState {
    if ls.stopped.Some? then ls
    else if Stops(p) then ls.(stopped := Some(StopReason(p)))
    else if p.Message? && p.value.Json? then
      var st := Run(ls.store, ls.cache, supportsPattern, p.inputs, netloc);
      LoopState(st.store, st.cache, ls.results + [st.result], None)
    else ls
  }

  /** The state after the given polls. */
  function Loop(init: LoopState, script: seq<Poll>, supportsPattern: bool, netloc: string -> string): LoopState {
    if script == [] then init
    else Step(Loop(init, script[..|script| - 1], supportsPattern, netloc), script[|script| - 1], supportsPattern, netloc)
  }

  /** The number of JSON messages among the polls. */
  function JsonMessages(script: seq<Poll>): nat {
    if script == [] then 0
    else JsonMessages(script[..|script| - 1]) + if script[|script| - 1].Message? && script[|script| - 1].value.Json? then 1 else 0
  }

  /** The polls handled before the first one that ends the loop. */
  function Handled(script: seq<Poll>): (h: seq<Poll>)
    ensures h <= script
    ensures forall i :: 0 <= i < |h| ==> !Stops(h[i])
    ensures |h| < |script| ==> Stops(script[|h|])
  {
    if script == [] then []
    else if Stops(script[0]) then []
    else [script[0]] + Handled(script[1..])
  }

  /**
   * Before a stop, every JSON message triggers exactly one run and nothing else
   * does; the loop stops exactly when some poll ends it.
   */
  lemma {:induction false} LoopDispatch(init: LoopState, script: seq<Poll>, supportsPattern: bool, netloc: string -> string)
    requires init.stopped.None?
    ensures var ls := Loop(init, script, supportsPattern, netloc);
      && |ls.results| == |init.results| + JsonMessages(Handled(script))
      && ls.results[..|init.results|] == init.results
      && (ls.stopped.Some? <==> |Handled(script)| < |script|)
      && (|Handled(script)| < |script| ==> ls.stopped == Some(StopReason(script[|Handled(script)|])))
  {
    if script != [] {
      var n := |script| - 1;
      LoopDispatch(init, script[..n], supportsPattern, netloc);
      HandledPrefix(script, n);
      var ls := Loop(init, script[..n], supportsPattern, netloc);
      if |Handled(script[..n])| == n {
        assert Handled(script[..n]) == script[..n];
        if !Stops(script[n]) {
          assert Handled(script) == script;
          assert JsonMessages(script) == JsonMessages(script[..n]) + if script[n].Message? && script[n].value.Json? then 1 else 0;
        }
      }
    }
  }

  /** How `Handled` of a script relates to `Handled` of its prefix without the last poll. */
  lemma {:induction false} HandledPrefix(script: seq<Poll>, n: nat)
    requires n + 1 == |script|
    ensures |Handled(script[..n])| < n ==> Handled(script) == Handled(script[..n])
    ensures |Handled(script[..n])| == n && Stops(script[n]) ==> Handled(script) == script[..n]
    ensures |Handled(script[..n])| == n && !Stops(script[n]) ==> Handled(script) == script
  {
    if n > 0 && !Stops(script[0]) {
      assert script[..n][1..] == script[1..][..n - 1];
      HandledPrefix(script[1..], n - 1);
    }
  }

  /** A poll the loop only logs, or sleeps after, before polling again. */
  predicate Quiet(p: Poll) {
    p.NoMessage? || p.PartitionEnd? || p.BrokerError? || (p.Message? && p.value.NotJson?)
  }

  /** Polls that bring no message, a broker error or unparsable JSON leave everything as it was. */
  lemma {:induction false} QuietPolls(init: LoopState, script: seq<Poll>, supportsPattern: bool, netloc: string -> string)
    requires forall i :: 0 <= i < |script| ==> Quiet(script[i])
    ensures Loop(init, script, supportsPattern, netloc) == init
  {
    if script != [] {
      QuietPolls(init, script[..|script| - 1], supportsPattern, netloc);
    }
  }

  /** Every run the loop triggers keeps the store valid. */
  lemma {:induction false} LoopValid(init: LoopState, script: seq<Poll>, supportsPattern: bool, netloc: string -> string)
    requires Valid(init.store)
    ensures Valid(Loop(init, script, supportsPattern, netloc).store)
  {
    if script != [] {
      var n := |script| - 1;
      LoopValid(init, script[..n], supportsPattern, netloc);
      var ls := Loop(init, script[..n], supportsPattern, netloc);
      if ls.stopped.None? && !Stops(script[n]) && script[n].Message? && script[n].value.Json? {
        RunValid(ls.store, ls.cache, supportsPattern, script[n].inputs, netloc);
      }
    }
  }

  /** Once stopped, later polls change nothing. */
  lemma {:induction false} StoppedStays(init: LoopState, script: seq<Poll>, i: nat, supportsPattern: bool, netloc: string -> string)
    requires i <= |script|
    requires Loop(init, script[..i], supportsPattern, netloc).stopped.Some?
    ensures Loop(init, script, supportsPattern, netloc) == Loop(init, script[..i], supportsPattern, netloc)
  {
    if i < |script| {
      var n := |script| - 1;
      assert script[..n][..i] == script[..i];
      StoppedStays(init, script[..n], i, supportsPattern, netloc);
    } else {
      assert script[..i] == script;
    }
  }

  /** The loop after one more poll is one more step. */
  lemma LoopSnoc(init: LoopState, script: seq<Poll>, i: nat, supportsPattern: bool, netloc: string -> string)
    requires i < |script|
    ensures Loop(init, script[..i + 1], supportsPattern, netloc) == Step(Loop(init, script[..i], supportsPattern, netloc), script[i], supportsPattern, netloc)
  {
    assert script[..i + 1][..i] == script[..i];
  }

  /** The `while True` poll loop, up to the poll that ends it or the end of the script. */
  method PollLoop(db: Database, cache: Cache, script: seq<Poll>, netloc: string -> string)
    returns (exit: Exit, results: seq<RunResult>)
    modifies db, cache
    ensures var ls := Loop(LoopState(old(db.Value()), old(cache.entries), [], None), script, cache.supportsPattern, netloc);
      && db.Value() == ls.store && cache.entries == ls.cache && results == ls.results
      && exit == ls.stopped.GetOr(ScriptEnd)
  {
    ghost var init := LoopState(db.Value(), cache.entries, [], None);
    results := [];
    exit := ScriptEnd;
    var i := 0;
    while i < |script|
      invariant 0 <= i <= |script|
      invariant Loop(init, script[..i], cache.supportsPattern, netloc) == LoopState(db.Value(), cache.entries, results, None)
    {
      var p := script[i];
      LoopSnoc(init, script, i, cache.supportsPattern, netloc);
      if Stops(p) {
        exit := StopReason(p);
        StoppedStays(init, script, i + 1, cache.supportsPattern, netloc);
        return;
      }
      if p.Message? && p.value.Json? {
        ghost var st := Run(db.Value(), cache.entries, cache.supportsPattern, p.inputs, netloc);
        var r := Tasks.FetchTopStoriesLogic(db, cache, p.inputs, netloc);
        assert st == RunState(r, db.Value(), cache.entries);
        results := results + [r];
      }
      i := i + 1;
    }
    assert script[..i] == script;
  }

  /** `Command.handle`. */
  method Handle(db: Database, cache: Cache, config: Startup, script: seq<Poll>, netloc: string -> string)
    returns (exit: Exit, consumer: KafkaConsumer?, results: seq<RunResult>)
    modifies db, cache
    ensures consumer != null ==> fresh(consumer)
    ensures !Configured(config.bootstrapServers) ==>
      exit == NotConfigured && consumer == null && results == []
      && db.Value() == old(db.Value()) && cache.entries == old(cache.entries)
    ensures Configured(config.bootstrapServers) && config.constructRaises ==>
      exit == ConstructFailed && consumer == null && results == []
      && db.Value() == old(db.Value()) && cache.entries == old(cache.entries)
    ensures Configured(config.bootstrapServers) && !config.constructRaises ==>
      && consumer != null
      && consumer.groupId == GroupId(config.topicPrefix)
      && consumer.closeCount == 1
    ensures Configured(config.bootstrapServers) && !config.constructRaises && config.subscribeRaises ==>
      exit == SubscribeFailed && results == [] && db.Value() == old(db.Value()) && cache.entries == old(cache.entries)
    ensures Configured(config.bootstrapServers) && !config.constructRaises && !config.subscribeRaises ==>
      var ls := Loop(LoopState(old(db.Value()), old(cache.entries), [], None), script, cache.supportsPattern, netloc);
      && consumer.subscription == [FetchStoriesTopic(config.topicPrefix)]
      && db.Value() == ls.store && cache.entries == ls.cache && results == ls.results
      && exit == ls.stopped.GetOr(ScriptEnd)
  {
    results := [];
    if !Configured(config.bootstrapServers) {
      return NotConfigured, null, results;
    }
    if config.constructRaises {
      return ConstructFailed, null, results;
    }
    consumer := new KafkaConsumer(GroupId(config.topicPrefix));
    if config.subscribeRaises {
      consumer.Close();
      return SubscribeFailed, consumer, results;
    }
    consumer.Subscribe([FetchStoriesTopic(config.topicPrefix)]);
    exit, results := PollLoop(db, cache, script, netloc);
    consumer.Close();
  }
}
