/** The consumer command object of cli/consumer_command.go (`consumerCmd`):
    its flag state and the operations that update it in place. prepareConfig
    and askBackoffPolicy fill in the flags still unset while building a new
    configuration; cpAction records the copy's name; getNextMsgDirect,
    nextAction and subAction may turn acknowledgement off while consuming.
    Each method is proved equal to the function of Prepare, Copy or
    Delivery that specifies it. Prompts, the server and the clock are
    inputs: the answers come from an `Answers` record, the consumer held by
    the server is a parameter, and the library functions and the clock come
    from an `Env`. */
module ConsumerCommand {
  import opened Types
  import opened Text
  import opened Policies
  import opened Reconcile
  import opened Delivery
  import opened CommandFlags
  import opened Prepare
  import opened Copy

  /** What `nats consumer sub` goes on to do. */
  datatype SubOutcome =
    | PulledOnce(fetch: Fetched)                                           // one pull fetch
    | Subscribed(subject: string, queueGroup: Option<string>, ack: bool)  // push subscription, each message to HandlePushMessage

  /** subAction: acknowledgement is off for a consumer that takes no acks; a
      pull consumer is fetched from once, a push consumer subscribed to on
      its delivery subject, in its delivery group when it has one. */
  function Subscription(live: ConsumerConfig, ack: bool, ff: FetchFlags, reply: FetchReply, env: Env, draw: int): SubOutcome {
    var ack' := ack && live.ackPolicy != AckNone;
    if IsPull(live) then PulledOnce(FetchOnce(ack', ff.(consumer := live.name, isPull := true), reply, env, draw))
    else Subscribed(live.deliverSubject, if live.deliverGroup == "" then None else Some(live.deliverGroup), ack')
  }

  /** Consuming from a consumer that takes no acknowledgements never
      acknowledges: a pull fetch sends no ack, and a push subscription
      handles every data message without responding to it. */
  lemma SubscriptionNeverAcksAckNone(live: ConsumerConfig, ack: bool, ff: FetchFlags, reply: FetchReply, env: Env, draw: int,
                                     m: Msg)
    requires live.ackPolicy == AckNone
    ensures var s := Subscription(live, ack, ff, reply, env, draw);
      s.PulledOnce? ==> forall e | e in s.fetch.effects :: !e.Acknowledge?
    ensures var s := Subscription(live, ack, ff, reply, env, draw);
      s.Subscribed? ==> !s.ack && (!IsControlFrame(m) ==> |HandlePushMessage(m, s.ack, env).effects| <= 1)
  {
    var ff' := ff.(consumer := live.name, isPull := true);
    FetchOnceFailures(false, ff', reply, env, draw);
    FetchOnceAckRules(false, ff', reply, env, draw);
  }

  /** A pull consumer is fetched from (the next-message request comes
      first); a push consumer is subscribed to on its own subject and
      group. */
  lemma SubscriptionFollowsMode(live: ConsumerConfig, ack: bool, ff: FetchFlags, reply: FetchReply, env: Env, draw: int)
    ensures Subscription(live, ack, ff, reply, env, draw).PulledOnce? <==> live.deliverSubject == ""
    ensures var s := Subscription(live, ack, ff, reply, env, draw);
      s.PulledOnce? ==> s.fetch.effects[0] == RequestNext
    ensures var s := Subscription(live, ack, ff, reply, env, draw);
      s.Subscribed? ==> && s.subject == live.deliverSubject
                        && (s.queueGroup.Some? <==> live.deliverGroup != "")
                        && (s.queueGroup.Some? ==> s.queueGroup.value == live.deliverGroup)
                        && (s.ack <==> ack && live.ackPolicy != AckNone)
  {
  }

  class ConsumerCmd {
    /** The configuration flags of `add`, `edit` and `copy`. */
    var flags: Flags
    /** The flags of `next` and `sub`. */
    var ack: bool
    var ackSetByUser: bool
    var term: bool
    var raw: bool
    var pullCount: int

    /** The flag defaults of `add`, `edit` and `copy`. */
    constructor Create()
      ensures flags == FlagDefaults() && !ack && !ackSetByUser && !term && !raw && pullCount == 0
    {
      flags := FlagDefaults();
      ack, ackSetByUser, term, raw, pullCount := false, false, false, false, 0;
    }

    /** The flags of `next` (acknowledging by default, fetching once by
        default, waiting up to `wait` before acknowledging). */
    constructor Next(consumer: string, ack: bool, ackSetByUser: bool, term: bool, raw: bool, wait: Duration, count: int)
      ensures flags == FlagDefaults().(consumer := consumer, ackWait := wait)
      ensures this.ack == ack && this.ackSetByUser == ackSetByUser && this.term == term && this.raw == raw
      ensures pullCount == count
    {
      flags := FlagDefaults().(consumer := consumer, ackWait := wait);
      this.ack, this.ackSetByUser, this.term, this.raw, pullCount := ack, ackSetByUser, term, raw, count;
    }

    /** The fetch settings the current flags give for fetching from
        `consumer`. */
    function FetchSettings(consumer: string, isPull: bool): FetchFlags
      reads this`ackSetByUser, this`term, this`raw, this`flags
    {
      FetchFlags(ackSetByUser, term, raw, flags.ackWait, consumer, isPull)
    }

    // ---------------------------------------------------------------- prepareConfig

    /** The name prompt, the reserved-character check and the target prompt. */
    method AskNameAndTarget(answers: Answers) returns (r: Result<ConsumerConfig>, asked: seq<Prompt>)
      modifies this`flags
      ensures var s := NameAndTarget(old(flags), answers); flags == s.flags && r == s.cfg && asked == s.asked
    {
      var f := flags;
      asked := [];
      var name := f.consumer;
      if name == "" && !f.ephemeral {
        name := answers.name;
        asked := [AskName];
      }
      var target := f.delivery;
      if HasReservedChar(name) {
        r := Fail(Fatal(DURABLE_NAME_MSG));
      } else {
        if !f.pull && target == "" {
          target := answers.target;
          asked := asked + [AskTarget];
        }
        r := Ok(Starting(f.description, name, target));
      }
      var g := f.(consumer := name, delivery := target);
      assert Step(g, r, asked) == NameAndTarget(f, answers);
      flags := g;
    }

    /** The `--defaults` block. */
    method ApplyDefaults()
      modifies this`flags
      ensures flags == Defaults(old(flags))
    {
      var group, start, ackWord, maxDeliver, maxAckPending := flags.deliveryGroup, flags.startPolicy, flags.ackPolicy,
                                                               flags.maxDeliver, flags.maxAckPending;
      var replay, heartbeat, fcSet := flags.replayPolicy, flags.idleHeartbeat, flags.fcSet;
      if group == UNSET_GROUP {
        group := "";
      }
      if start == "" {
        start := "all";
      }
      if ackWord == "" {
        ackWord := if flags.pull || flags.delivery == "" then "explicit" else "none";
      }
      if maxDeliver == 0 {
        maxDeliver := -1;
      }
      if maxAckPending == -1 {
        maxAckPending := 0;
      }
      if replay == "" {
        replay := "instant";
      }
      if heartbeat == "" {
        heartbeat := "-1";
      }
      if flags.delivery != "" {
        replay, fcSet := "instant", true;
      }
      flags := flags.(deliveryGroup := group, startPolicy := start, ackPolicy := ackWord, maxDeliver := maxDeliver,
                      maxAckPending := maxAckPending, replayPolicy := replay, idleHeartbeat := heartbeat,
                      hdrsOnlySet := true, fcSet := fcSet);
    }

    /** The delivery group and start policy prompts, then setStartPolicy. */
    method AskGroupAndStart(cfg: ConsumerConfig, answers: Answers, env: Env) returns (r: Result<ConsumerConfig>, asked: seq<Prompt>)
      modifies this`flags
      ensures var s := GroupAndStart(old(flags), cfg, answers, env); flags == s.flags && r == s.cfg && asked == s.asked
    {
      var f := flags;
      var group, start := f.deliveryGroup, f.startPolicy;
      asked := [];
      if cfg.deliverSubject != "" && group == UNSET_GROUP {
        group := answers.group;
        asked := [AskGroup];
      }
      if start == "" {
        start := answers.startPolicy;
        asked := asked + [AskStartPolicy];
      }
      r := SetStartPolicy(Grouped(cfg, group), start, env);
      flags := f.(deliveryGroup := group, startPolicy := start);
    }

    /** The acknowledgement and replay policy prompts. */
    method AskAckAndReplay(cfg: ConsumerConfig, answers: Answers) returns (r: Result<ConsumerConfig>, asked: seq<Prompt>)
      modifies this`flags
      ensures var s := AckAndReplay(old(flags), cfg, answers); flags == s.flags && r == s.cfg && asked == s.asked
    {
      asked := [];
      var ackWord, replay := flags.ackPolicy, flags.replayPolicy;
      if ackWord == "" {
        ackWord := AckWord(answers.ackPolicy);
        asked := asked + [AskAckPolicy];
      }
      if replay == "" {
        replay := ReplayWord(answers.replayPolicy);
        asked := asked + [AskReplayPolicy];
      }
      flags := flags.(ackPolicy := ackWord, replayPolicy := replay);
      r := Ok(cfg);
    }

    /** The policy flags applied to the configuration; no flag changes. */
    method ApplyPolicyFlags(cfg: ConsumerConfig) returns (r: Result<ConsumerConfig>)
      ensures r == PolicyFlags(flags, cfg)
    {
      var ack := AckPolicyFromString(flags.ackPolicy);
      if ack.Fail? {
        return Fail(ack.failure);
      }
      if ack.value == AckNone && cfg.deliverSubject == "" {
        return Fail(Fatal(PULL_ACK_NONE_MSG));
      }
      var c := cfg.(ackPolicy := ack.value);
      if ack.value == AckNone {
        c := c.(maxDeliver := -1);
      }
      if flags.ackWait > 0 {
        c := c.(ackWait := flags.ackWait);
      }
      if flags.samplePct > 100 {
        return Fail(Fatal(SAMPLE_RANGE_MSG));
      }
      if flags.samplePct > 0 {
        c := c.(sampleFrequency := DecimalString(flags.samplePct));
      }
      if flags.replayPolicy != "" {
        var replay := ReplayPolicyFromString(flags.replayPolicy);
        if replay.Fail? {
          return Fail(replay.failure);
        }
        c := c.(replayPolicy := replay.value);
      }
      r := Ok(c);
    }

    /** The filter prompt and the filter fields. */
    method AskFilters(cfg: ConsumerConfig, answers: Answers) returns (r: Result<ConsumerConfig>, asked: seq<Prompt>)
      modifies this`flags
      ensures var s := Filters(old(flags), cfg, answers); flags == s.flags && r == s.cfg && asked == s.asked
    {
      var f := flags;
      asked := [];
      var subjects := f.filterSubjects;
      if |subjects| == 0 && !f.acceptDefaults {
        subjects := [answers.filter];
        asked := [AskFilter];
      }
      var c := ApplyFilterOverride(cfg, subjects);
      var filter := c.filterSubject;
      if filter == "" && |subjects| == 0 && c.deliverPolicy == DeliverLastPerSubject {
        filter := ">";
      }
      r := Ok(c.(filterSubject := filter));
      flags := f.(filterSubjects := subjects);
    }

    /** The delivery-attempt and pending-ack prompts. */
    method AskDeliveryLimits(cfg: ConsumerConfig, answers: Answers) returns (r: Result<ConsumerConfig>, asked: seq<Prompt>)
      modifies this`flags
      ensures var s := DeliveryLimits(old(flags), cfg, answers); flags == s.flags && r == s.cfg && asked == s.asked
    {
      var f := flags;
      asked := [];
      var maxDeliver, maxAckPending := f.maxDeliver, f.maxAckPending;
      if maxDeliver == 0 && cfg.ackPolicy != AckNone {
        maxDeliver := answers.maxDeliver;
        asked := [AskMaxDeliver];
      }
      if maxAckPending == -1 && cfg.ackPolicy != AckNone {
        maxAckPending := answers.maxAckPending;
        asked := asked + [AskMaxAckPending];
      }
      r := Ok(cfg);
      var g := f.(maxDeliver := maxDeliver, maxAckPending := maxAckPending);
      assert Step(g, r, asked) == DeliveryLimits(f, cfg, answers);
      flags := g;
    }

    /** The idle heartbeat of a push consumer. */
    method ChooseHeartbeat(cfg: ConsumerConfig, answers: Answers, env: Env) returns (r: Result<ConsumerConfig>, asked: seq<Prompt>)
      ensures var s := Heartbeat(flags, cfg, answers, env); flags == s.flags && r == s.cfg && asked == s.asked
    {
      asked := [];
      if cfg.deliverSubject == "" {
        return Ok(cfg), asked;
      }
      if flags.idleHeartbeat == "-1" {
        return Ok(cfg.(heartbeat := 0)), asked;
      }
      var text := flags.idleHeartbeat;
      if text == "" {
        text := answers.heartbeat;
        asked := [AskHeartbeat];
      }
      var d := env.parseDuration(text);
      if d.Fail? {
        return Fail(Fatal("invalid heartbeat duration: " + d.failure.message)), asked;
      }
      r := Ok(cfg.(heartbeat := d.value));
    }

    /** The flow-control and headers-only prompts. */
    method AskFlowAndHeaders(cfg: ConsumerConfig, answers: Answers) returns (r: Result<ConsumerConfig>, asked: seq<Prompt>)
      modifies this`flags
      ensures var s := FlowAndHeaders(old(flags), cfg, answers); flags == s.flags && r == s.cfg && asked == s.asked
    {
      asked := [];
      var fc, hdrsOnly := flags.fc, flags.hdrsOnly;
      var c := cfg;
      if cfg.deliverSubject != "" {
        if !flags.fcSet {
          fc := answers.flowControl;
          asked := asked + [AskFlowControl];
        }
        c := c.(flowControl := fc);
      }
      if !flags.hdrsOnlySet {
        hdrsOnly := answers.headersOnly;
        asked := asked + [AskHeadersOnly];
      }
      flags := flags.(fc := fc, hdrsOnly := hdrsOnly);
      r := Ok(c.(headersOnly := hdrsOnly));
    }

    /** askBackoffPolicy: only the four backoff flags change. */
    method AskBackoffPolicy(answer: BackoffAnswer, env: Env) returns (err: Option<Failure>)
      modifies this`flags
      ensures var (b, e) := BackoffAnswered(BackoffOf(old(flags)), answer, env);
        flags == WithBackoff(old(flags), b) && err == e
    {
      var f := flags;
      if answer.NoBackoff? {
        return None;
      }
      if answer.mode == "none" {
        flags := f.(backoffMode := answer.mode);
        return None;
      }
      var lo := env.parseDuration(answer.min);
      if lo.Fail? {
        flags := f.(backoffMode := answer.mode);
        return Some(Error(lo.failure.message));
      }
      var hi := env.parseDuration(answer.max);
      if hi.Fail? {
        flags := f.(backoffMode := answer.mode, backoffMin := lo.value);
        return Some(Error(hi.failure.message));
      }
      if answer.steps < 1 {
        flags := f.(backoffMode := answer.mode, backoffMin := lo.value, backoffMax := hi.value);
        return Some(Error(BACKOFF_STEPS_MSG));
      }
      flags := f.(backoffMode := answer.mode, backoffSteps := answer.steps, backoffMin := lo.value, backoffMax := hi.value);
      err := None;
    }

    /** The backoff prompt and schedule. */
    method ChooseBackoff(cfg: ConsumerConfig, answers: Answers, env: Env) returns (r: Result<ConsumerConfig>, asked: seq<Prompt>)
      modifies this`flags
      ensures var s := Backoff(old(flags), cfg, answers, env); flags == s.flags && r == s.cfg && asked == s.asked
    {
      asked := [];
      var ask := !flags.acceptDefaults && flags.backoffMode == "";
      if ask {
        asked := [AskBackoff];
        var err := AskBackoffPolicy(answers.backoff, env);
        if err.Some? {
          return Fail(err.value), asked;
        }
      }
      var f := flags;
      if f.backoffMode == "" {
        return Ok(cfg), asked;
      }
      var computed := BackoffPolicy(f.backoffMode, f.backoffSteps, f.backoffMin, f.backoffMax, env);
      if computed.Fail? {
        return Fail(Error(BACKOFF_FAILED_PREFIX + computed.failure.message)), asked;
      }
      var bo := computed.value;
      var maxDeliver := f.maxDeliver;
      if maxDeliver == -1 && |bo| > 0 {
        maxDeliver := |bo| + 1;
      }
      r := Ok(WithSchedule(cfg, bo));
      flags := WithMaxDeliver(f, maxDeliver);
    }

    /** The remaining limits. */
    method ApplyLimits(cfg: ConsumerConfig) returns (r: Result<ConsumerConfig>, asked: seq<Prompt>)
      modifies this`flags
      ensures var s := Limits(old(flags), cfg); flags == s.flags && r == s.cfg && asked == s.asked
    {
      var f := flags;
      asked := [];
      var pending := f.maxAckPending;
      if pending == -1 {
        pending := 0;
      }
      var batch, expires, bytes := cfg.maxRequestBatch, cfg.maxRequestExpires, cfg.maxRequestMaxBytes;
      if f.maxPullBatch > 0 {
        batch := f.maxPullBatch;
      }
      if f.maxPullExpire > 0 {
        expires := f.maxPullExpire;
      }
      if f.maxPullBytes > 0 {
        bytes := f.maxPullBytes;
      }
      var waiting, maxDeliver := cfg.maxWaiting, cfg.maxDeliver;
      if cfg.deliverSubject == "" {
        waiting := f.maxWaiting;
      }
      if f.maxDeliver != 0 && cfg.ackPolicy != AckNone {
        maxDeliver := f.maxDeliver;
      }
      if f.bpsRateLimit > 0 && cfg.deliverSubject == "" {
        r := Fail(Error(PULL_RATE_LIMIT_MSG));
      } else {
        var metadata := cfg.metadata;
        if f.metadataIsSet {
          metadata := f.metadata;
        }
        r := Ok(cfg.(maxAckPending := pending, inactiveThreshold := f.inactiveThreshold, maxRequestBatch := batch,
                     maxRequestExpires := expires, maxRequestMaxBytes := bytes, maxWaiting := waiting,
                     maxDeliver := maxDeliver, rateLimit := f.bpsRateLimit, replicas := f.replicas,
                     memoryStorage := f.memory, metadata := metadata));
      }
      var g := f.(maxAckPending := pending);
      assert Step(g, r, asked) == Limits(f, cfg);
      flags := g;
    }

    /** The backoff schedule, then the remaining limits. */
    method FinishConfig(cfg: ConsumerConfig, answers: Answers, env: Env) returns (r: Result<ConsumerConfig>, asked: seq<Prompt>)
      modifies this`flags
      ensures var s := Finish(old(flags), cfg, answers, env); flags == s.flags && r == s.cfg && asked == s.asked
    {
      r, asked := ChooseBackoff(cfg, answers, env);
      if r.Fail? {
        return;
      }
      var more;
      r, more := ApplyLimits(r.value);
      asked := asked + more;
    }

    /** Filters, delivery limits, heartbeat, flow control and headers, then
        the last steps. */
    method ChooseDelivery(cfg: ConsumerConfig, answers: Answers, env: Env) returns (r: Result<ConsumerConfig>, asked: seq<Prompt>)
      modifies this`flags
      ensures var s := Deliver(old(flags), cfg, answers, env); flags == s.flags && r == s.cfg && asked == s.asked
    {
      var more;
      r, asked := AskFilters(cfg, answers);
      r, more := AskDeliveryLimits(r.value, answers);
      asked := asked + more;
      r, more := ChooseHeartbeat(r.value, answers, env);
      asked := asked + more;
      if r.Fail? {
        return;
      }
      r, more := AskFlowAndHeaders(r.value, answers);
      asked := asked + more;
      r, more := FinishConfig(r.value, answers, env);
      asked := asked + more;
    }

    /** Group, start, acknowledgement and replay, the policy flags, then the
        delivery steps. */
    method ChoosePolicies(cfg: ConsumerConfig, answers: Answers, env: Env) returns (r: Result<ConsumerConfig>, asked: seq<Prompt>)
      modifies this`flags
      ensures var s := Configure(old(flags), cfg, answers, env); flags == s.flags && r == s.cfg && asked == s.asked
    {
      r, asked := AskGroupAndStart(cfg, answers, env);
      if r.Fail? {
        return;
      }
      var started := r.value;
      var more;
      r, more := AskAckAndReplay(started, answers);
      asked := asked + more;
      r := ApplyPolicyFlags(started);
      if r.Fail? {
        return;
      }
      r, more := ChooseDelivery(r.value, answers, env);
      asked := asked + more;
    }

    /** prepareConfig: from a file, the file's configuration with the name
        and the target given on the command line, and no flag changed;
        otherwise name and target, the --defaults block when given, and the
        remaining steps. */
    method PrepareConfig(file: Result<ConsumerConfig>, answers: Answers, env: Env) returns (r: Result<ConsumerConfig>, asked: seq<Prompt>)
      modifies this`flags
      ensures var s := Prepared(old(flags), file, answers, env); flags == s.flags && r == s.cfg && asked == s.asked
    {
      if flags.inputFile != "" {
        asked := [];
        if file.Fail? {
          return file, asked;
        }
        var cfg := file.value;
        if cfg.durable != "" && flags.consumer != "" && cfg.durable != flags.consumer {
          if flags.consumer != "" {
            cfg := cfg.(durable := flags.consumer);
          } else {
            assert false;
          }
        }
        if cfg.deliverSubject != "" && flags.delivery != "" {
          cfg := cfg.(deliverSubject := flags.delivery);
        }
        return Ok(cfg), asked;
      }
      r, asked := AskNameAndTarget(answers);
      if r.Fail? {
        return;
      }
      if flags.acceptDefaults {
        ApplyDefaults();
      }
      var more;
      r, more := ChoosePolicies(r.value, answers, env);
      asked := asked + more;
    }

    // ---------------------------------------------------------------- copy

    /** cpAction: the copied configuration; once it is accepted, a durable
        copy's name becomes the command's consumer name. */
    method CopyConfig(src: ConsumerConfig, env: Env) returns (r: Result<ConsumerConfig>)
      modifies this`flags
      ensures r == CopiedConfig(old(flags), src, env)
      ensures r.Ok? && r.value.durable != "" ==> flags == old(flags).(consumer := r.value.durable)
      ensures !(r.Ok? && r.value.durable != "") ==> flags == old(flags)
    {
      r := CopiedConfig(flags, src, env);
      if r.Ok? && r.value.durable != "" {
        flags := flags.(consumer := r.value.durable);
      }
    }

    // ---------------------------------------------------------------- next and sub

    /** getNextMsgDirect: one fetch from `consumer`; acknowledgement is
        turned off for good by --term without an explicit --ack. */
    method GetNextMsgDirect(consumer: string, isPull: bool, reply: FetchReply, env: Env, draw: int)
      returns (effects: seq<Effect>, failure: Option<Failure>)
      modifies this`ack
      ensures Fetched(ack, effects, failure) == FetchOnce(old(ack), old(FetchSettings(consumer, isPull)), reply, env, draw)
    {
      ack, effects, failure := FetchNext(ack, FetchSettings(consumer, isPull), reply, env, draw);
    }

    /** nextAction: up to `pullCount` fetches, the i-th reply and random
        draw being `replies(i)` and `draws(i)`, stopping at the first fatal
        failure. */
    method NextAction(isPull: bool, replies: nat -> FetchReply, env: Env, draws: nat -> int)
      returns (effects: seq<Effect>, failure: Option<Failure>)
      modifies this`ack
      ensures Fetched(ack, effects, failure) == FetchAll(pullCount, 0, old(ack), old(FetchSettings(flags.consumer, isPull)), replies, env, draws)
    {
      var ff, count, acking := FetchSettings(flags.consumer, isPull), pullCount, ack;
      ghost var total := FetchAll(count, 0, acking, ff, replies, env, draws);
      effects, failure := [], None;
      assert total == After(effects, total);
      var i: nat := 0;
      while i < count && failure.None?
        invariant failure.None? ==> total == After(effects, FetchAll(count, i, acking, ff, replies, env, draws))
        invariant failure.Some? ==> total == Fetched(acking, effects, failure)
        decreases count - i
      {
        ghost var before := acking;
        var more, err;
        acking, more, err := FetchNext(acking, ff, replies(i), env, draws(i));
        FetchAllStep(count, i, before, ff, replies, env, draws, effects, Fetched(acking, more, err));
        effects, failure := effects + more, err;
        i := i + 1;
      }
      if failure.None? {
        FetchAllDone(count, i, acking, ff, replies, env, draws);
        assert effects + [] == effects;
      }
      ack := acking;
    }

    /** subAction against the consumer `live` held by the server. */
    method SubAction(live: ConsumerConfig, reply: FetchReply, env: Env, draw: int) returns (outcome: SubOutcome)
      modifies this`ack
      ensures outcome == Subscription(live, old(ack), FetchSettings(live.name, true), reply, env, draw)
      ensures ack == (if outcome.PulledOnce? then outcome.fetch.ack else outcome.ack)
    {
      if live.ackPolicy == AckNone {
        ack := false;
      }
      if IsPull(live) {
        var effects, failure := GetNextMsgDirect(live.name, true, reply, env, draw);
        outcome := PulledOnce(Fetched(ack, effects, failure));
      } else {
        var group := if live.deliverGroup == "" then None else Some(live.deliverGroup);
        outcome := Subscribed(live.deliverSubject, group, ack);
      }
    }
  }
}
