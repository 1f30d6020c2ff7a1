/** What prepareConfig (cli/consumer_command.go) computes, step by step, as
    functions of the flag values: each step takes the flags and the
    configuration built so far and yields the updated flags, the updated
    configuration or the failure that ends the command, and the prompts it
    asked. `Prepared` chains the steps in the order of the Go code; the lemmas at
    the end state what the finished configuration satisfies. */
module Prepare {
  import opened Types
  import opened Text
  import opened Policies
  import opened Reconcile
  import opened CommandFlags

  const DURABLE_NAME_MSG := "durable name can not contain '.', '*', '>'"
  const PULL_ACK_NONE_MSG := "pull consumers can only be explicit or all acknowledgement modes"
  const PULL_RATE_LIMIT_MSG := "rate limits are only possible on Push consumers"
  const BACKOFF_STEPS_MSG := "backoff steps must be > 0"

  /** The outcome of one step: the flags after it, the configuration (or
      the failure) and the prompts it asked, in order. */
  datatype Step = Step(flags: Flags, cfg: Result<ConsumerConfig>, asked: seq<Prompt>)

  /** Running `t` after `s`: t's state, both steps' prompts. */
  function Then(s: Step, t: Step): Step
  {
    Step(t.flags, t.cfg, s.asked + t.asked)
  }

  /** The configuration file branch: the file's configuration, with its
      durable name replaced by a different name given on the command line and
      its delivery subject replaced by --target only when it has one; nothing
      else changes. */
  function FromFile(f: Flags, file: Result<ConsumerConfig>): (r: Result<ConsumerConfig>)
    ensures file.Fail? ==> r == file
    ensures file.Ok? ==> r.Ok?
    ensures file.Ok? ==> r.value.durable == (if file.value.durable != "" && f.consumer != "" then f.consumer else file.value.durable)
    ensures file.Ok? ==>
      r.value.deliverSubject == (if file.value.deliverSubject != "" && f.delivery != "" then f.delivery else file.value.deliverSubject)
    ensures file.Ok? ==> r.value.(durable := file.value.durable, deliverSubject := file.value.deliverSubject) == file.value
  {
    match file
    case Fail(_) => file
    case Ok(cfg) =>
      var durable := if cfg.durable != "" && f.consumer != "" && cfg.durable != f.consumer then f.consumer else cfg.durable;
      var subject := if cfg.deliverSubject != "" && f.delivery != "" then f.delivery else cfg.deliverSubject;
      Ok(cfg.(durable := durable, deliverSubject := subject))
  }

  /** The durable name prepareConfig works with: the given one, or the
      answer to the name prompt unless the consumer is ephemeral. */
  function NameUsed(f: Flags, a: Answers): string {
    if f.consumer == "" && !f.ephemeral then a.name else f.consumer
  }

  /** The delivery subject prepareConfig works with: the given one, or the
      answer to the target prompt unless --pull is given. */
  function TargetUsed(f: Flags, a: Answers): string {
    if !f.pull && f.delivery == "" then a.target else f.delivery
  }

  /** The default configuration with a description, durable name and
      delivery subject. */
  function Starting(description: string, name: string, target: string): ConsumerConfig {
    DefaultConsumer().(description := description, durable := name, deliverSubject := target)
  }

  /** The name prompt (unless a name is given or the consumer is ephemeral),
      the refusal of a name holding '.', '*' or '>', and the target prompt
      (unless --pull or a target is given); the configuration starts as the
      default one with the description, the name and the target. */
  function NameAndTarget(f: Flags, a: Answers): (s: Step)
    ensures s.cfg.Fail? <==> HasReservedChar(NameUsed(f, a))
    ensures s.cfg.Fail? ==> s.cfg.failure == Fatal(DURABLE_NAME_MSG)
    ensures s.cfg.Ok? ==>
      s.cfg.value == Starting(f.description, NameUsed(f, a), TargetUsed(f, a))
    ensures s.flags == f.(consumer := NameUsed(f, a), delivery := if s.cfg.Ok? then TargetUsed(f, a) else f.delivery)
  {
    var askName := f.consumer == "" && !f.ephemeral;
    var name := NameUsed(f, a);
    if HasReservedChar(name) then
      Step(f.(consumer := name), Fail(Fatal(DURABLE_NAME_MSG)), (if askName then [AskName] else []))
    else
      var target := TargetUsed(f, a);
      Step(f.(consumer := name, delivery := target), Ok(Starting(f.description, name, target)),
           (if askName then [AskName] else []) + (if !f.pull && f.delivery == "" then [AskTarget] else []))
  }

  /** The `--defaults` block: every flag still at its sentinel takes its
      default (an unset ack policy is explicit for a pull consumer or when
      --pull is given, none otherwise), a flag already given keeps its
      value, and a push consumer is forced to instant replay with the
      flow-control flag counted as given. */
  function Defaults(f: Flags): Flags
  {
    f.(deliveryGroup := (if f.deliveryGroup == UNSET_GROUP then "" else f.deliveryGroup),
       startPolicy := OrDefault(f.startPolicy, "all"),
       ackPolicy := OrDefault(f.ackPolicy, (if f.pull || f.delivery == "" then "explicit" else "none")),
       maxDeliver := (if f.maxDeliver == 0 then -1 else f.maxDeliver),
       maxAckPending := (if f.maxAckPending == -1 then 0 else f.maxAckPending),
       replayPolicy := (if f.delivery != "" then "instant" else OrDefault(f.replayPolicy, "instant")),
       idleHeartbeat := OrDefault(f.idleHeartbeat, "-1"),
       hdrsOnlySet := true,
       fcSet := f.fcSet || f.delivery != "")
  }

  /** What the defaults give: no flag is left at its sentinel; an unset
      ack policy is explicit for a pull consumer or when --pull is given and
      none otherwise; a push consumer is forced to instant replay with flow
      control counted as given; a flag already given keeps its value. */
  lemma DefaultsValues(f: Flags)
    ensures var d := Defaults(f);
      && d.deliveryGroup != UNSET_GROUP && d.startPolicy != "" && d.ackPolicy != "" && d.maxDeliver != 0
      && d.maxAckPending != -1 && d.replayPolicy != "" && d.idleHeartbeat != "" && d.hdrsOnlySet
    ensures f.ackPolicy == "" ==> Defaults(f).ackPolicy == (if f.pull || f.delivery == "" then "explicit" else "none")
    ensures f.delivery != "" ==> Defaults(f).replayPolicy == "instant" && Defaults(f).fcSet
    ensures f.delivery == "" ==>
      Defaults(f).fcSet == f.fcSet && (f.replayPolicy != "" ==> Defaults(f).replayPolicy == f.replayPolicy)
    ensures f.deliveryGroup != UNSET_GROUP ==> Defaults(f).deliveryGroup == f.deliveryGroup
    ensures f.startPolicy != "" ==> Defaults(f).startPolicy == f.startPolicy
    ensures f.ackPolicy != "" ==> Defaults(f).ackPolicy == f.ackPolicy
    ensures f.maxDeliver != 0 ==> Defaults(f).maxDeliver == f.maxDeliver
    ensures f.maxAckPending != -1 ==> Defaults(f).maxAckPending == f.maxAckPending
    ensures f.idleHeartbeat != "" ==> Defaults(f).idleHeartbeat == f.idleHeartbeat
  {
  }

  /** The defaults touch only the flags they have a default for. */
  lemma DefaultsFrame(f: Flags)
    ensures var d := Defaults(f);
      d == f.(deliveryGroup := d.deliveryGroup, startPolicy := d.startPolicy, ackPolicy := d.ackPolicy,
              maxDeliver := d.maxDeliver, maxAckPending := d.maxAckPending, replayPolicy := d.replayPolicy,
              idleHeartbeat := d.idleHeartbeat, hdrsOnlySet := d.hdrsOnlySet, fcSet := d.fcSet)
  {
  }

  /** Applying the defaults twice is applying them once. */
  lemma DefaultsIdempotent(f: Flags)
    ensures Defaults(Defaults(f)) == Defaults(f)
  {
  }

  /** The configuration in the delivery group given; the unset sentinel
      means no group. */
  function Grouped(cfg: ConsumerConfig, group: string): ConsumerConfig {
    cfg.(deliverGroup := if group == UNSET_GROUP then "" else group)
  }

  /** The delivery group, asked for a push consumer whose group is unset (the
      sentinel itself never reaching the configuration), and the start
      policy, asked when unset and then applied. */
  function GroupAndStart(f: Flags, cfg: ConsumerConfig, a: Answers, env: Env): Step
  {
    var askGroup := cfg.deliverSubject != "" && f.deliveryGroup == UNSET_GROUP;
    var group := if askGroup then a.group else f.deliveryGroup;
    var askStart := f.startPolicy == "";
    var start := if askStart then a.startPolicy else f.startPolicy;
    var r := WithStartPolicy(Grouped(cfg, group), start, env);
    Step(f.(deliveryGroup := group, startPolicy := start), r,
         (if askGroup then [AskGroup] else []) + (if askStart then [AskStartPolicy] else []))
  }

  /** Only the delivery group and the start fields change, and the group
      is the one used unless that is the unset sentinel. */
  lemma GroupAndStartFrame(f: Flags, cfg: ConsumerConfig, a: Answers, env: Env)
    ensures var s := GroupAndStart(f, cfg, a, env); var r := s.cfg;
      r.Ok? ==> && r.value == cfg.(deliverGroup := r.value.deliverGroup, deliverPolicy := r.value.deliverPolicy,
                                   optStartSeq := r.value.optStartSeq, optStartTime := r.value.optStartTime)
                && r.value.deliverGroup == (if s.flags.deliveryGroup == UNSET_GROUP then "" else s.flags.deliveryGroup)
  {
    var g := GroupAndStart(f, cfg, a, env).flags;
    WithStartPolicyFrame(Grouped(cfg, g.deliveryGroup), g.startPolicy, env);
  }

  /** The acknowledgement and replay policy prompts, each asked when its
      flag is unset and answered with one of the words it offers. */
  function AckAndReplay(f: Flags, cfg: ConsumerConfig, a: Answers): (s: Step)
    ensures s.cfg == Ok(cfg)
  {
    Step(f.(ackPolicy := OrDefault(f.ackPolicy, AckWord(a.ackPolicy)),
            replayPolicy := OrDefault(f.replayPolicy, ReplayWord(a.replayPolicy))),
         Ok(cfg),
         (if f.ackPolicy == "" then [AskAckPolicy] else []) + (if f.replayPolicy == "" then [AskReplayPolicy] else []))
  }

  /** The policy flags applied to the configuration: the acknowledgement
      policy (fatal when unknown, and refused for a pull consumer when it is
      "none", which otherwise means unlimited deliveries), the ack wait when
      positive, the sample percentage (fatal above 100) and the replay
      policy. Every failure is fatal and no other field changes. */
  function PolicyFlags(f: Flags, cfg: ConsumerConfig): (r: Result<ConsumerConfig>)
    ensures r.Ok? ==>
      r.value == cfg.(ackPolicy := r.value.ackPolicy, replayPolicy := r.value.replayPolicy, maxDeliver := r.value.maxDeliver,
                      ackWait := r.value.ackWait, sampleFrequency := r.value.sampleFrequency)
  {
    match AckPolicyFromString(f.ackPolicy)
    case Fail(e) => Fail(e)
    case Ok(ack) =>
      if ack == AckNone && cfg.deliverSubject == "" then Fail(Fatal(PULL_ACK_NONE_MSG))
      else if f.samplePct > 100 then Fail(Fatal(SAMPLE_RANGE_MSG))
      else
        var c := cfg.(ackPolicy := ack, maxDeliver := (if ack == AckNone then -1 else cfg.maxDeliver),
                      ackWait := (if f.ackWait > 0 then f.ackWait else cfg.ackWait),
                      sampleFrequency := if f.samplePct > 0 then DecimalString(f.samplePct) else cfg.sampleFrequency);
        if f.replayPolicy == "" then Ok(c)
        else match ReplayPolicyFromString(f.replayPolicy)
          case Fail(e) => Fail(e)
          case Ok(replay) => Ok(c.(replayPolicy := replay))
  }

  /** The acknowledgement policy flag: an unknown word fails as the parser
      does, "none" is refused for a pull consumer, and otherwise the policy
      is the parsed one, with unlimited deliveries (-1) for "none". */
  lemma PolicyFlagsAck(f: Flags, cfg: ConsumerConfig)
    ensures AckPolicyFromString(f.ackPolicy).Fail? ==> PolicyFlags(f, cfg) == Fail(AckPolicyFromString(f.ackPolicy).failure)
    ensures AckPolicyFromString(f.ackPolicy) == Ok(AckNone) && cfg.deliverSubject == "" ==>
      PolicyFlags(f, cfg) == Fail(Fatal(PULL_ACK_NONE_MSG))
    ensures PolicyFlags(f, cfg).Ok? ==> Ok(PolicyFlags(f, cfg).value.ackPolicy) == AckPolicyFromString(f.ackPolicy)
    ensures PolicyFlags(f, cfg).Ok? && PolicyFlags(f, cfg).value.ackPolicy == AckNone ==> PolicyFlags(f, cfg).value.maxDeliver == -1
    ensures PolicyFlags(f, cfg).Ok? && PolicyFlags(f, cfg).value.ackPolicy != AckNone ==> PolicyFlags(f, cfg).value.maxDeliver == cfg.maxDeliver
  {
  }

  /** A sample percentage above 100 is fatal once the acknowledgement policy
      is accepted; a positive one is sampled as its decimal string and any
      other leaves the sampling alone; a positive ack wait is taken; a given
      replay policy is parsed, and an unset one leaves the policy alone. */
  lemma PolicyFlagsValues(f: Flags, cfg: ConsumerConfig)
    ensures (&& AckPolicyFromString(f.ackPolicy).Ok? && f.samplePct > 100
             && !(AckPolicyFromString(f.ackPolicy).value == AckNone && cfg.deliverSubject == "")) ==>
      PolicyFlags(f, cfg) == Fail(Fatal(SAMPLE_RANGE_MSG))
    ensures PolicyFlags(f, cfg).Ok? ==> f.samplePct <= 100
    ensures PolicyFlags(f, cfg).Ok? ==>
      PolicyFlags(f, cfg).value.sampleFrequency == (if f.samplePct > 0 then DecimalString(f.samplePct) else cfg.sampleFrequency)
    ensures PolicyFlags(f, cfg).Ok? ==> PolicyFlags(f, cfg).value.ackWait == (if f.ackWait > 0 then f.ackWait else cfg.ackWait)
    ensures PolicyFlags(f, cfg).Ok? && f.replayPolicy == "" ==> PolicyFlags(f, cfg).value.replayPolicy == cfg.replayPolicy
    ensures PolicyFlags(f, cfg).Ok? && f.replayPolicy != "" ==>
      Ok(PolicyFlags(f, cfg).value.replayPolicy) == ReplayPolicyFromString(f.replayPolicy)
  {
  }

  /** The filter subjects prepareConfig works with: the --filter flags, or
      the one answer to the filter prompt when none was given outside
      --defaults. */
  function FilterSubjectsUsed(f: Flags, a: Answers): seq<string> {
    if |f.filterSubjects| == 0 && !f.acceptDefaults then [a.filter] else f.filterSubjects
  }

  /** The filter fields of `c` as prepareConfig derives them from
      `subjects`: one subject is the single filter, several the filter list,
      and none filters on ">" exactly for "last per subject" delivery; at
      most one of the two fields is ever set. */
  predicate FiltersFrom(subjects: seq<string>, c: ConsumerConfig) {
    && (|subjects| == 1 ==> c.filterSubject == subjects[0] && |c.filterSubjects| == 0)
    && (|subjects| > 1 ==> c.filterSubjects == subjects && c.filterSubject == "")
    && (|subjects| == 0 ==>
          |c.filterSubjects| == 0 && c.filterSubject == (if c.deliverPolicy == DeliverLastPerSubject then ">" else ""))
  }

  /** The filter fields derived depend only on the subjects, the two filter
      fields and the deliver policy. */
  lemma FiltersFromKept(subjects: seq<string>, c: ConsumerConfig, d: ConsumerConfig)
    requires FiltersFrom(subjects, c)
    requires d.filterSubject == c.filterSubject && d.filterSubjects == c.filterSubjects && d.deliverPolicy == c.deliverPolicy
    ensures FiltersFrom(subjects, d)
  {
  }

  /** The filter subjects: asked (one subject, possibly blank) when none was
      given outside --defaults; one subject is the single filter, several
      the filter list; and "last per subject" delivery without any filter
      filters on ">". Only the two filter fields change. */
  function Filters(f: Flags, cfg: ConsumerConfig, a: Answers): (s: Step)
    ensures s.cfg.Ok? && s.cfg.value.(filterSubject := cfg.filterSubject, filterSubjects := cfg.filterSubjects) == cfg
    ensures cfg.filterSubject == "" && |cfg.filterSubjects| == 0 ==> FiltersFrom(FilterSubjectsUsed(f, a), s.cfg.value)
  {
    var subjects := FilterSubjectsUsed(f, a);
    var c := ApplyFilterOverride(cfg, subjects);
    var lastPerSubject := c.filterSubject == "" && |subjects| == 0 && c.deliverPolicy == DeliverLastPerSubject;
    Step(f.(filterSubjects := subjects), Ok(c.(filterSubject := (if lastPerSubject then ">" else c.filterSubject))),
         (if |f.filterSubjects| == 0 && !f.acceptDefaults then [AskFilter] else []))
  }

  /** The delivery-attempt and pending-ack limits, asked when unset and the
      consumer acknowledges. */
  function DeliveryLimits(f: Flags, cfg: ConsumerConfig, a: Answers): (s: Step)
    ensures s.cfg == Ok(cfg)
  {
    var askMax := f.maxDeliver == 0 && cfg.ackPolicy != AckNone;
    var askPending := f.maxAckPending == -1 && cfg.ackPolicy != AckNone;
    Step(f.(maxDeliver := (if askMax then a.maxDeliver else f.maxDeliver),
            maxAckPending := (if askPending then a.maxAckPending else f.maxAckPending)),
         Ok(cfg),
         (if askMax then [AskMaxDeliver] else []) + (if askPending then [AskMaxAckPending] else []))
  }

  /** The idle heartbeat of a push consumer: none for "-1", otherwise the
      flag or the answer to its prompt, whose parse failure is fatal. A pull
      consumer is left alone and nothing is asked. */
  function Heartbeat(f: Flags, cfg: ConsumerConfig, a: Answers, env: Env): (s: Step)
    ensures s.cfg.Ok? ==> s.cfg.value == cfg.(heartbeat := s.cfg.value.heartbeat)
  {
    if cfg.deliverSubject == "" then Step(f, Ok(cfg), [])
    else if f.idleHeartbeat == "-1" then Step(f, Ok(cfg.(heartbeat := 0)), [])
    else
      var asked := if f.idleHeartbeat == "" then [AskHeartbeat] else [];
      match env.parseDuration(OrDefault(f.idleHeartbeat, a.heartbeat))
      case Ok(d) => Step(f, Ok(cfg.(heartbeat := d)), asked)
      case Fail(e) => Step(f, Fail(Fatal("invalid heartbeat duration: " + e.message)), asked)
  }

  /** Flow control (push consumers only, asked unless given) and
      headers-only delivery (asked unless given). */
  function FlowAndHeaders(f: Flags, cfg: ConsumerConfig, a: Answers): (s: Step)
    ensures s.cfg.Ok? && s.cfg.value == cfg.(flowControl := s.cfg.value.flowControl, headersOnly := s.cfg.value.headersOnly)
  {
    var askFc := cfg.deliverSubject != "" && !f.fcSet;
    var fc := if askFc then a.flowControl else f.fc;
    var hdrsOnly := if !f.hdrsOnlySet then a.headersOnly else f.hdrsOnly;
    Step(f.(fc := fc, hdrsOnly := hdrsOnly),
         Ok(cfg.(flowControl := (if cfg.deliverSubject != "" then fc else cfg.flowControl), headersOnly := hdrsOnly)),
         (if askFc then [AskFlowControl] else []) + (if !f.hdrsOnlySet then [AskHeadersOnly] else []))
  }

  /** The four backoff flags: mode, step count, minimum and maximum. */
  datatype BackoffSettings = BackoffSettings(mode: string, steps: nat, min: Duration, max: Duration)

  function BackoffOf(f: Flags): BackoffSettings {
    BackoffSettings(f.backoffMode, f.backoffSteps, f.backoffMin, f.backoffMax)
  }

  /** The flags with the four backoff settings replaced. */
  function WithBackoff(f: Flags, b: BackoffSettings): Flags {
    f.(backoffMode := b.mode, backoffSteps := b.steps, backoffMin := b.min, backoffMax := b.max)
  }

  /** Writing backoff settings into the flags and reading them back gives
      the same settings, and writing back the settings read changes
      nothing. */
  lemma BackoffOfWith(f: Flags, b: BackoffSettings)
    ensures BackoffOf(WithBackoff(f, b)) == b
    ensures WithBackoff(f, BackoffOf(f)) == f
  {
  }

  /** askBackoffPolicy: a declined backoff changes nothing; "none" only
      records the mode; otherwise the minimum and maximum must parse and the
      step count be positive, and a setting is recorded as soon as it is
      read. Every failure is an error returned to the caller. */
  function BackoffAnswered(b: BackoffSettings, answer: BackoffAnswer, env: Env): (r: (BackoffSettings, Option<Failure>))
    ensures answer.NoBackoff? ==> r == (b, None)
    ensures answer.BackoffChosen? ==> r.0.mode == answer.mode
    ensures answer.BackoffChosen? && answer.mode == "none" ==> r == (b.(mode := "none"), None)
    ensures r.1.None? && answer.BackoffChosen? && answer.mode != "none" ==>
      && env.parseDuration(answer.min) == Ok(r.0.min) && env.parseDuration(answer.max) == Ok(r.0.max)
      && answer.steps >= 1 && r.0.steps == answer.steps
    ensures r.1.Some? ==> r.1.value.Error?
  {
    match answer
    case NoBackoff => (b, None)
    case BackoffChosen(mode, min, max, steps) =>
      if mode == "none" then (b.(mode := mode), None)
      else match env.parseDuration(min)
        case Fail(e) => (b.(mode := mode), Some(Error(e.message)))
        case Ok(lo) =>
          match env.parseDuration(max)
          case Fail(e) => (b.(mode := mode, min := lo), Some(Error(e.message)))
          case Ok(hi) =>
            if steps < 1 then (b.(mode := mode, min := lo, max := hi), Some(Error(BACKOFF_STEPS_MSG)))
            else (BackoffSettings(mode, steps, lo, hi), None)
  }

  /** The backoff schedule: asked about unless a mode was given or under
      --defaults; computed when a mode is set (its failure is an error), and
      then an unlimited delivery count becomes one more than the length of a
      non-empty schedule. Only the schedule changes in the configuration. */
  function Backoff(f: Flags, cfg: ConsumerConfig, a: Answers, env: Env): (s: Step)
    ensures s.cfg.Ok? ==> s.cfg.value.(backOff := cfg.backOff) == cfg
  {
    var ask := !f.acceptDefaults && f.backoffMode == "";
    var answered := BackoffAnswered(BackoffOf(f), a.backoff, env);
    var g := if ask then WithBackoff(f, answered.0) else f;
    var asked := if ask then [AskBackoff] else [];
    if ask && answered.1.Some? then Step(g, Fail(answered.1.value), asked)
    else if g.backoffMode == "" then Step(g, Ok(cfg), asked)
    else match BackoffPolicy(g.backoffMode, g.backoffSteps, g.backoffMin, g.backoffMax, env)
      case Fail(e) => Step(g, Fail(Error(BACKOFF_FAILED_PREFIX + e.message)), asked)
      case Ok(bo) => Step(WithMaxDeliver(g, if g.maxDeliver == -1 && |bo| > 0 then |bo| + 1 else g.maxDeliver),
                          Ok(WithSchedule(cfg, bo)), asked)
  }

  /** The backoff step changes no flag but the backoff settings and the
      delivery count. */
  lemma BackoffFlagsFrame(f: Flags, cfg: ConsumerConfig, a: Answers, env: Env)
    ensures var g := Backoff(f, cfg, a, env).flags;
      g == f.(backoffMode := g.backoffMode, backoffSteps := g.backoffSteps, backoffMin := g.backoffMin,
              backoffMax := g.backoffMax, maxDeliver := g.maxDeliver)
  {
    var g := Backoff(f, cfg, a, env).flags;
    var ask := !f.acceptDefaults && f.backoffMode == "";
    var b := if ask then BackoffAnswered(BackoffOf(f), a.backoff, env).0 else BackoffOf(f);
    BackoffFlagsCases(f, cfg, a, env);
    BackoffOfWith(f, b);
    var g0 := WithBackoff(f, b);
    assert g == g0 || g == WithMaxDeliver(g0, g.maxDeliver);
    BackoffSettingsFrame(f, b, g.maxDeliver, g);
  }

  lemma BackoffSettingsFrame(f: Flags, b: BackoffSettings, maxDeliver: int, g: Flags)
    requires g == WithMaxDeliver(WithBackoff(f, b), maxDeliver)
    ensures g == f.(backoffMode := g.backoffMode, backoffSteps := g.backoffSteps, backoffMin := g.backoffMin,
                    backoffMax := g.backoffMax, maxDeliver := g.maxDeliver)
  {
  }

  lemma BackoffFlagsCases(f: Flags, cfg: ConsumerConfig, a: Answers, env: Env)
    ensures var g := Backoff(f, cfg, a, env).flags;
      var g0 := if !f.acceptDefaults && f.backoffMode == "" then WithBackoff(f, BackoffAnswered(BackoffOf(f), a.backoff, env).0) else f;
      g == g0 || g == WithMaxDeliver(g0, g.maxDeliver)
  {
  }

  /** The flags with the delivery count replaced. */
  function WithMaxDeliver(f: Flags, maxDeliver: int): Flags {
    f.(maxDeliver := maxDeliver)
  }

  /** The configuration with the backoff schedule replaced. */
  function WithSchedule(cfg: ConsumerConfig, bo: seq<Duration>): ConsumerConfig {
    cfg.(backOff := bo)
  }

  /** The remaining flags: pending acks (unset meaning 0), inactivity
      threshold, the pull request limits when positive, the waiting-pull
      limit of a pull consumer, the delivery count of an acknowledging
      consumer when set, the rate limit (refused for a pull consumer),
      replicas, memory storage and metadata when given. */
  function Limits(f: Flags, cfg: ConsumerConfig): (s: Step)
    ensures s.cfg.Ok? ==>
      s.cfg.value == cfg.(maxAckPending := s.cfg.value.maxAckPending, inactiveThreshold := s.cfg.value.inactiveThreshold,
                          maxRequestBatch := s.cfg.value.maxRequestBatch, maxRequestExpires := s.cfg.value.maxRequestExpires,
                          maxRequestMaxBytes := s.cfg.value.maxRequestMaxBytes, maxWaiting := s.cfg.value.maxWaiting,
                          maxDeliver := s.cfg.value.maxDeliver, rateLimit := s.cfg.value.rateLimit,
                          replicas := s.cfg.value.replicas, memoryStorage := s.cfg.value.memoryStorage,
                          metadata := s.cfg.value.metadata)
  {
    var pending := if f.maxAckPending == -1 then 0 else f.maxAckPending;
    var g := f.(maxAckPending := pending);
    if f.bpsRateLimit > 0 && cfg.deliverSubject == "" then Step(g, Fail(Error(PULL_RATE_LIMIT_MSG)), [])
    else
      Step(g, Ok(cfg.(maxAckPending := pending, inactiveThreshold := f.inactiveThreshold,
                      maxRequestBatch := (if f.maxPullBatch > 0 then f.maxPullBatch else cfg.maxRequestBatch),
                      maxRequestExpires := (if f.maxPullExpire > 0 then f.maxPullExpire else cfg.maxRequestExpires),
                      maxRequestMaxBytes := (if f.maxPullBytes > 0 then f.maxPullBytes else cfg.maxRequestMaxBytes),
                      maxWaiting := (if cfg.deliverSubject == "" then f.maxWaiting else cfg.maxWaiting),
                      maxDeliver := (if f.maxDeliver != 0 && cfg.ackPolicy != AckNone then f.maxDeliver else cfg.maxDeliver),
                      rateLimit := f.bpsRateLimit, replicas := f.replicas, memoryStorage := f.memory,
                      metadata := (if f.metadataIsSet then f.metadata else cfg.metadata))), [])
  }

  /** The last steps: the backoff schedule, then the remaining limits. */
  function Finish(f: Flags, cfg: ConsumerConfig, a: Answers, env: Env): Step {
    var s9 := Backoff(f, cfg, a, env);
    if s9.cfg.Fail? then s9 else Then(s9, Limits(s9.flags, s9.cfg.value))
  }

  /** Filter subjects, delivery limits, heartbeat, flow control and
      headers-only delivery, then the last steps. */
  function Deliver(f: Flags, cfg: ConsumerConfig, a: Answers, env: Env): Step {
    var s5 := Filters(f, cfg, a);
    var s6 := Then(s5, DeliveryLimits(s5.flags, s5.cfg.value, a));
    var s7 := Then(s6, Heartbeat(s6.flags, s6.cfg.value, a, env));
    if s7.cfg.Fail? then s7
    else
      var s8 := Then(s7, FlowAndHeaders(s7.flags, s7.cfg.value, a));
      Then(s8, Finish(s8.flags, s8.cfg.value, a, env))
  }

  /** Delivery group, start policy, acknowledgement and replay policies and
      the policy flags, then the delivery steps. */
  function Configure(f: Flags, cfg: ConsumerConfig, a: Answers, env: Env): Step {
    var s2 := GroupAndStart(f, cfg, a, env);
    if s2.cfg.Fail? then s2
    else
      var s3 := Then(s2, AckAndReplay(s2.flags, s2.cfg.value, a));
      var c4 := PolicyFlags(s3.flags, s2.cfg.value);
      if c4.Fail? then Step(s3.flags, c4, s3.asked)
      else Then(s3, Deliver(s3.flags, c4.value, a, env))
  }

  /** The configuration built from flags: name and target, the --defaults
      block when asked for, then the remaining steps. */
  function FromFlags(f: Flags, a: Answers, env: Env): Step {
    var s1 := NameAndTarget(f, a);
    if s1.cfg.Fail? then s1
    else Then(s1, Configure(if f.acceptDefaults then Defaults(s1.flags) else s1.flags, s1.cfg.value, a, env))
  }

  /** prepareConfig: from a file, the file's configuration and nothing
      asked; otherwise the configuration built from flags. */
  function Prepared(f: Flags, file: Result<ConsumerConfig>, a: Answers, env: Env): Step {
    if f.inputFile != "" then Step(f, FromFile(f, file), []) else FromFlags(f, a, env)
  }

  /** Every flag a prompt of prepareConfig would ask about is given, as the
      --defaults block leaves them (flow control only matters for a push
      consumer). */
  predicate NothingToAsk(f: Flags, push: bool) {
    && f.acceptDefaults && f.deliveryGroup != UNSET_GROUP && f.startPolicy != "" && f.ackPolicy != ""
    && f.replayPolicy != "" && f.maxDeliver != 0 && f.maxAckPending != -1 && f.idleHeartbeat != "" && f.hdrsOnlySet
    && (push ==> f.fcSet)
  }

  /** With every flag given, no step asks anything and the flags stay given. */
  lemma GroupAndStartAsksNothing(f: Flags, cfg: ConsumerConfig, a: Answers, env: Env)
    requires NothingToAsk(f, cfg.deliverSubject != "")
    ensures |GroupAndStart(f, cfg, a, env).asked| == 0 && NothingToAsk(GroupAndStart(f, cfg, a, env).flags, cfg.deliverSubject != "")
  {
  }

  lemma AckAndReplayAsksNothing(f: Flags, cfg: ConsumerConfig, a: Answers)
    requires NothingToAsk(f, cfg.deliverSubject != "")
    ensures |AckAndReplay(f, cfg, a).asked| == 0 && AckAndReplay(f, cfg, a).flags == f
  {
  }

  lemma FiltersAsksNothing(f: Flags, cfg: ConsumerConfig, a: Answers)
    requires NothingToAsk(f, cfg.deliverSubject != "")
    ensures |Filters(f, cfg, a).asked| == 0 && NothingToAsk(Filters(f, cfg, a).flags, cfg.deliverSubject != "")
  {
  }

  lemma DeliveryLimitsAsksNothing(f: Flags, cfg: ConsumerConfig, a: Answers)
    requires NothingToAsk(f, cfg.deliverSubject != "")
    ensures |DeliveryLimits(f, cfg, a).asked| == 0 && DeliveryLimits(f, cfg, a).flags == f
  {
  }

  lemma HeartbeatAsksNothing(f: Flags, cfg: ConsumerConfig, a: Answers, env: Env)
    requires NothingToAsk(f, cfg.deliverSubject != "")
    ensures |Heartbeat(f, cfg, a, env).asked| == 0 && Heartbeat(f, cfg, a, env).flags == f
  {
  }

  lemma FlowAndHeadersAsksNothing(f: Flags, cfg: ConsumerConfig, a: Answers)
    requires NothingToAsk(f, cfg.deliverSubject != "")
    ensures |FlowAndHeaders(f, cfg, a).asked| == 0 && NothingToAsk(FlowAndHeaders(f, cfg, a).flags, cfg.deliverSubject != "")
  {
  }

  /** The last steps change only the schedule and the limits. */
  lemma FinishFrame(f: Flags, cfg: ConsumerConfig, a: Answers, env: Env)
    ensures var r := Finish(f, cfg, a, env).cfg;
      r.Ok? ==> r.value.(backOff := cfg.backOff, maxAckPending := cfg.maxAckPending, inactiveThreshold := cfg.inactiveThreshold,
                         maxRequestBatch := cfg.maxRequestBatch, maxRequestExpires := cfg.maxRequestExpires,
                         maxRequestMaxBytes := cfg.maxRequestMaxBytes, maxWaiting := cfg.maxWaiting,
                         maxDeliver := cfg.maxDeliver, rateLimit := cfg.rateLimit, replicas := cfg.replicas,
                         memoryStorage := cfg.memoryStorage, metadata := cfg.metadata) == cfg
  {
  }

  /** After the last steps the rate limit is the flag's and never set on a
      pull consumer, an unset pending-ack limit is 0, and only a pull
      consumer takes the waiting-pull limit. */
  lemma FinishLimits(f: Flags, cfg: ConsumerConfig, a: Answers, env: Env)
    ensures var r := Finish(f, cfg, a, env).cfg;
      r.Ok? ==> r.value.rateLimit == f.bpsRateLimit && (f.bpsRateLimit > 0 ==> cfg.deliverSubject != "")
    ensures var r := Finish(f, cfg, a, env).cfg;
      r.Ok? ==> r.value.maxAckPending == (if f.maxAckPending == -1 then 0 else f.maxAckPending)
    ensures var r := Finish(f, cfg, a, env).cfg;
      r.Ok? ==> r.value.maxWaiting == (if cfg.deliverSubject == "" then f.maxWaiting else cfg.maxWaiting)
  {
    BackoffFlagsFrame(f, cfg, a, env);
  }

  /** A consumer without acknowledgement keeps its delivery count; an
      unlimited delivery count grows to one more than a non-empty schedule
      made here. */
  lemma FinishDeliveries(f: Flags, cfg: ConsumerConfig, a: Answers, env: Env)
    ensures var r := Finish(f, cfg, a, env).cfg;
      r.Ok? && cfg.ackPolicy == AckNone ==> r.value.maxDeliver == cfg.maxDeliver
    ensures var r := Finish(f, cfg, a, env).cfg;
      r.Ok? && cfg.ackPolicy != AckNone && f.maxDeliver == -1 && |cfg.backOff| == 0 && |r.value.backOff| > 0 ==>
        r.value.maxDeliver == |r.value.backOff| + 1
  {
  }

  /** Only the backoff question may be asked, and not under --defaults. */
  lemma FinishAsked(f: Flags, cfg: ConsumerConfig, a: Answers, env: Env)
    ensures Finish(f, cfg, a, env).asked == (if !f.acceptDefaults && f.backoffMode == "" then [AskBackoff] else [])
  {
  }

  /** The delivery steps change only the filter, heartbeat, flow-control
      and headers-only fields, and what the last steps change. */
  lemma DeliverFrame(f: Flags, cfg: ConsumerConfig, a: Answers, env: Env)
    ensures var r := Deliver(f, cfg, a, env).cfg;
      r.Ok? ==> r.value.(filterSubject := cfg.filterSubject, filterSubjects := cfg.filterSubjects, heartbeat := cfg.heartbeat,
                         flowControl := cfg.flowControl, headersOnly := cfg.headersOnly,
                         backOff := cfg.backOff, maxAckPending := cfg.maxAckPending, inactiveThreshold := cfg.inactiveThreshold,
                         maxRequestBatch := cfg.maxRequestBatch, maxRequestExpires := cfg.maxRequestExpires,
                         maxRequestMaxBytes := cfg.maxRequestMaxBytes, maxWaiting := cfg.maxWaiting,
                         maxDeliver := cfg.maxDeliver, rateLimit := cfg.rateLimit, replicas := cfg.replicas,
                         memoryStorage := cfg.memoryStorage, metadata := cfg.metadata) == cfg
  {
    var s5 := Filters(f, cfg, a);
    var s6 := Then(s5, DeliveryLimits(s5.flags, s5.cfg.value, a));
    var s7 := Then(s6, Heartbeat(s6.flags, s6.cfg.value, a, env));
    if s7.cfg.Ok? {
      var s8 := Then(s7, FlowAndHeaders(s7.flags, s7.cfg.value, a));
      FinishFrame(s8.flags, s8.cfg.value, a, env);
    }
  }

  /** After the delivery steps the rate limit is the flag's and never set on
      a pull consumer, the pending-ack limit is never the unset -1 and a
      given one is kept, and only a pull consumer takes the waiting-pull
      limit. */
  lemma DeliverLimits(f: Flags, cfg: ConsumerConfig, a: Answers, env: Env)
    ensures var r := Deliver(f, cfg, a, env).cfg;
      r.Ok? ==> r.value.rateLimit == f.bpsRateLimit && (f.bpsRateLimit > 0 ==> cfg.deliverSubject != "")
    ensures var r := Deliver(f, cfg, a, env).cfg;
      r.Ok? ==> r.value.maxAckPending != -1 && (f.maxAckPending != -1 ==> r.value.maxAckPending == f.maxAckPending)
    ensures var r := Deliver(f, cfg, a, env).cfg;
      r.Ok? ==> r.value.maxWaiting == (if cfg.deliverSubject == "" then f.maxWaiting else cfg.maxWaiting)
  {
    var s5 := Filters(f, cfg, a);
    var s6 := Then(s5, DeliveryLimits(s5.flags, s5.cfg.value, a));
    var s7 := Then(s6, Heartbeat(s6.flags, s6.cfg.value, a, env));
    if s7.cfg.Ok? {
      var s8 := Then(s7, FlowAndHeaders(s7.flags, s7.cfg.value, a));
      FinishLimits(s8.flags, s8.cfg.value, a, env);
    }
  }

  /** A consumer without acknowledgement keeps its delivery count; an
      unlimited delivery count, given as -1 or answered -1 at the
      max-deliveries prompt, grows to one more than a non-empty schedule. */
  lemma DeliverDeliveries(f: Flags, cfg: ConsumerConfig, a: Answers, env: Env)
    ensures var r := Deliver(f, cfg, a, env).cfg;
      r.Ok? && cfg.ackPolicy == AckNone ==> r.value.maxDeliver == cfg.maxDeliver
    ensures var r := Deliver(f, cfg, a, env).cfg;
      (&& r.Ok? && cfg.ackPolicy != AckNone && |cfg.backOff| == 0 && |r.value.backOff| > 0
       && (f.maxDeliver == -1 || (f.maxDeliver == 0 && a.maxDeliver == -1))) ==>
        r.value.maxDeliver == |r.value.backOff| + 1
  {
    var s5 := Filters(f, cfg, a);
    var s6 := Then(s5, DeliveryLimits(s5.flags, s5.cfg.value, a));
    var s7 := Then(s6, Heartbeat(s6.flags, s6.cfg.value, a, env));
    if s7.cfg.Ok? {
      var s8 := Then(s7, FlowAndHeaders(s7.flags, s7.cfg.value, a));
      FinishDeliveries(s8.flags, s8.cfg.value, a, env);
    }
  }

  /** Starting without filters, the delivery steps derive the filter fields
      from the subjects used. */
  lemma DeliverFilters(f: Flags, cfg: ConsumerConfig, a: Answers, env: Env)
    ensures var r := Deliver(f, cfg, a, env).cfg;
      r.Ok? && cfg.filterSubject == "" && |cfg.filterSubjects| == 0 ==> FiltersFrom(FilterSubjectsUsed(f, a), r.value)
  {
    var s5 := Filters(f, cfg, a);
    var s6 := Then(s5, DeliveryLimits(s5.flags, s5.cfg.value, a));
    var s7 := Then(s6, Heartbeat(s6.flags, s6.cfg.value, a, env));
    if s7.cfg.Ok? && cfg.filterSubject == "" && |cfg.filterSubjects| == 0 {
      var s8 := Then(s7, FlowAndHeaders(s7.flags, s7.cfg.value, a));
      FinishFrame(s8.flags, s8.cfg.value, a, env);
      var r := Then(s8, Finish(s8.flags, s8.cfg.value, a, env)).cfg;
      assert r == Deliver(f, cfg, a, env).cfg;
      if r.Ok? {
        FiltersFromKept(FilterSubjectsUsed(f, a), s5.cfg.value, r.value);
      }
    }
  }

  /** A pull consumer keeps its heartbeat and flow control through the
      delivery steps. */
  lemma DeliverPull(f: Flags, cfg: ConsumerConfig, a: Answers, env: Env)
    ensures var r := Deliver(f, cfg, a, env).cfg;
      r.Ok? && cfg.deliverSubject == "" ==> r.value.heartbeat == cfg.heartbeat && r.value.flowControl == cfg.flowControl
  {
    var s5 := Filters(f, cfg, a);
    var s6 := Then(s5, DeliveryLimits(s5.flags, s5.cfg.value, a));
    var s7 := Then(s6, Heartbeat(s6.flags, s6.cfg.value, a, env));
    if s7.cfg.Ok? {
      var s8 := Then(s7, FlowAndHeaders(s7.flags, s7.cfg.value, a));
      FinishFrame(s8.flags, s8.cfg.value, a, env);
    }
  }

  /** With every flag given, the delivery steps ask nothing. */
  lemma DeliverAsksNothing(f: Flags, cfg: ConsumerConfig, a: Answers, env: Env)
    requires NothingToAsk(f, cfg.deliverSubject != "")
    ensures |Deliver(f, cfg, a, env).asked| == 0
  {
    var s5 := Filters(f, cfg, a);
    FiltersAsksNothing(f, cfg, a);
    var s6 := Then(s5, DeliveryLimits(s5.flags, s5.cfg.value, a));
    DeliveryLimitsAsksNothing(s5.flags, s5.cfg.value, a);
    var s7 := Then(s6, Heartbeat(s6.flags, s6.cfg.value, a, env));
    HeartbeatAsksNothing(s6.flags, s6.cfg.value, a, env);
    if s7.cfg.Ok? {
      var s8 := Then(s7, FlowAndHeaders(s7.flags, s7.cfg.value, a));
      FlowAndHeadersAsksNothing(s7.flags, s7.cfg.value, a);
      FinishAsked(s8.flags, s8.cfg.value, a, env);
    }
  }

  /** The configuring steps keep the name, the durable name, the
      description and the delivery subject. */
  lemma ConfigureFrame(f: Flags, cfg: ConsumerConfig, a: Answers, env: Env)
    ensures var r := Configure(f, cfg, a, env).cfg;
      r.Ok? ==> && r.value.name == cfg.name && r.value.durable == cfg.durable
                && r.value.description == cfg.description && r.value.deliverSubject == cfg.deliverSubject
  {
    var s2 := GroupAndStart(f, cfg, a, env);
    if s2.cfg.Ok? {
      GroupAndStartFrame(f, cfg, a, env);
      var s3 := Then(s2, AckAndReplay(s2.flags, s2.cfg.value, a));
      var c4 := PolicyFlags(s3.flags, s2.cfg.value);
      if c4.Ok? {
        DeliverFrame(s3.flags, c4.value, a, env);
      }
    }
  }

  /** The acknowledgement policy is the one the flag or the answer names;
      a pull consumer never ends without acknowledgement, and a consumer
      without acknowledgement has unlimited deliveries (-1). */
  lemma ConfigureAck(f: Flags, cfg: ConsumerConfig, a: Answers, env: Env)
    ensures var r := Configure(f, cfg, a, env).cfg;
      r.Ok? ==> Ok(r.value.ackPolicy) == AckPolicyFromString(OrDefault(f.ackPolicy, AckWord(a.ackPolicy)))
    ensures var r := Configure(f, cfg, a, env).cfg;
      r.Ok? ==> !(r.value.ackPolicy == AckNone && cfg.deliverSubject == "")
    ensures var r := Configure(f, cfg, a, env).cfg;
      r.Ok? && r.value.ackPolicy == AckNone ==> r.value.maxDeliver == -1
  {
    var s2 := GroupAndStart(f, cfg, a, env);
    if s2.cfg.Ok? {
      GroupAndStartFrame(f, cfg, a, env);
      var s3 := Then(s2, AckAndReplay(s2.flags, s2.cfg.value, a));
      var c4 := PolicyFlags(s3.flags, s2.cfg.value);
      PolicyFlagsAck(s3.flags, s2.cfg.value);
      if c4.Ok? {
        DeliverFrame(s3.flags, c4.value, a, env);
        DeliverDeliveries(s3.flags, c4.value, a, env);
      }
    }
  }

  /** The sample percentage is at most 100 and, when positive, sampled
      as its decimal string; a positive ack wait is taken. */
  lemma ConfigureSampleAndWait(f: Flags, cfg: ConsumerConfig, a: Answers, env: Env)
    ensures var r := Configure(f, cfg, a, env).cfg;
      r.Ok? ==> f.samplePct <= 100
    ensures var r := Configure(f, cfg, a, env).cfg;
      r.Ok? ==>
        r.value.sampleFrequency == (if f.samplePct > 0 then DecimalString(f.samplePct) else cfg.sampleFrequency)
    ensures var r := Configure(f, cfg, a, env).cfg;
      r.Ok? ==> r.value.ackWait == (if f.ackWait > 0 then f.ackWait else cfg.ackWait)
  {
    var s2 := GroupAndStart(f, cfg, a, env);
    if s2.cfg.Ok? {
      GroupAndStartFrame(f, cfg, a, env);
      var s3 := Then(s2, AckAndReplay(s2.flags, s2.cfg.value, a));
      var c4 := PolicyFlags(s3.flags, s2.cfg.value);
      PolicyFlagsValues(s3.flags, s2.cfg.value);
      if c4.Ok? {
        DeliverFrame(s3.flags, c4.value, a, env);
      }
    }
  }

  /** The limits of the delivery steps, for the flags as given. */
  lemma ConfigureLimits(f: Flags, cfg: ConsumerConfig, a: Answers, env: Env)
    ensures var r := Configure(f, cfg, a, env).cfg;
      r.Ok? ==> r.value.rateLimit == f.bpsRateLimit && (f.bpsRateLimit > 0 ==> cfg.deliverSubject != "")
    ensures var r := Configure(f, cfg, a, env).cfg;
      r.Ok? ==> r.value.maxAckPending != -1 && (f.maxAckPending != -1 ==> r.value.maxAckPending == f.maxAckPending)
    ensures var r := Configure(f, cfg, a, env).cfg;
      r.Ok? ==> r.value.maxWaiting == (if cfg.deliverSubject == "" then f.maxWaiting else cfg.maxWaiting)
  {
    var s2 := GroupAndStart(f, cfg, a, env);
    if s2.cfg.Ok? {
      GroupAndStartFrame(f, cfg, a, env);
      var s3 := Then(s2, AckAndReplay(s2.flags, s2.cfg.value, a));
      var c4 := PolicyFlags(s3.flags, s2.cfg.value);
      if c4.Ok? {
        DeliverLimits(s3.flags, c4.value, a, env);
      }
    }
  }

  /** An unlimited delivery count of an acknowledging consumer, given as
      -1 or answered -1 at the max-deliveries prompt, grows to one more than
      a non-empty schedule. */
  lemma ConfigureDeliveries(f: Flags, cfg: ConsumerConfig, a: Answers, env: Env)
    ensures var r := Configure(f, cfg, a, env).cfg;
      (&& r.Ok? && r.value.ackPolicy != AckNone && |cfg.backOff| == 0 && |r.value.backOff| > 0
       && (f.maxDeliver == -1 || (f.maxDeliver == 0 && a.maxDeliver == -1))) ==>
        r.value.maxDeliver == |r.value.backOff| + 1
  {
    var s2 := GroupAndStart(f, cfg, a, env);
    if s2.cfg.Ok? {
      GroupAndStartFrame(f, cfg, a, env);
      var s3 := Then(s2, AckAndReplay(s2.flags, s2.cfg.value, a));
      var c4 := PolicyFlags(s3.flags, s2.cfg.value);
      if c4.Ok? {
        DeliverFrame(s3.flags, c4.value, a, env);
        DeliverDeliveries(s3.flags, c4.value, a, env);
      }
    }
  }

  /** Starting without filters, the filter fields come from the subjects
      used; a pull consumer keeps its heartbeat and flow control. */
  lemma ConfigureFiltersAndPull(f: Flags, cfg: ConsumerConfig, a: Answers, env: Env)
    ensures var r := Configure(f, cfg, a, env).cfg;
      r.Ok? && cfg.filterSubject == "" && |cfg.filterSubjects| == 0 ==> FiltersFrom(FilterSubjectsUsed(f, a), r.value)
    ensures var r := Configure(f, cfg, a, env).cfg;
      r.Ok? && cfg.deliverSubject == "" ==> r.value.heartbeat == cfg.heartbeat && r.value.flowControl == cfg.flowControl
  {
    var s2 := GroupAndStart(f, cfg, a, env);
    if s2.cfg.Ok? {
      GroupAndStartFrame(f, cfg, a, env);
      var s3 := Then(s2, AckAndReplay(s2.flags, s2.cfg.value, a));
      var c4 := PolicyFlags(s3.flags, s2.cfg.value);
      if c4.Ok? {
        DeliverFilters(s3.flags, c4.value, a, env);
        DeliverPull(s3.flags, c4.value, a, env);
      }
    }
  }

  /** The delivery group is never the unset sentinel: a given group is
      kept, a push consumer without one takes the answer to its prompt, and
      a pull consumer without one has none. */
  lemma ConfigureGroup(f: Flags, cfg: ConsumerConfig, a: Answers, env: Env)
    ensures var r := Configure(f, cfg, a, env).cfg;
      r.Ok? ==> r.value.deliverGroup != UNSET_GROUP
    ensures var r := Configure(f, cfg, a, env).cfg;
      r.Ok? && f.deliveryGroup != UNSET_GROUP ==> r.value.deliverGroup == f.deliveryGroup
    ensures var r := Configure(f, cfg, a, env).cfg;
      r.Ok? && f.deliveryGroup == UNSET_GROUP && cfg.deliverSubject != "" && a.group != UNSET_GROUP ==>
        r.value.deliverGroup == a.group
    ensures var r := Configure(f, cfg, a, env).cfg;
      r.Ok? && f.deliveryGroup == UNSET_GROUP && cfg.deliverSubject == "" ==> r.value.deliverGroup == ""
  {
    var s2 := GroupAndStart(f, cfg, a, env);
    if s2.cfg.Ok? {
      GroupAndStartFrame(f, cfg, a, env);
      var s3 := Then(s2, AckAndReplay(s2.flags, s2.cfg.value, a));
      var c4 := PolicyFlags(s3.flags, s2.cfg.value);
      if c4.Ok? {
        DeliverFrame(s3.flags, c4.value, a, env);
      }
    }
  }

  /** With every flag given, the configuring steps ask nothing. */
  lemma ConfigureAsksNothing(f: Flags, cfg: ConsumerConfig, a: Answers, env: Env)
    requires NothingToAsk(f, cfg.deliverSubject != "")
    ensures |Configure(f, cfg, a, env).asked| == 0
  {
    var s2 := GroupAndStart(f, cfg, a, env);
    GroupAndStartAsksNothing(f, cfg, a, env);
    if s2.cfg.Ok? {
      var s3 := Then(s2, AckAndReplay(s2.flags, s2.cfg.value, a));
      AckAndReplayAsksNothing(s2.flags, s2.cfg.value, a);
      var c4 := PolicyFlags(s3.flags, s2.cfg.value);
      if c4.Ok? {
        DeliverAsksNothing(s3.flags, c4.value, a, env);
      }
    }
  }

  /** A configuration built from flags never takes a durable name holding
      '.', '*' or '>': such a name, given or answered, is fatal before
      anything else is asked. */
  lemma PreparedRefusesReservedName(f: Flags, file: Result<ConsumerConfig>, a: Answers, env: Env)
    requires f.inputFile == ""
    ensures HasReservedChar(NameUsed(f, a)) ==>
      Prepared(f, file, a, env).cfg == Fail(Fatal(DURABLE_NAME_MSG)) && Prepared(f, file, a, env).asked == NameAndTarget(f, a).asked
    ensures Prepared(f, file, a, env).cfg.Ok? ==> !HasReservedChar(Prepared(f, file, a, env).cfg.value.durable)
  {
    var s1 := NameAndTarget(f, a);
    if s1.cfg.Ok? {
      var g := if f.acceptDefaults then Defaults(s1.flags) else s1.flags;
      ConfigureFrame(g, s1.cfg.value, a, env);
    }
  }

  /** The configuration built from flags carries the name and target used
      and the description, and no stream-assigned name. */
  lemma PreparedIdentity(f: Flags, file: Result<ConsumerConfig>, a: Answers, env: Env)
    requires f.inputFile == ""
    ensures var r := Prepared(f, file, a, env).cfg;
      r.Ok? ==> r.value.durable == NameUsed(f, a) && r.value.deliverSubject == TargetUsed(f, a)
    ensures var r := Prepared(f, file, a, env).cfg;
      r.Ok? ==> r.value.description == f.description && r.value.name == ""
  {
    var s1 := NameAndTarget(f, a);
    if s1.cfg.Ok? {
      var g := if f.acceptDefaults then Defaults(s1.flags) else s1.flags;
      ConfigureFrame(g, s1.cfg.value, a, env);
    }
  }

  /** A pull consumer is never without acknowledgement, and a consumer
      without acknowledgement has unlimited deliveries (-1). */
  lemma PreparedAckPolicy(f: Flags, file: Result<ConsumerConfig>, a: Answers, env: Env)
    requires f.inputFile == ""
    ensures var r := Prepared(f, file, a, env).cfg;
      r.Ok? ==> !(r.value.ackPolicy == AckNone && r.value.deliverSubject == "")
    ensures var r := Prepared(f, file, a, env).cfg;
      r.Ok? && r.value.ackPolicy == AckNone ==> r.value.maxDeliver == -1
  {
    var s1 := NameAndTarget(f, a);
    if s1.cfg.Ok? {
      var g := if f.acceptDefaults then Defaults(s1.flags) else s1.flags;
      ConfigureFrame(g, s1.cfg.value, a, env);
      ConfigureAck(g, s1.cfg.value, a, env);
    }
  }

  /** Under --defaults an unset acknowledgement policy is explicit for a
      pull consumer or when --pull is given, and none for a push consumer. */
  lemma PreparedDefaultAckPolicy(f: Flags, file: Result<ConsumerConfig>, a: Answers, env: Env)
    requires f.inputFile == ""
    ensures var r := Prepared(f, file, a, env).cfg;
      r.Ok? && f.acceptDefaults && f.ackPolicy == "" ==>
        r.value.ackPolicy == (if f.pull || r.value.deliverSubject == "" then AckExplicit else AckNone)
  {
    var s1 := NameAndTarget(f, a);
    if s1.cfg.Ok? {
      var g := if f.acceptDefaults then Defaults(s1.flags) else s1.flags;
      PolicyWordsRoundTrip(AckExplicit, ReplayInstant);
      PolicyWordsRoundTrip(AckNone, ReplayInstant);
      ConfigureFrame(g, s1.cfg.value, a, env);
      ConfigureAck(g, s1.cfg.value, a, env);
    }
  }

  /** The rate limit is the flag's and a pull consumer never has one; the
      pending-ack limit is never the unset -1 and a given one is kept. */
  lemma PreparedLimits(f: Flags, file: Result<ConsumerConfig>, a: Answers, env: Env)
    requires f.inputFile == ""
    ensures var r := Prepared(f, file, a, env).cfg;
      r.Ok? ==> r.value.rateLimit == f.bpsRateLimit && (f.bpsRateLimit > 0 ==> r.value.deliverSubject != "")
    ensures var r := Prepared(f, file, a, env).cfg;
      r.Ok? ==> r.value.maxAckPending != -1 && (f.maxAckPending != -1 ==> r.value.maxAckPending == f.maxAckPending)
  {
    var s1 := NameAndTarget(f, a);
    if s1.cfg.Ok? {
      var g := if f.acceptDefaults then Defaults(s1.flags) else s1.flags;
      ConfigureFrame(g, s1.cfg.value, a, env);
      ConfigureLimits(g, s1.cfg.value, a, env);
    }
  }

  /** An acknowledging consumer whose delivery count was unlimited (-1,
      unset under --defaults, or answered -1 at the max-deliveries prompt) and that has a backoff schedule may be
      delivered one more time than the schedule is long. */
  lemma PreparedBackoffDeliveries(f: Flags, file: Result<ConsumerConfig>, a: Answers, env: Env)
    requires f.inputFile == ""
    ensures var r := Prepared(f, file, a, env).cfg;
      (&& r.Ok? && r.value.ackPolicy != AckNone && |r.value.backOff| > 0
         && (f.maxDeliver == -1 || (f.maxDeliver == 0 && (f.acceptDefaults || a.maxDeliver == -1)))) ==>
        r.value.maxDeliver == |r.value.backOff| + 1
  {
    var s1 := NameAndTarget(f, a);
    if s1.cfg.Ok? {
      var g := if f.acceptDefaults then Defaults(s1.flags) else s1.flags;
      ConfigureDeliveries(g, s1.cfg.value, a, env);
    }
  }

  /** The filter fields come from the subjects used, so at most one of them
      is set, and ">" is filtered on without a subject only for "last per
      subject" delivery. */
  lemma PreparedFilters(f: Flags, file: Result<ConsumerConfig>, a: Answers, env: Env)
    requires f.inputFile == ""
    ensures var r := Prepared(f, file, a, env).cfg;
      r.Ok? ==> FiltersFrom(FilterSubjectsUsed(f, a), r.value)
    ensures var r := Prepared(f, file, a, env).cfg;
      r.Ok? ==> r.value.filterSubject == "" || |r.value.filterSubjects| == 0
  {
    var s1 := NameAndTarget(f, a);
    if s1.cfg.Ok? {
      var g := if f.acceptDefaults then Defaults(s1.flags) else s1.flags;
      ConfigureFiltersAndPull(g, s1.cfg.value, a, env);
    }
  }

  /** Only a pull consumer takes the waiting-pull limit; a pull consumer
      has no heartbeat, flow control or rate limit, and a push consumer no
      waiting-pull limit. */
  lemma PreparedPullAndPush(f: Flags, file: Result<ConsumerConfig>, a: Answers, env: Env)
    requires f.inputFile == ""
    ensures var r := Prepared(f, file, a, env).cfg;
      r.Ok? && r.value.deliverSubject == "" ==>
        r.value.maxWaiting == f.maxWaiting && r.value.heartbeat == 0 && !r.value.flowControl && r.value.rateLimit == 0
    ensures var r := Prepared(f, file, a, env).cfg;
      r.Ok? && r.value.deliverSubject != "" ==> r.value.maxWaiting == 0
  {
    var s1 := NameAndTarget(f, a);
    if s1.cfg.Ok? {
      var g := if f.acceptDefaults then Defaults(s1.flags) else s1.flags;
      ConfigureFrame(g, s1.cfg.value, a, env);
      ConfigureLimits(g, s1.cfg.value, a, env);
      ConfigureFiltersAndPull(g, s1.cfg.value, a, env);
    }
  }

  /** The delivery group never reaches the configuration as the unset
      sentinel, and a given group is kept. */
  lemma PreparedGroup(f: Flags, file: Result<ConsumerConfig>, a: Answers, env: Env)
    requires f.inputFile == ""
    ensures var r := Prepared(f, file, a, env).cfg;
      r.Ok? ==> r.value.deliverGroup != UNSET_GROUP
    ensures var r := Prepared(f, file, a, env).cfg;
      r.Ok? && f.deliveryGroup != UNSET_GROUP ==> r.value.deliverGroup == f.deliveryGroup
  {
    var s1 := NameAndTarget(f, a);
    if s1.cfg.Ok? {
      var g := if f.acceptDefaults then Defaults(s1.flags) else s1.flags;
      ConfigureGroup(g, s1.cfg.value, a, env);
    }
  }

  /** The sample percentage is at most 100 and sampled when positive; the
      ack wait is the flag's when positive and unset otherwise. */
  lemma PreparedSampleAndWait(f: Flags, file: Result<ConsumerConfig>, a: Answers, env: Env)
    requires f.inputFile == ""
    ensures var r := Prepared(f, file, a, env).cfg;
      r.Ok? ==> f.samplePct <= 100 && r.value.sampleFrequency == (if f.samplePct > 0 then DecimalString(f.samplePct) else "")
    ensures var r := Prepared(f, file, a, env).cfg;
      r.Ok? ==> r.value.ackWait == (if f.ackWait > 0 then f.ackWait else 0)
  {
    var s1 := NameAndTarget(f, a);
    if s1.cfg.Ok? {
      var g := if f.acceptDefaults then Defaults(s1.flags) else s1.flags;
      ConfigureSampleAndWait(g, s1.cfg.value, a, env);
    }
  }

  /** Under --defaults only the name and the target may be asked. */
  lemma PreparedDefaultsAskOnlyNameAndTarget(f: Flags, file: Result<ConsumerConfig>, a: Answers, env: Env)
    requires f.inputFile == "" && f.acceptDefaults
    ensures Prepared(f, file, a, env).asked == NameAndTarget(f, a).asked
    ensures forall p | p in Prepared(f, file, a, env).asked :: p == AskName || p == AskTarget
  {
    var s1 := NameAndTarget(f, a);
    if s1.cfg.Ok? {
      ConfigureAsksNothing(Defaults(s1.flags), s1.cfg.value, a, env);
    }
  }

}
