/** What `nats consumer copy` (cpAction in cli/consumer_command.go) makes of
    the source consumer's configuration: a copy with every given flag
    applied over it, the durable name replaced, and the delivery group and
    push-only settings cleared where the copy cannot use them. */
module Copy {
  import opened Types
  import opened Policies
  import opened Reconcile
  import opened CommandFlags

  const HEARTBEAT_INVALID_PREFIX := "Invalid heartbeat duration: "

  /** The heartbeat flag of a copy: "" and "-" leave the heartbeat alone,
      any other value must parse as a duration. */
  function CopyHeartbeat(flag: string, current: Duration, env: Env): (r: Result<Duration>)
    ensures flag == "" || flag == "-" ==> r == Ok(current)
    ensures flag != "" && flag != "-" ==>
      (r.Ok? <==> env.parseDuration(flag).Ok?) && (r.Ok? ==> r.value == env.parseDuration(flag).value)
    ensures r.Fail? ==> r.failure.Fatal?
  {
    if flag == "" || flag == "-" then Ok(current)
    else match env.parseDuration(flag)
      case Ok(d) => Ok(d)
      case Fail(e) => Fail(Fatal(HEARTBEAT_INVALID_PREFIX + e.message))
  }

  /** The backoff flags of a copy: no mode leaves the schedule alone; a mode
      computes a new one, whose failure is an error. */
  function CopyBackoff(f: Flags, current: seq<Duration>, env: Env): (r: Result<seq<Duration>>)
    ensures f.backoffMode == "" ==> r == Ok(current)
    ensures f.backoffMode != "" ==>
      (r.Ok? <==> BackoffPolicy(f.backoffMode, f.backoffSteps, f.backoffMin, f.backoffMax, env).Ok?)
    ensures f.backoffMode != "" && r.Ok? ==> r == BackoffPolicy(f.backoffMode, f.backoffSteps, f.backoffMin, f.backoffMax, env)
    ensures r.Fail? ==> r.failure.Error?
  {
    if f.backoffMode == "" then Ok(current)
    else match BackoffPolicy(f.backoffMode, f.backoffSteps, f.backoffMin, f.backoffMax, env)
      case Ok(bo) => Ok(bo)
      case Fail(e) => Fail(Error(BACKOFF_FAILED_PREFIX + e.message))
  }

  /** The delivery group of a copy: the given group, but none when no
      target is given or the group flag is unset. */
  function CopyGroup(f: Flags): string {
    if f.delivery == "" || f.deliveryGroup == UNSET_GROUP then "" else f.deliveryGroup
  }

  /** The sample flag of a copy: -1 leaves the frequency alone. */
  function CopySample(f: Flags, src: ConsumerConfig): Result<string> {
    if f.samplePct != -1 then SampleFreqFromInt(f.samplePct) else Ok(src.sampleFrequency)
  }

  /** The start-policy flag of a copy: "" leaves the start alone. */
  function CopyStart(f: Flags, src: ConsumerConfig, env: Env): Result<ConsumerConfig> {
    if f.startPolicy != "" then WithStartPolicy(src, f.startPolicy, env) else Ok(src)
  }

  /** The acknowledgement-policy flag of a copy: "" leaves the policy alone. */
  function CopyAck(f: Flags, src: ConsumerConfig): Result<AckPolicy> {
    if f.ackPolicy != "" then AckPolicyFromString(f.ackPolicy) else Ok(src.ackPolicy)
  }

  /** The replay-policy flag of a copy: "" leaves the policy alone. */
  function CopyReplay(f: Flags, src: ConsumerConfig): Result<ReplayPolicy> {
    if f.replayPolicy != "" then ReplayPolicyFromString(f.replayPolicy) else Ok(src.replayPolicy)
  }

  /** cpAction's configuration. Failures come in the order the Go code
      checks them: an out-of-range sample percentage, an unparsable start
      policy, an unknown acknowledgement or replay policy, an unparsable
      heartbeat (all fatal), then a backoff schedule that cannot be computed
      (an error). */
  function CopiedConfig(f: Flags, src: ConsumerConfig, env: Env): Result<ConsumerConfig> {
    var sample := CopySample(f, src);
    var start := CopyStart(f, src, env);
    var ack := CopyAck(f, src);
    var replay := CopyReplay(f, src);
    var hb := CopyHeartbeat(f.idleHeartbeat, src.heartbeat, env);
    var bo := CopyBackoff(f, src.backOff, env);
    if sample.Fail? then Fail(sample.failure)
    else if start.Fail? then Fail(start.failure)
    else if ack.Fail? then Fail(ack.failure)
    else if replay.Fail? then Fail(replay.failure)
    else if hb.Fail? then Fail(hb.failure)
    else if bo.Fail? then Fail(bo.failure)
    else Ok(CopyOverrides(f, src, sample.value, start.value, ack.value, replay.value, hb.value, bo.value))
  }

  /** The accepted copy: every given flag over the source configuration,
      with the already parsed values of the flags that can fail. */
  function CopyOverrides(f: Flags, src: ConsumerConfig, sample: string, start: ConsumerConfig, ack: AckPolicy,
                         replay: ReplayPolicy, hb: Duration, bo: seq<Duration>): ConsumerConfig
  {
    var subject := if f.pull then "" else if f.delivery != "" then f.delivery else src.deliverSubject;
    var filtered := ApplyFilterOverride(src, f.filterSubjects);
    src.(
      ackWait := if f.ackWait > 0 then f.ackWait else src.ackWait,
      sampleFrequency := sample,
      deliverPolicy := start.deliverPolicy, optStartSeq := start.optStartSeq,
      optStartTime := start.optStartTime,
      durable := if f.ephemeral then "" else f.destination,
      deliverSubject := subject,
      maxWaiting := if f.pull then f.maxWaiting else src.maxWaiting,
      ackPolicy := ack,
      filterSubject := filtered.filterSubject, filterSubjects := filtered.filterSubjects,
      replayPolicy := replay,
      maxDeliver := if f.maxDeliver != 0 then f.maxDeliver else src.maxDeliver,
      rateLimit := if f.bpsRateLimit != 0 then f.bpsRateLimit else src.rateLimit,
      maxAckPending := if f.maxAckPending != -1 then f.maxAckPending else src.maxAckPending,
      heartbeat := if subject == "" then 0 else hb,
      description := if f.description != "" then f.description else src.description,
      flowControl := if subject == "" then false else if f.fcSet then f.fc else src.flowControl,
      deliverGroup := CopyGroup(f),
      inactiveThreshold := if f.inactiveThreshold > 0 then f.inactiveThreshold else src.inactiveThreshold,
      maxRequestExpires := if f.maxPullExpire > 0 then f.maxPullExpire else src.maxRequestExpires,
      maxRequestBatch := if f.maxPullBatch > 0 then f.maxPullBatch else src.maxRequestBatch,
      maxRequestMaxBytes := if f.maxPullBytes > 0 then f.maxPullBytes else src.maxRequestMaxBytes,
      backOff := bo,
      headersOnly := if f.hdrsOnlySet then f.hdrsOnly else src.headersOnly)
  }

  /** An accepted copy is the flags laid over the source with every
      fallible flag parsed. */
  lemma CopyAccepted(f: Flags, src: ConsumerConfig, env: Env)
    requires CopiedConfig(f, src, env).Ok?
    ensures && CopySample(f, src).Ok? && CopyStart(f, src, env).Ok? && CopyAck(f, src).Ok? && CopyReplay(f, src).Ok?
            && CopyHeartbeat(f.idleHeartbeat, src.heartbeat, env).Ok? && CopyBackoff(f, src.backOff, env).Ok?
    ensures CopiedConfig(f, src, env).value ==
      CopyOverrides(f, src, CopySample(f, src).value, CopyStart(f, src, env).value, CopyAck(f, src).value,
                    CopyReplay(f, src).value, CopyHeartbeat(f.idleHeartbeat, src.heartbeat, env).value,
                    CopyBackoff(f, src.backOff, env).value)
  {
  }

  /** The copy is named after the destination, or not at all when
      ephemeral. */
  lemma CopyDurableName(f: Flags, src: ConsumerConfig, env: Env)
    ensures var r := CopiedConfig(f, src, env);
      r.Ok? ==> r.value.durable == (if f.ephemeral then "" else f.destination)
  {
    if CopiedConfig(f, src, env).Ok? {
      CopyAccepted(f, src, env);
    }
  }

  /** --pull makes the copy a pull consumer with the flag's waiting-pull
      limit; otherwise the target, if given, replaces the delivery subject. */
  lemma CopyPullOrPush(f: Flags, src: ConsumerConfig, env: Env)
    ensures var r := CopiedConfig(f, src, env);
      r.Ok? && f.pull ==> r.value.deliverSubject == "" && r.value.maxWaiting == f.maxWaiting
    ensures var r := CopiedConfig(f, src, env);
      r.Ok? && !f.pull ==> r.value.deliverSubject == (if f.delivery != "" then f.delivery else src.deliverSubject)
  {
    if CopiedConfig(f, src, env).Ok? {
      CopyAccepted(f, src, env);
    }
  }

  /** A copy without a delivery subject has no heartbeat and no flow
      control, whatever the flags say. */
  lemma CopyPullHasNoHeartbeat(f: Flags, src: ConsumerConfig, env: Env)
    ensures var r := CopiedConfig(f, src, env);
      r.Ok? && r.value.deliverSubject == "" ==> r.value.heartbeat == 0 && !r.value.flowControl
  {
    if CopiedConfig(f, src, env).Ok? {
      CopyAccepted(f, src, env);
    }
  }

  /** The delivery group is cleared when no target is given or the group
      flag is unset, and otherwise is the given group. */
  lemma CopyDeliveryGroup(f: Flags, src: ConsumerConfig, env: Env)
    ensures var r := CopiedConfig(f, src, env);
      r.Ok? && (f.delivery == "" || f.deliveryGroup == UNSET_GROUP) ==> r.value.deliverGroup == ""
    ensures var r := CopiedConfig(f, src, env);
      r.Ok? && f.delivery != "" && f.deliveryGroup != UNSET_GROUP ==> r.value.deliverGroup == f.deliveryGroup
  {
    if CopiedConfig(f, src, env).Ok? {
      CopyAccepted(f, src, env);
    }
  }

  /** The stream-assigned name, the replica count, the storage and the
      metadata are never changed by a copy, whatever flags are given. */
  lemma CopyKeepsUnflaggedFields(f: Flags, src: ConsumerConfig, env: Env)
    ensures var r := CopiedConfig(f, src, env);
      r.Ok? ==> && r.value.name == src.name && r.value.replicas == src.replicas
                && r.value.memoryStorage == src.memoryStorage && r.value.metadata == src.metadata
  {
    if CopiedConfig(f, src, env).Ok? {
      CopyAccepted(f, src, env);
    }
  }

  /** The failures of a copy and their order: the sample percentage is
      checked first, an unknown acknowledgement policy is fatal once the
      sample and start policy are accepted, and a backoff failure is an
      error only when nothing fatal came before it. */
  lemma CopyFailures(f: Flags, src: ConsumerConfig, env: Env)
    ensures f.samplePct != -1 && !(0 <= f.samplePct <= 100) ==> CopiedConfig(f, src, env) == Fail(Fatal(SAMPLE_RANGE_MSG))
    ensures (&& (f.samplePct == -1 || 0 <= f.samplePct <= 100)
             && (f.startPolicy == "" || WithStartPolicy(src, f.startPolicy, env).Ok?)
             && f.ackPolicy != "" && AckPolicyFromString(f.ackPolicy).Fail?) ==>
      CopiedConfig(f, src, env) == Fail(AckPolicyFromString(f.ackPolicy).failure)
    ensures CopiedConfig(f, src, env).Fail? && CopiedConfig(f, src, env).failure.Error? ==>
      f.backoffMode != "" && BackoffPolicy(f.backoffMode, f.backoffSteps, f.backoffMin, f.backoffMax, env).Fail?
  {
  }

  /** A flag left at its default changes nothing: copying with only a
      destination gives the source under the new name, without a delivery
      group, and with the push-only settings cleared for a pull consumer. */
  lemma CopyWithoutFlags(src: ConsumerConfig, destination: string, env: Env)
    ensures CopiedConfig(FlagDefaults().(destination := destination), src, env) ==
      Ok(src.(durable := destination, deliverGroup := "",
              heartbeat := if src.deliverSubject == "" then 0 else src.heartbeat,
              flowControl := if src.deliverSubject == "" then false else src.flowControl))
  {
  }
}
