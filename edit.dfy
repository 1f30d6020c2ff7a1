/** The configuration half of `nats consumer edit` (editAction in
    cli/consumer_command.go): the new configuration built from the live one
    and the edit flags, or read from a file, and what then happens to it. */
module Edit {
  import opened Types
  import opened Policies
  import opened Reconcile
  import opened CommandFlags

  /** No edit flag is given: every flag editAction reads is at its sentinel
      and no input file is named. */
  predicate NoEditFlags(f: Flags) {
    && f.inputFile == "" && f.description == "" && f.maxDeliver == 0 && f.maxAckPending == -1
    && f.ackWait == -1 * SECOND && f.maxWaiting == 0 && f.samplePct == -1
    && f.maxPullBatch <= 0 && f.maxPullExpire <= 0 && f.maxPullBytes <= 0 && f.backoffMode == ""
    && f.delivery == "" && !f.hdrsOnlySet && |f.filterSubjects| == 0 && f.replicas <= 0 && !f.metadataIsSet
  }

  /** The sample flag of an edit: -1 leaves the frequency alone. */
  function EditSample(f: Flags, live: ConsumerConfig): Result<string> {
    if f.samplePct != -1 then SampleFreqFromInt(f.samplePct) else Ok(live.sampleFrequency)
  }

  /** The backoff flags of an edit: no mode leaves the schedule alone, a
      mode computes a new one, and its failure is returned as an error. */
  function EditBackoff(f: Flags, live: ConsumerConfig, env: Env): Result<seq<Duration>> {
    if f.backoffMode == "" then Ok(live.backOff)
    else match BackoffPolicy(f.backoffMode, f.backoffSteps, f.backoffMin, f.backoffMax, env)
      case Ok(bo) => Ok(bo)
      case Fail(e) => Fail(Error(BACKOFF_FAILED_PREFIX + e.message))
  }

  /** The edit flags laid over a copy of the live configuration, with the
      sample frequency and backoff schedule already computed. The subject
      override is the intended one (see ApplyFilterOverride). */
  function EditOverrides(f: Flags, live: ConsumerConfig, sample: string, bo: seq<Duration>): ConsumerConfig {
    var filtered := ApplyFilterOverride(live, f.filterSubjects);
    live.(
      description := if f.description != "" then f.description else live.description,
      maxDeliver := if f.maxDeliver != 0 then f.maxDeliver else live.maxDeliver,
      maxAckPending := if f.maxAckPending != -1 then f.maxAckPending else live.maxAckPending,
      ackWait := if f.ackWait != -1 * SECOND then f.ackWait else live.ackWait,
      maxWaiting := if f.maxWaiting != 0 then f.maxWaiting else live.maxWaiting,
      sampleFrequency := sample,
      maxRequestBatch := if f.maxPullBatch > 0 then f.maxPullBatch else live.maxRequestBatch,
      maxRequestExpires := if f.maxPullExpire > 0 then f.maxPullExpire else live.maxRequestExpires,
      maxRequestMaxBytes := if f.maxPullBytes > 0 then f.maxPullBytes else live.maxRequestMaxBytes,
      backOff := bo,
      deliverSubject := if f.delivery != "" then f.delivery else live.deliverSubject,
      headersOnly := if f.hdrsOnlySet then f.hdrsOnly else live.headersOnly,
      filterSubject := filtered.filterSubject, filterSubjects := filtered.filterSubjects,
      replicas := if f.replicas > 0 then f.replicas else live.replicas,
      metadata := if f.metadataIsSet then f.metadata else live.metadata)
  }

  /** The configuration editAction would submit. `file` is the input file
      as read and decoded, consulted only when one is named. Failures: a
      consumer without a durable name cannot be edited; a file that cannot
      be read or decoded; an out-of-range sample percentage (fatal); a
      backoff schedule that cannot be computed; and a new configuration
      with a backoff schedule whose ack wait differs from the live one. */
  function EditedConfig(f: Flags, live: ConsumerConfig, file: Result<ConsumerConfig>, env: Env): Result<ConsumerConfig> {
    if live.durable == "" then Fail(Error(ONLY_DURABLE_MSG))
    else
      var ncfg :=
        if f.inputFile != "" then file
        else
          var sample := EditSample(f, live);
          var bo := EditBackoff(f, live, env);
          if sample.Fail? then Fail(sample.failure)
          else if bo.Fail? then Fail(bo.failure)
          else Ok(EditOverrides(f, live, sample.value, bo.value));
      if ncfg.Fail? then ncfg
      else if |ncfg.value.backOff| > 0 && ncfg.value.ackWait != live.ackWait then Fail(Error(NO_BACKOFF_ACK_WAIT_EDIT_MSG))
      else ncfg
  }

  /** editAction from start to end: the new configuration, then the
      comparison, dry run and confirmation of EditDecision. A consumer
      without a durable name is refused; without flags nothing changes; a
      submitted configuration differs from the live one, was neither a dry
      run nor refused, keeps the live ack wait when it has a backoff
      schedule and, without an input file, touches only editable fields; a
      dry run never submits. */
  function EditAction(f: Flags, live: ConsumerConfig, file: Result<ConsumerConfig>, env: Env,
                      dryRun: bool, force: bool, confirmed: bool): (r: Result<EditOutcome>)
    ensures live.durable == "" ==> r == Fail(Error(ONLY_DURABLE_MSG))
    ensures NoEditFlags(f) && live.durable != "" ==> r == Ok(NoChange)
    ensures r.Ok? && r.value.Submit? ==>
      && !SameConfig(live, r.value.config) && !dryRun && (force || confirmed)
      && (|r.value.config.backOff| > 0 ==> r.value.config.ackWait == live.ackWait)
      && (f.inputFile == "" ==> OnlyEditableFieldsDiffer(live, r.value.config))
    ensures r.Ok? && dryRun ==> !r.value.Submit?
  {
    if NoEditFlags(f) && live.durable != "" then
      EditedWithoutFlags(f, live, file, env);
      Ok(EditDecision(live, live, dryRun, force, confirmed))
    else
      match EditedConfig(f, live, file, env)
      case Fail(e) => Fail(e)
      case Ok(ncfg) =>
        EditBackoffKeepsAckWait(f, live, file, env);
        if f.inputFile == "" then
          EditTouchesOnlyEditableFields(f, live, file, env);
          Ok(EditDecision(live, ncfg, dryRun, force, confirmed))
        else Ok(EditDecision(live, ncfg, dryRun, force, confirmed))
  }

  /** An edit with no flags reproduces the live configuration. */
  lemma EditedWithoutFlags(f: Flags, live: ConsumerConfig, file: Result<ConsumerConfig>, env: Env)
    requires NoEditFlags(f) && live.durable != ""
    ensures EditedConfig(f, live, file, env) == Ok(live)
    ensures SameConfig(live, live)
  {
    assert EditOverrides(f, live, live.sampleFrequency, live.backOff) == live;
    SameConfigIgnoresSubjectOrder(live, live);
  }

  /** An accepted edit without an input file is the flags laid over the
      live configuration. */
  lemma EditAccepted(f: Flags, live: ConsumerConfig, file: Result<ConsumerConfig>, env: Env)
    requires f.inputFile == "" && EditedConfig(f, live, file, env).Ok?
    ensures EditSample(f, live).Ok? && EditBackoff(f, live, env).Ok?
    ensures EditedConfig(f, live, file, env).value ==
      EditOverrides(f, live, EditSample(f, live).value, EditBackoff(f, live, env).value)
  {
  }

  /** Only a durable consumer can be edited, whatever the flags. */
  lemma EditRequiresDurable(f: Flags, live: ConsumerConfig, file: Result<ConsumerConfig>, env: Env)
    ensures live.durable == "" ==> EditedConfig(f, live, file, env) == Fail(Error(ONLY_DURABLE_MSG))
  {
  }

  /** An edit with no flags reproduces the live configuration, so nothing
      is submitted, whatever the dry-run, force and confirmation. */
  lemma EditWithoutFlags(f: Flags, live: ConsumerConfig, file: Result<ConsumerConfig>, env: Env,
                         dryRun: bool, force: bool, confirmed: bool)
    requires NoEditFlags(f) && live.durable != ""
    ensures EditedConfig(f, live, file, env) == Ok(live)
    ensures EditAction(f, live, file, env, dryRun, force, confirmed) == Ok(NoChange)
  {
    EditedWithoutFlags(f, live, file, env);
  }

  /** Without an input file an edit only touches the fields editAction has
      a flag for; the name, the policies, the delivery group and every other
      field stay as they are live. */
  lemma EditTouchesOnlyEditableFields(f: Flags, live: ConsumerConfig, file: Result<ConsumerConfig>, env: Env)
    requires f.inputFile == ""
    ensures var r := EditedConfig(f, live, file, env);
      r.Ok? ==> OnlyEditableFieldsDiffer(live, r.value)
  {
    if EditedConfig(f, live, file, env).Ok? {
      EditAccepted(f, live, file, env);
    }
  }

  /** Whatever its origin, an accepted configuration with a backoff
      schedule keeps the live ack wait; an edit without an input file whose
      backoff schedule is not empty and whose --wait differs from the live
      ack wait is refused. */
  lemma EditBackoffKeepsAckWait(f: Flags, live: ConsumerConfig, file: Result<ConsumerConfig>, env: Env)
    ensures var r := EditedConfig(f, live, file, env);
      r.Ok? && |r.value.backOff| > 0 ==> r.value.ackWait == live.ackWait
    ensures (&& live.durable != "" && f.inputFile == "" && EditSample(f, live).Ok? && EditBackoff(f, live, env).Ok?
             && |EditBackoff(f, live, env).value| > 0 && f.ackWait != -1 * SECOND && f.ackWait != live.ackWait) ==>
      EditedConfig(f, live, file, env) == Fail(Error(NO_BACKOFF_ACK_WAIT_EDIT_MSG))
  {
  }

  /** Each given flag replaces its field and an unset one keeps the live
      value: the description, delivery limits, ack wait, waiting-pull and
      pull-request limits, subject, headers, filter subjects (through the
      intended override), replicas and metadata. */
  lemma EditFlagValues(f: Flags, live: ConsumerConfig, file: Result<ConsumerConfig>, env: Env)
    requires f.inputFile == ""
    ensures var r := EditedConfig(f, live, file, env);
      r.Ok? ==> && r.value.description == (if f.description != "" then f.description else live.description)
                && r.value.maxDeliver == (if f.maxDeliver != 0 then f.maxDeliver else live.maxDeliver)
                && r.value.maxAckPending == (if f.maxAckPending != -1 then f.maxAckPending else live.maxAckPending)
                && r.value.ackWait == (if f.ackWait != -1 * SECOND then f.ackWait else live.ackWait)
    ensures var r := EditedConfig(f, live, file, env);
      r.Ok? ==> && r.value.deliverSubject == (if f.delivery != "" then f.delivery else live.deliverSubject)
                && r.value.headersOnly == (if f.hdrsOnlySet then f.hdrsOnly else live.headersOnly)
                && r.value.replicas == (if f.replicas > 0 then f.replicas else live.replicas)
                && r.value.metadata == (if f.metadataIsSet then f.metadata else live.metadata)
    ensures var r := EditedConfig(f, live, file, env);
      r.Ok? ==> && r.value.maxWaiting == (if f.maxWaiting != 0 then f.maxWaiting else live.maxWaiting)
                && r.value.maxRequestBatch == (if f.maxPullBatch > 0 then f.maxPullBatch else live.maxRequestBatch)
                && r.value.maxRequestExpires == (if f.maxPullExpire > 0 then f.maxPullExpire else live.maxRequestExpires)
                && r.value.maxRequestMaxBytes == (if f.maxPullBytes > 0 then f.maxPullBytes else live.maxRequestMaxBytes)
    ensures var r := EditedConfig(f, live, file, env);
      r.Ok? ==> && r.value.filterSubject == ApplyFilterOverride(live, f.filterSubjects).filterSubject
                && r.value.filterSubjects == ApplyFilterOverride(live, f.filterSubjects).filterSubjects
  {
    if EditedConfig(f, live, file, env).Ok? {
      EditAccepted(f, live, file, env);
    }
  }

  /** The sample and backoff flags of an edit: an out-of-range percentage
      is fatal, an accepted one becomes the sample frequency; --backoff
      none clears the schedule. */
  lemma EditSampleAndBackoff(f: Flags, live: ConsumerConfig, file: Result<ConsumerConfig>, env: Env)
    ensures (live.durable != "" && f.inputFile == "" && f.samplePct != -1 && !(0 <= f.samplePct <= 100)) ==>
      EditedConfig(f, live, file, env) == Fail(Fatal(SAMPLE_RANGE_MSG))
    ensures var r := EditedConfig(f, live, file, env);
      r.Ok? && f.inputFile == "" && f.samplePct != -1 ==> r.value.sampleFrequency == SampleFreqFromInt(f.samplePct).value
    ensures var r := EditedConfig(f, live, file, env);
      r.Ok? && f.inputFile == "" && f.backoffMode == "none" ==> |r.value.backOff| == 0
  {
    if EditedConfig(f, live, file, env).Ok? && f.inputFile == "" {
      EditAccepted(f, live, file, env);
    }
  }

  /** With an input file the flags are ignored: the file's configuration is
      the new one, subject only to the backoff and ack wait rule, and a file
      that cannot be read is returned as its error. */
  lemma EditFromFile(f: Flags, live: ConsumerConfig, file: Result<ConsumerConfig>, env: Env)
    requires f.inputFile != "" && live.durable != ""
    ensures file.Fail? ==> EditedConfig(f, live, file, env) == file
    ensures file.Ok? && (|file.value.backOff| == 0 || file.value.ackWait == live.ackWait) ==>
      EditedConfig(f, live, file, env) == file
  {
  }

  /** editAction as written reaches the `--filter` override with every
      other flag accepted and panics on exactly one subject, where the
      intended override makes that subject the filter subject. */
  lemma EditSingleFilterAsWritten(f: Flags, live: ConsumerConfig, file: Result<ConsumerConfig>, env: Env)
    requires live.durable != "" && f.inputFile == "" && |f.filterSubjects| == 1
    requires EditSample(f, live).Ok? && EditBackoff(f, live, env).Ok?
    ensures var pre := EditOverrides(f.(filterSubjects := []), live, EditSample(f, live).value, EditBackoff(f, live, env).value);
      ApplyFilterOverrideAsWritten(pre, f.filterSubjects) == Fail(Panic("runtime error: index out of range"))
    ensures var r := EditedConfig(f, live, file, env);
      r.Ok? ==> r.value.filterSubject == f.filterSubjects[0]
  {
    var pre := EditOverrides(f.(filterSubjects := []), live, EditSample(f, live).value, EditBackoff(f, live, env).value);
    FilterOverrideIndexDiscrepancy(pre, f.filterSubjects);
    EditFlagValues(f, live, file, env);
  }
}
