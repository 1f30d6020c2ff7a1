/** The comparison and decision half of `nats consumer edit`
    (editAction in cli/consumer_command.go): when two configurations show
    no difference, what happens to a difference, and the single-filter
    override of the edit flags. */
module Reconcile {
  import opened Types
  import opened StringSort

  const NO_BACKOFF_ACK_WAIT_EDIT_MSG := "consumers with backoff policies do not support editing Ack Wait"
  const ONLY_DURABLE_MSG := "only durable consumers can be edited"

  /** cmp.Diff with the `Sort` transformer on string lists reports nothing:
      every field is equal except that the subject lists are compared after
      sorting a copy of each. */
  predicate SameConfig(a: ConsumerConfig, b: ConsumerConfig) {
    && a.(filterSubjects := []) == b.(filterSubjects := [])
    && Sort(a.filterSubjects) == Sort(b.filterSubjects)
  }

  /** No difference is reported exactly when all other fields are equal and
      the subject lists hold the same subjects, in whatever order. */
  lemma SameConfigIgnoresSubjectOrder(a: ConsumerConfig, b: ConsumerConfig)
    ensures SameConfig(a, b) <==>
      a.(filterSubjects := []) == b.(filterSubjects := []) && multiset(a.filterSubjects) == multiset(b.filterSubjects)
  {
    SortedEqualIffSameElements(a.filterSubjects, b.filterSubjects);
  }

  /** What editAction does once the new configuration is built. */
  datatype EditOutcome =
    | NoChange                          // "No difference in configuration", nothing submitted
    | DryRunExit(code: int)             // difference shown, os.Exit(1), nothing submitted
    | NotConfirmed                      // confirmation refused, nothing submitted
    | Submit(config: ConsumerConfig)    // the whole new configuration is submitted

  /** An empty difference submits nothing; under dry-run a difference exits
      with status 1; otherwise it is submitted only when forced or
      confirmed, and then as the whole new configuration. */
  function EditDecision(live: ConsumerConfig, ncfg: ConsumerConfig, dryRun: bool, force: bool, confirmed: bool): (r: EditOutcome)
    ensures r == NoChange <==> SameConfig(live, ncfg)
    ensures r.DryRunExit? <==> !SameConfig(live, ncfg) && dryRun
    ensures r.DryRunExit? ==> r.code == 1
    ensures r == NotConfirmed <==> !SameConfig(live, ncfg) && !dryRun && !force && !confirmed
    ensures r.Submit? <==> !SameConfig(live, ncfg) && !dryRun && (force || confirmed)
    ensures r.Submit? ==> r.config == ncfg
  {
    if SameConfig(live, ncfg) then NoChange
    else if dryRun then DryRunExit(1)
    else if !force && !confirmed then NotConfirmed
    else Submit(ncfg)
  }

  /** Re-ordering the subject list of a consumer is not an edit. */
  lemma ReorderedSubjectsSubmitNothing(live: ConsumerConfig, subjects: seq<string>, dryRun: bool, force: bool, confirmed: bool)
    requires multiset(subjects) == multiset(live.filterSubjects)
    ensures EditDecision(live, live.(filterSubjects := subjects), dryRun, force, confirmed) == NoChange
  {
    SortedEqualIffSameElements(live.filterSubjects, subjects);
  }

  /** Indexing a Go slice: out of range is a runtime panic. */
  function GoIndex(s: seq<string>, i: nat): (r: Result<string>)
    ensures r.Ok? <==> i < |s|
    ensures r.Ok? ==> r.value == s[i]
    ensures r.Fail? ==> r.failure.Panic?
  {
    if i < |s| then Ok(s[i])
    else Fail(Panic("runtime error: index out of range"))
  }

  /** The `--filter` override of editAction as written: a single subject is
      read from index 1, so exactly one `--filter` panics. */
  function ApplyFilterOverrideAsWritten(cfg: ConsumerConfig, filters: seq<string>): (r: Result<ConsumerConfig>)
    ensures |filters| == 1 ==> r.Fail? && r.failure.Panic?
    ensures |filters| != 1 ==> r.Ok?
  {
    if |filters| == 1 then
      match GoIndex(filters, 1)
      case Ok(f) => Ok(cfg.(filterSubject := f))
      case Fail(e) => Fail(e)
    else if |filters| > 1 then Ok(cfg.(filterSubjects := filters))
    else Ok(cfg)
  }

  /** The `--filter` override as evidently intended (and as cpAction writes
      it): one subject becomes the filter subject, several become the subject
      list, none leaves both alone; no other field changes. */
  function ApplyFilterOverride(cfg: ConsumerConfig, filters: seq<string>): (r: ConsumerConfig)
    ensures |filters| == 1 ==> r.filterSubject == filters[0] && r.filterSubjects == cfg.filterSubjects
    ensures |filters| > 1 ==> r.filterSubjects == filters && r.filterSubject == cfg.filterSubject
    ensures filters == [] ==> r.filterSubject == cfg.filterSubject && r.filterSubjects == cfg.filterSubjects
  {
    if |filters| == 1 then cfg.(filterSubject := filters[0])
    else if |filters| > 1 then cfg.(filterSubjects := filters)
    else cfg
  }

  /** The override changes nothing but the two filter fields, and nothing
      at all without subjects. */
  lemma ApplyFilterOverrideFrame(cfg: ConsumerConfig, filters: seq<string>)
    ensures ApplyFilterOverride(cfg, filters) ==
      cfg.(filterSubject := ApplyFilterOverride(cfg, filters).filterSubject,
           filterSubjects := ApplyFilterOverride(cfg, filters).filterSubjects)
    ensures filters == [] ==> ApplyFilterOverride(cfg, filters) == cfg
  {
  }

  /** The as-written override fails on every single-subject edit that the
      intended one accepts, and agrees with it everywhere else. */
  lemma FilterOverrideIndexDiscrepancy(cfg: ConsumerConfig, filters: seq<string>)
    ensures |filters| == 1 ==>
      ApplyFilterOverrideAsWritten(cfg, filters) == Fail(Panic("runtime error: index out of range"))
      && ApplyFilterOverride(cfg, filters).filterSubject == filters[0]
    ensures |filters| != 1 ==> ApplyFilterOverrideAsWritten(cfg, filters) == Ok(ApplyFilterOverride(cfg, filters))
  {
  }

  /** `n` agrees with `live` on every field that editAction has no flag for. */
  predicate OnlyEditableFieldsDiffer(live: ConsumerConfig, n: ConsumerConfig) {
    n.(description := live.description, maxDeliver := live.maxDeliver, maxAckPending := live.maxAckPending,
       ackWait := live.ackWait, maxWaiting := live.maxWaiting, sampleFrequency := live.sampleFrequency,
       maxRequestBatch := live.maxRequestBatch, maxRequestExpires := live.maxRequestExpires,
       maxRequestMaxBytes := live.maxRequestMaxBytes, backOff := live.backOff,
       deliverSubject := live.deliverSubject, headersOnly := live.headersOnly,
       filterSubject := live.filterSubject, filterSubjects := live.filterSubjects,
       replicas := live.replicas, metadata := live.metadata)
    == live
  }
}
