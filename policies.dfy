/** The small parsers and lookups of cli/consumer_command.go: acknowledgement
    and replay policy words, the sample percentage, the start policy, the
    backoff schedule and its rendering. */
module Policies {
  import opened Types
  import opened Text

  const SAMPLE_RANGE_MSG := "sample percent is not between 0 and 100"
  const BACKOFF_PROPERTIES_MSG := "required policy properties not supplied"
  const BACKOFF_FAILED_PREFIX := "could not determine backoff policy: "

  /** The word the ack policy prompt offers for each policy. */
  function AckWord(a: AckPolicy): string {
    match a
    case AckNone => "none"
    case AckAll => "all"
    case AckExplicit => "explicit"
  }

  /** The word the replay policy prompt offers for each policy. */
  function ReplayWord(p: ReplayPolicy): string {
    match p
    case ReplayInstant => "instant"
    case ReplayOriginal => "original"
  }

  /** ackPolicyFromString: accepts exactly the words none, all and explicit in
      any case, and is fatal for every other word. */
  function AckPolicyFromString(p: string): (r: Result<AckPolicy>)
    ensures r.Ok? <==> Lower(p) in {"none", "all", "explicit"}
    ensures r.Ok? ==> AckWord(r.value) == Lower(p)
    ensures r.Fail? ==> r.failure == Fatal("invalid ack policy '" + p + "'")
  {
    var l := Lower(p);
    if l == "none" then Ok(AckNone)
    else if l == "all" then Ok(AckAll)
    else if l == "explicit" then Ok(AckExplicit)
    else Fail(Fatal("invalid ack policy '" + p + "'"))
  }

  /** replayPolicyFromString: accepts exactly instant and original in any case. */
  function ReplayPolicyFromString(p: string): (r: Result<ReplayPolicy>)
    ensures r.Ok? <==> Lower(p) in {"instant", "original"}
    ensures r.Ok? ==> ReplayWord(r.value) == Lower(p)
    ensures r.Fail? ==> r.failure == Fatal("invalid replay policy '" + p + "'")
  {
    var l := Lower(p);
    if l == "instant" then Ok(ReplayInstant)
    else if l == "original" then Ok(ReplayOriginal)
    else Fail(Fatal("invalid replay policy '" + p + "'"))
  }

  /** The words the prompts store are read back as the policy chosen. */
  lemma PolicyWordsRoundTrip(a: AckPolicy, p: ReplayPolicy)
    ensures AckPolicyFromString(AckWord(a)) == Ok(a)
    ensures ReplayPolicyFromString(ReplayWord(p)) == Ok(p)
  {
    LowerOfLowercase(AckWord(a));
    LowerOfLowercase(ReplayWord(p));
  }

  /** Both policy parsers ignore the case of the word: an upper-cased word
      parses to the same policy, and is refused exactly when the word is. */
  lemma {:induction false} PolicyParsersIgnoreCase(p: string)
    ensures AckPolicyFromString(Upper(p)).Ok? == AckPolicyFromString(p).Ok?
    ensures AckPolicyFromString(p).Ok? ==> AckPolicyFromString(Upper(p)).value == AckPolicyFromString(p).value
    ensures ReplayPolicyFromString(Upper(p)).Ok? == ReplayPolicyFromString(p).Ok?
    ensures ReplayPolicyFromString(p).Ok? ==> ReplayPolicyFromString(Upper(p)).value == ReplayPolicyFromString(p).value
  {
    LowerUpper(p);
  }

  /** sampleFreqFromInt: fatal outside 0..100, the empty string (sampling off)
      for 0, otherwise the decimal digits of the percentage. (The Go code formats
      the receiver's samplePct, which is the argument at every call site.) */
  function SampleFreqFromInt(s: int): (r: Result<string>)
    ensures r.Ok? <==> 0 <= s <= 100
    ensures r.Fail? ==> r.failure == Fatal(SAMPLE_RANGE_MSG)
    ensures s == 0 ==> r == Ok("")
    ensures r.Ok? && s > 0 ==> IsDigits(r.value) && r.value[0] != '0' && DecimalValue(r.value) == s
  {
    if s > 100 || s < 0 then Fail(Fatal(SAMPLE_RANGE_MSG))
    else if s > 0 then
      DecimalRoundTrip(s);
      Ok(DecimalString(s))
    else Ok("")
  }

  /** The fixed words of the start policy and the deliver policy each selects. */
  function StartKeyword(policy: string): Option<DeliverPolicy> {
    if policy == "all" then Some(DeliverAll)
    else if policy == "last" then Some(DeliverLast)
    else if policy == "new" || policy == "next" then Some(DeliverNew)
    else if policy == "subject" || policy == "last_per_subject" then Some(DeliverLastPerSubject)
    else None
  }

  /** No start keyword is a digit string, so the keyword and the sequence
      cases of setStartPolicy never overlap. */
  lemma KeywordsAreNotDigits(policy: string)
    ensures StartKeyword(policy).Some? ==> !IsDigits(policy)
  {
    if StartKeyword(policy).Some? {
      assert policy[0] in {'a', 'l', 'n', 's'};
    }
  }

  /** The configuration setStartPolicy leaves behind. */
  function WithStartPolicy(cfg: ConsumerConfig, policy: string, env: Env): Result<ConsumerConfig>
  {
    if policy == "" then Ok(cfg)
    else if StartKeyword(policy).Some? then Ok(cfg.(deliverPolicy := StartKeyword(policy).value))
    else if IsDigits(policy) then Ok(cfg.(deliverPolicy := DeliverByStartSequence, optStartSeq := Atoi(policy)))
    else match env.parseDuration(policy)
      case Fail(e) => Fail(Fatal("could not parse starting delta: " + e.message))
      case Ok(d) => Ok(cfg.(deliverPolicy := DeliverByStartTime, optStartTime := Some(env.now - d)))
  }

  /** setStartPolicy changes only the deliver policy and the start
      sequence or start time. */
  lemma WithStartPolicyFrame(cfg: ConsumerConfig, policy: string, env: Env)
    ensures var r := WithStartPolicy(cfg, policy, env);
      r.Ok? ==> r.value == cfg.(deliverPolicy := r.value.deliverPolicy, optStartSeq := r.value.optStartSeq,
                                optStartTime := r.value.optStartTime)
  {
    if policy != "" && StartKeyword(policy).None? && !IsDigits(policy) && env.parseDuration(policy).Ok? {
      assert WithStartPolicy(cfg, policy, env).value ==
        cfg.(deliverPolicy := DeliverByStartTime, optStartTime := Some(env.now - env.parseDuration(policy).value));
    }
  }

  /** The cases of setStartPolicy: "" leaves the configuration alone; a
      keyword (matched case-sensitively) selects its deliver policy; a digit
      string starts at that stream sequence; anything else is a duration back
      from now, and an unparsable one is fatal. */
  lemma StartPolicyCases(cfg: ConsumerConfig, policy: string, env: Env)
    ensures policy == "" ==> WithStartPolicy(cfg, policy, env) == Ok(cfg)
    ensures StartKeyword(policy).Some? ==>
      WithStartPolicy(cfg, policy, env) == Ok(cfg.(deliverPolicy := StartKeyword(policy).value))
    ensures IsDigits(policy) ==>
      && WithStartPolicy(cfg, policy, env).Ok?
      && WithStartPolicy(cfg, policy, env).value.deliverPolicy == DeliverByStartSequence
      && WithStartPolicy(cfg, policy, env).value.optStartSeq == Atoi(policy)
    ensures IsDigits(policy) && DecimalValue(policy) <= MAX_INT64 ==>
      WithStartPolicy(cfg, policy, env).Ok? && WithStartPolicy(cfg, policy, env).value.optStartSeq == DecimalValue(policy)
    ensures policy != "" && StartKeyword(policy).None? && !IsDigits(policy) ==>
      var r := WithStartPolicy(cfg, policy, env);
      && (r.Ok? <==> env.parseDuration(policy).Ok?)
      && (r.Ok? ==> r.value.deliverPolicy == DeliverByStartTime && r.value.optStartTime == Some(env.now - env.parseDuration(policy).value))
      && (r.Fail? ==> r.failure == Fatal("could not parse starting delta: " + env.parseDuration(policy).failure.message))
  {
    KeywordsAreNotDigits(policy);
  }

  /** setStartPolicy, updating the configuration in place. */
  method SetStartPolicy(cfg: ConsumerConfig, policy: string, env: Env) returns (r: Result<ConsumerConfig>)
    ensures r == WithStartPolicy(cfg, policy, env)
  {
    if policy == "" {
      return Ok(cfg);
    }
    var deliver, startSeq, startTime := cfg.deliverPolicy, cfg.optStartSeq, cfg.optStartTime;
    if policy == "all" {
      deliver := DeliverAll;
    } else if policy == "last" {
      deliver := DeliverLast;
    } else if policy == "new" || policy == "next" {
      deliver := DeliverNew;
    } else if policy == "subject" || policy == "last_per_subject" {
      deliver := DeliverLastPerSubject;
    } else if IsDigits(policy) {
      deliver, startSeq := DeliverByStartSequence, Atoi(policy);
    } else {
      var d := env.parseDuration(policy);
      if d.Fail? {
        return Fail(Fatal("could not parse starting delta: " + d.failure.message));
      }
      deliver, startTime := DeliverByStartTime, Some(env.now - d.value);
    }
    r := Ok(cfg.(deliverPolicy := deliver, optStartSeq := startSeq, optStartTime := startTime));
  }

  function Quote(s: string): string {
    "\"" + s + "\""
  }

  /** backoffPolicy: "none" is an empty schedule; a missing mode or a zero
      step count, minimum or maximum is refused; "linear" is the library's
      linear schedule; any other mode is refused. */
  function BackoffPolicy(mode: string, steps: nat, min: Duration, max: Duration, env: Env): (r: Result<seq<Duration>>)
    ensures mode == "none" ==> r == Ok([])
    ensures mode != "none" && (mode == "" || steps == 0 || min == 0 || max == 0) ==>
      r == Fail(Error(BACKOFF_PROPERTIES_MSG))
    ensures r.Ok? && mode != "none" ==>
      mode == "linear" && steps > 0 && min != 0 && max != 0 && r == env.linearBackoff(steps, min, max)
    ensures mode == "linear" && steps > 0 && min != 0 && max != 0 ==> r == env.linearBackoff(steps, min, max)
    ensures mode !in {"", "none", "linear"} ==> r.Fail? && r.failure.Error?
    ensures mode !in {"", "none", "linear"} && steps > 0 && min != 0 && max != 0 ==>
      r == Fail(Error("invalid backoff mode " + Quote(mode)))
  {
    if mode == "none" then Ok([])
    else if mode == "" || steps == 0 || min == 0 || max == 0 then Fail(Error(BACKOFF_PROPERTIES_MSG))
    else if mode == "linear" then env.linearBackoff(steps, min, max)
    else Fail(Error("invalid backoff mode " + Quote(mode)))
  }

  /** Each duration of a schedule as time.Duration.String shows it. */
  function Shown(bo: seq<Duration>, show: Duration -> string): (r: seq<string>)
    ensures |r| == |bo| && forall k | 0 <= k < |bo| :: r[k] == show(bo[k])
  {
    if bo == [] then [] else [show(bo[0])] + Shown(bo[1..], show)
  }

  /** renderBackoff: "unset" for no schedule; up to 15 entries all shown;
      a longer schedule as its first five and last five entries around an
      ellipsis, followed by the total count. */
  method RenderBackoff(bo: seq<Duration>, show: Duration -> string) returns (s: string)
    ensures |bo| == 0 ==> s == "unset"
    ensures 0 < |bo| <= 15 ==> s == Join(Shown(bo, show), ", ")
    ensures |bo| > 15 ==>
      s == Join(Shown(bo[..5], show) + ["..."] + Shown(bo[|bo| - 5..], show), ", ")
           + " (" + DecimalString(|bo|) + " total)"
  {
    if |bo| == 0 {
      return "unset";
    }
    var times: seq<string> := [];
    if |bo| > 15 {
      var i := 0;
      while i < 5
        invariant 0 <= i <= 5
        invariant times == Shown(bo[..i], show)
      {
        times := times + [show(bo[i])];
        i := i + 1;
      }
      times := times + ["..."];
      var j := |bo| - 5;
      while j < |bo|
        invariant |bo| - 5 <= j <= |bo|
        invariant times == Shown(bo[..5], show) + ["..."] + Shown(bo[|bo| - 5..j], show)
      {
        times := times + [show(bo[j])];
        j := j + 1;
      }
      assert bo[|bo| - 5..j] == bo[|bo| - 5..];
      s := Join(times, ", ") + " (" + DecimalString(|bo|) + " total)";
    } else {
      var i := 0;
      while i < |bo|
        invariant 0 <= i <= |bo|
        invariant times == Shown(bo[..i], show)
      {
        times := times + [show(bo[i])];
        i := i + 1;
      }
      assert bo[..i] == bo;
      s := Join(times, ", ");
    }
  }
}
