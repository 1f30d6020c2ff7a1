/** The consumer configuration record, its enumerations and the failure
    kinds of the `nats consumer` command (cli/consumer_command.go). */
module Types {

  datatype Option<+T> = None | Some(value: T)

  /** How a step of the command fails: `Fatal` is `fisk.Fatalf` /
      `fisk.FatalIfError` (message printed, process exits), `Error` is an
      error returned to the command runner, `Panic` a Go runtime panic. */
  datatype Failure = Fatal(message: string) | Error(message: string) | Panic(message: string)

  datatype Result<+T> = Ok(value: T) | Fail(failure: Failure)

  /** time.Duration: nanoseconds. */
  type Duration = int
  /** An instant, as nanoseconds since the Unix epoch. */
  type Time = int

  const SECOND: Duration := 1_000_000_000
  const MINUTE: Duration := 60 * SECOND

  /** Largest value of Go's `int` (64 bits); strconv.Atoi saturates here. */
  const MAX_INT64: int := 0x7FFF_FFFF_FFFF_FFFF

  /** The sentinel the `--deliver-group` flag defaults to. */
  const UNSET_GROUP: string := "_unset_"

  // api.DeliverPolicy, api.AckPolicy, api.ReplayPolicy; the first constructor
  // of each is the Go zero value.
  datatype DeliverPolicy =
    | DeliverAll
    | DeliverLast
    | DeliverNew
    | DeliverByStartSequence
    | DeliverByStartTime
    | DeliverLastPerSubject

  datatype AckPolicy = AckNone | AckAll | AckExplicit

  datatype ReplayPolicy = ReplayInstant | ReplayOriginal

  /** api.ConsumerConfig, restricted to the fields the command reads or writes.
      `deliverSubject == ""` is a pull consumer, anything else a push consumer. */
  datatype ConsumerConfig = ConsumerConfig(
    name: string,
    durable: string,
    description: string,
    deliverSubject: string,
    deliverGroup: string,
    deliverPolicy: DeliverPolicy,
    optStartSeq: nat,
    optStartTime: Option<Time>,
    ackPolicy: AckPolicy,
    ackWait: Duration,
    maxDeliver: int,
    backOff: seq<Duration>,
    filterSubject: string,
    filterSubjects: seq<string>,
    replayPolicy: ReplayPolicy,
    rateLimit: nat,
    sampleFrequency: string,
    maxWaiting: int,
    maxAckPending: int,
    heartbeat: Duration,
    flowControl: bool,
    headersOnly: bool,
    maxRequestBatch: int,
    maxRequestExpires: Duration,
    maxRequestMaxBytes: int,
    inactiveThreshold: Duration,
    replicas: int,
    memoryStorage: bool,
    metadata: map<string, string>)

  /** The Go zero value of api.ConsumerConfig. */
  function ZeroConfig(): ConsumerConfig {
    ConsumerConfig("", "", "", "", "", DeliverAll, 0, None, AckNone, 0, 0, [], "", [],
                   ReplayInstant, 0, "", 0, 0, 0, false, false, 0, 0, 0, 0, 0, false, map[])
  }

  /** defaultConsumer: the zero configuration with explicit acknowledgement
      and instant replay. */
  function DefaultConsumer(): (cfg: ConsumerConfig)
    ensures cfg.ackPolicy == AckExplicit && cfg.replayPolicy == ReplayInstant
    ensures cfg.(ackPolicy := AckNone) == ZeroConfig()
    ensures cfg.deliverSubject == "" && cfg.filterSubject == "" && cfg.filterSubjects == []
    ensures cfg.backOff == [] && cfg.maxDeliver == 0 && cfg.maxAckPending == 0
  {
    ZeroConfig().(ackPolicy := AckExplicit, replayPolicy := ReplayInstant)
  }

  /** A pull consumer is one without a delivery subject. */
  predicate IsPull(cfg: ConsumerConfig) {
    cfg.deliverSubject == ""
  }

  /** Delivery metadata of a JetStream message (jsm.MsgInfo). */
  datatype MsgInfo = MsgInfo(delivered: nat, consumerSeq: nat, streamSeq: nat, pending: nat)

  /** The library functions the command calls and the clock it reads, which
      the model takes as given: `parseDuration` is parseDurationString,
      `linearBackoff` is jsm.LinearBackoffPeriods(steps, min, max),
      `showDuration` is time.Duration.String, `parseMetadata` is
      jsm.ParseJSMsgMetadata applied to a reply subject, and `now` is
      time.Now(). */
  datatype Env = Env(
    now: Time,
    parseDuration: string -> Result<Duration>,
    linearBackoff: (nat, Duration, Duration) -> Result<seq<Duration>>,
    showDuration: Duration -> string,
    parseMetadata: string -> Result<MsgInfo>)

  /** A string flag with a default: the default when the flag is empty. */
  function OrDefault(flag: string, dflt: string): string {
    if flag == "" then dflt else flag
  }
}
