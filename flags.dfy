/** The flag state of `nats consumer add`, `edit` and `copy` (the fields of
    consumerCmd those commands read and prepareConfig updates), the prompts
    prepareConfig may ask and the answers a user would give to them. */
module CommandFlags {
  import opened Types

  /** The configuration flags of consumerCmd. Sentinels: `deliveryGroup`
      UNSET_GROUP, `maxAckPending` and `samplePct` -1, `ackWait` -1s,
      `maxDeliver` 0, the strings "", and the `...Set` booleans saying
      whether the flag was given at all. */
  datatype Flags = Flags(
    consumer: string,
    destination: string,
    inputFile: string,
    acceptDefaults: bool,
    ephemeral: bool,
    pull: bool,
    delivery: string,
    description: string,
    ackPolicy: string,
    ackWait: Duration,
    bpsRateLimit: nat,
    filterSubjects: seq<string>,
    idleHeartbeat: string,
    maxAckPending: int,
    maxDeliver: int,
    maxWaiting: int,
    deliveryGroup: string,
    replayPolicy: string,
    samplePct: int,
    startPolicy: string,
    inactiveThreshold: Duration,
    maxPullExpire: Duration,
    maxPullBytes: int,
    maxPullBatch: int,
    backoffMode: string,
    backoffSteps: nat,
    backoffMin: Duration,
    backoffMax: Duration,
    replicas: int,
    memory: bool,
    hdrsOnly: bool,
    hdrsOnlySet: bool,
    fc: bool,
    fcSet: bool,
    metadataIsSet: bool,
    metadata: map<string, string>)

  /** The flag defaults of `add`, `edit` and `copy` before any flag is given. */
  function FlagDefaults(): (f: Flags)
    ensures f.ackWait == -1 * SECOND && f.maxAckPending == -1 && f.samplePct == -1 && f.maxDeliver == 0
    ensures f.deliveryGroup == UNSET_GROUP && f.filterSubjects == [] && f.idleHeartbeat == ""
    ensures f.backoffMode == "" && f.backoffSteps == 10 && f.backoffMin == MINUTE && f.backoffMax == 20 * MINUTE
    ensures !f.hdrsOnlySet && !f.fcSet && !f.metadataIsSet && f.inputFile == "" && !f.acceptDefaults
  {
    Flags("", "", "", false, false, false, "", "", "", -1 * SECOND, 0, [], "", -1, 0, 0, UNSET_GROUP, "", -1, "",
          0, 0, 0, 0, "", 10, MINUTE, 20 * MINUTE, 0, false, false, false, false, false, false, map[])
  }

  /** The interactive questions prepareConfig and askBackoffPolicy may ask. */
  datatype Prompt =
    | AskName | AskTarget | AskGroup | AskStartPolicy | AskAckPolicy | AskReplayPolicy
    | AskFilter | AskMaxDeliver | AskMaxAckPending | AskHeartbeat | AskFlowControl
    | AskHeadersOnly | AskBackoff

  /** The answer to "Add a Retry Backoff Policy": declined, or a mode with
      the minimum, maximum and step count typed in. */
  datatype BackoffAnswer = NoBackoff | BackoffChosen(mode: string, min: string, max: string, steps: int)

  /** The answers the user would give to each prompt, if asked. The two
      Select prompts can only answer one of their options. */
  datatype Answers = Answers(
    name: string,
    target: string,
    group: string,
    startPolicy: string,
    ackPolicy: AckPolicy,
    replayPolicy: ReplayPolicy,
    filter: string,
    maxDeliver: int,
    maxAckPending: int,
    heartbeat: string,
    flowControl: bool,
    headersOnly: bool,
    backoff: BackoffAnswer)
}
