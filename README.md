# nats consumer: configuration, copy, edit and consumption

A Dafny model of `cli/consumer_command.go` of the NATS command line tool
(natscli). That file implements the `nats consumer` sub-commands of a JetStream
consumer. The model covers the part of the file that decides things:

- **add**: `prepareConfig` builds a new consumer configuration from flags, prompts
  or a file. `askBackoffPolicy`, `backoffPolicy` and `setStartPolicy` are parts of it.
- **copy**: `cpAction` lays the flags over a copy of another consumer's configuration.
- **edit**: `editAction` builds the edited configuration, compares it with the live
  one and decides what to submit.
- **next** and **sub**: `getNextMsgDirect`, `nextAction`, `subAction` and the push
  handler of `subscribeConsumer` fetch, show, terminate and acknowledge messages.
- **parsers**: the policy parsers, `sampleFreqFromInt`, `defaultConsumer` and
  `renderBackoff`.

The configuration (`api.ConsumerConfig`) is a datatype in module `Types`. The flag
state of `consumerCmd` is the datatype `CommandFlags.Flags`.

The command object is the class `ConsumerCommand.ConsumerCmd`. Its fields are the
flags, plus `ack`, `ackSetByUser`, `term`, `raw` and `pullCount`. Its methods update
these fields in place, as the Go methods do.

Each method is proved equal to a function that specifies it:

| Methods | Specified by functions in |
|---|---|
| the steps of `prepareConfig` | `Prepare`, one function per step |
| the copy | `Copy` |
| the fetches | `Delivery` |

The lemmas in those modules state what the finished configuration or the fetches
satisfy. Examples:

- A pull consumer never ends up without acknowledgement.
- Under `--defaults` only the name and the target are asked.
- A copy keeps the replicas, the storage and the metadata.
- An edit with no flags submits nothing.
- Re-ordering the filter subjects is not an edit.
- `--term` never acknowledges a message.
- `nextAction` sends one request per fetch.

Everything the command reads from outside is an input of the model:

- **Prompts** are the `Answers` record. The prompts actually asked are returned as a list.
- **Library functions and the clock** are fields of `Env`:
  - `parseDurationString` → `parseDuration`;
  - `jsm.LinearBackoffPeriods` → `linearBackoff`;
  - `time.Duration.String` → `showDuration`;
  - `jsm.ParseJSMsgMetadata` → `parseMetadata`;
  - `time.Now` → `now`.
- **The server** appears as values:
  - the live or source consumer configuration;
  - the decoded `--config` file;
  - the reply to each next-message request (`FetchReply`).
- **Randomness**: the random draw behind the acknowledgement delay is a parameter.

Failures are modelled as the `Failure` datatype:

| Failure | Meaning in the Go code |
|---|---|
| `Fatal` | `fisk.Fatalf` / `fisk.FatalIfError`: the process ends |
| `Error` | an error returned to the command runner |
| `Panic` | a Go runtime panic |

Modules: `Types`, `Text` (ToLower, Atoi, Itoa, Join), `StringSort` (the `Sort`
transformer of the edit diff), `Policies`, `Reconcile` (the edit comparison and the
filter override), `CommandFlags`, `Prepare`, `Copy`, `Edit`, `Delivery` and
`ConsumerCommand`.

## Model

| member | source | states |
|---|---|---|
| Types.DefaultConsumer | cli/consumer_command.go:776-781 | the default configuration is the zero configuration with explicit acknowledgement and instant replay: a pull consumer with no filter, no backoff, no delivery limit |
| CommandFlags.FlagDefaults | cli/consumer_command.go:102-145 | before any flag: ack wait -1s, pending acks -1, sample -1, group "_unset_", backoff 10 steps from 1m to 20m, nothing marked as given |
| Text.Atoi | cli/consumer_command.go:796-799 | a digit string read with the error ignored is its decimal value when that fits a Go int, and the largest Go int otherwise |
| Text.AtoiItoaRoundTrip | cli/consumer_command.go:796-799 | Atoi reads back every number in the range of a Go int that Itoa writes |
| Text.DecimalRoundTrip | cli/consumer_command.go:1128 | strconv.Itoa of a count is a digit string without a leading zero that reads back as the count |
| StringSort.Sort | cli/consumer_command.go:387-391 | the Sort transformer returns a sorted permutation of its input |
| StringSort.SortedUnique | cli/consumer_command.go:387-391 | two sorted lists holding the same strings are equal |
| StringSort.SortedEqualIffSameElements | cli/consumer_command.go:386-393 | two lists are equal after sorting if and only if they hold the same strings equally often |
| Policies.AckPolicyFromString | cli/consumer_command.go:749-762 | accepted exactly when the lower-cased word is none, all or explicit, the policy named by that word; every other word is fatal with the invalid-ack message |
| Policies.ReplayPolicyFromString | cli/consumer_command.go:737-747 | accepted exactly for instant or original in any case, the policy named; any other word is fatal |
| Policies.PolicyWordsRoundTrip | cli/consumer_command.go:1085-1108 | each word the ack and replay prompts offer parses back to the policy it names |
| Policies.PolicyParsersIgnoreCase | cli/consumer_command.go:738-750 | upper-casing a word changes neither whether it is accepted nor the policy it names |
| Policies.SampleFreqFromInt | cli/consumer_command.go:764-774 | accepted exactly for 0..100; 0 means no sampling; a positive percentage becomes its decimal digits; otherwise fatal |
| Policies.KeywordsAreNotDigits | cli/consumer_command.go:788-796 | the start keywords and the sequence case never overlap |
| Policies.WithStartPolicyFrame | cli/consumer_command.go:783-807 | setStartPolicy changes only the deliver policy, the start sequence and the start time |
| Policies.StartPolicyCases | cli/consumer_command.go:783-807 | "" changes nothing; a keyword selects its policy; a digit string starts at that sequence (saturated); anything else starts that duration before now, and an unparsable duration is fatal |
| Policies.SetStartPolicy | cli/consumer_command.go:783-807 | the in-place start policy update leaves the configuration that the cases above describe |
| Policies.BackoffPolicy | cli/consumer_command.go:426-441 | "none" is an empty schedule; a missing mode, step count, minimum or maximum is refused; a complete linear request returns exactly the library's linear schedule, and only it succeeds besides "none"; any other mode is refused as invalid |
| Policies.RenderBackoff | cli/consumer_command.go:527-551 | "unset" when empty; up to 15 durations all shown; more as the first five, an ellipsis, the last five and the total count |
| Reconcile.SameConfigIgnoresSubjectOrder | cli/consumer_command.go:386-394 | no difference is reported exactly when all other fields are equal and the subject lists hold the same subjects |
| Reconcile.EditDecision | cli/consumer_command.go:393-414 | no difference submits nothing; a dry run with a difference exits 1; otherwise the whole new configuration is submitted exactly when forced or confirmed |
| Reconcile.ReorderedSubjectsSubmitNothing | cli/consumer_command.go:386-400 | an edit that only re-orders the filter subjects submits nothing |
| Reconcile.ApplyFilterOverrideAsWritten | cli/consumer_command.go:367-371 | as written, exactly one --filter panics with an index out of range; any other count succeeds |
| Reconcile.ApplyFilterOverride | cli/consumer_command.go:848-852 | one subject sets the filter subject, several set the subject list, none leaves both |
| Reconcile.ApplyFilterOverrideFrame | cli/consumer_command.go:848-852 | the override changes only the two filter fields, and nothing without subjects |
| Reconcile.FilterOverrideIndexDiscrepancy | cli/consumer_command.go:367-371 | the as-written edit override panics on every single subject the intended one accepts, and agrees with it otherwise |
| Prepare.FromFile | cli/consumer_command.go:983-1002 | a file that fails is returned; otherwise the file's configuration, with a differing --consumer name and (only when it has one) the --target subject replacing its own |
| Prepare.NameAndTarget | cli/consumer_command.go:1004-1025 | fatal exactly when the durable name used contains '.', '*' or '>'; otherwise the default configuration with the description, the name and the target |
| Prepare.DefaultsValues | cli/consumer_command.go:1027-1059 | --defaults leaves no flag at its sentinel; an unset ack policy is explicit for pull or --pull and none otherwise; push forces instant replay and counts flow control as given; a given flag is kept |
| Prepare.DefaultsFrame | cli/consumer_command.go:1027-1059 | the defaults touch no flag they have no default for |
| Prepare.DefaultsIdempotent | cli/consumer_command.go:1027-1059 | applying the defaults twice is applying them once |
| Prepare.GroupAndStartFrame | cli/consumer_command.go:1061-1082 | only the group and the start fields change, and the group is never the unset sentinel |
| Prepare.AckAndReplay | cli/consumer_command.go:1084-1108 | the policy prompts leave the configuration as it is |
| Prepare.PolicyFlags | cli/consumer_command.go:1110-1147 | applying the policy flags changes only the ack and replay policies, the delivery count, the ack wait and the sample frequency |
| Prepare.PolicyFlagsAck | cli/consumer_command.go:1110-1117 | an unknown ack word fails as its parser does; none is fatal for pull; otherwise the parsed policy, with unlimited deliveries exactly for none |
| Prepare.PolicyFlagsValues | cli/consumer_command.go:1119-1147 | a sample above 100 is fatal; a positive one is sampled as its digits; a positive ack wait is taken; a given replay policy is parsed |
| Prepare.Filters | cli/consumer_command.go:1149-1170 | only the filter fields change; from no filters, one subject is the filter, several the list, and none filters ">" exactly for last-per-subject |
| Prepare.DeliveryLimits | cli/consumer_command.go:1172-1188 | the limit prompts leave the configuration as it is |
| Prepare.Heartbeat | cli/consumer_command.go:1190-1207 | only the heartbeat changes |
| Prepare.FlowAndHeaders | cli/consumer_command.go:1209-1222 | only flow control and headers-only change, and the step never fails |
| Prepare.BackoffAnswered | cli/consumer_command.go:1285-1344 | declining changes nothing; "none" records only the mode; a completed answer has parsed bounds and at least one step; every failure is an error |
| Prepare.Backoff | cli/consumer_command.go:1224-1241 | only the backoff schedule of the configuration changes |
| Prepare.BackoffFlagsFrame | cli/consumer_command.go:1224-1241 | the backoff step changes no flag but the four backoff settings and the delivery count |
| Prepare.Limits | cli/consumer_command.go:1243-1280 | only the pending-ack, inactivity, pull-request, waiting, delivery, rate, replica, storage and metadata fields change |
| Prepare.GroupAndStartAsksNothing | cli/consumer_command.go:1061-1080 | with every flag given, neither the group nor the start policy is asked |
| Prepare.AckAndReplayAsksNothing | cli/consumer_command.go:1084-1108 | with every flag given, no policy prompt is asked and no flag changes |
| Prepare.FiltersAsksNothing | cli/consumer_command.go:1149-1159 | under --defaults the filter is not asked |
| Prepare.DeliveryLimitsAsksNothing | cli/consumer_command.go:1172-1188 | with the limits given, neither limit is asked |
| Prepare.HeartbeatAsksNothing | cli/consumer_command.go:1190-1207 | with the heartbeat given, it is not asked |
| Prepare.FlowAndHeadersAsksNothing | cli/consumer_command.go:1209-1221 | with flow control and headers-only given, neither is asked |
| Prepare.FinishFrame | cli/consumer_command.go:1224-1280 | the last steps change only the schedule and the limits |
| Prepare.FinishLimits | cli/consumer_command.go:1243-1274 | the rate limit is the flag's and never set on pull; an unset pending limit is 0; only pull takes the waiting limit |
| Prepare.FinishDeliveries | cli/consumer_command.go:1231-1268 | no acknowledgement keeps the delivery count; an unlimited count becomes one more than a new non-empty schedule |
| Prepare.FinishAsked | cli/consumer_command.go:1224-1229 | only the backoff question may be asked, and not under --defaults or with a mode given |
| Prepare.DeliverFrame | cli/consumer_command.go:1149-1280 | the delivery steps change only the filter, heartbeat, flow, headers, schedule and limit fields |
| Prepare.DeliverLimits | cli/consumer_command.go:1243-1274 | after the delivery steps: rate limit never on pull, pending limit never -1 and kept when given, waiting limit only on pull |
| Prepare.DeliverDeliveries | cli/consumer_command.go:1172-1268 | after the delivery steps no acknowledgement keeps the delivery count, and an unlimited count, given as -1 or answered -1 at the max-deliveries prompt, becomes one more than a non-empty schedule |
| Prepare.DeliverFilters | cli/consumer_command.go:1149-1170 | the filter fields still come from the subjects used after the later steps |
| Prepare.DeliverPull | cli/consumer_command.go:1190-1216 | a pull consumer keeps its heartbeat and flow control |
| Prepare.DeliverAsksNothing | cli/consumer_command.go:1149-1229 | with every flag given, the delivery steps ask nothing |
| Prepare.ConfigureFrame | cli/consumer_command.go:1061-1280 | the steps after naming keep the name, the durable name, the description and the delivery subject |
| Prepare.ConfigureAck | cli/consumer_command.go:1084-1117 | the ack policy is the one the flag or answer names; pull never has none; none means unlimited deliveries |
| Prepare.ConfigureSampleAndWait | cli/consumer_command.go:1119-1129 | an accepted sample is at most 100 and sampled when positive; a positive ack wait is taken |
| Prepare.ConfigureLimits | cli/consumer_command.go:1243-1274 | the limit rules hold for the flags as given |
| Prepare.ConfigureDeliveries | cli/consumer_command.go:1172-1268 | an unlimited count of an acknowledging consumer, given as -1 or answered -1 at the max-deliveries prompt, becomes one more than its non-empty schedule |
| Prepare.ConfigureFiltersAndPull | cli/consumer_command.go:1149-1216 | the filter fields come from the subjects used; pull keeps heartbeat and flow control |
| Prepare.ConfigureGroup | cli/consumer_command.go:1061-1071 | the group is never the sentinel; a given group is kept; a push consumer takes the answer; a pull consumer without one has none |
| Prepare.ConfigureAsksNothing | cli/consumer_command.go:1061-1229 | with every flag given, nothing is asked |
| Prepare.PreparedRefusesReservedName | cli/consumer_command.go:1011-1015 | a durable name with '.', '*' or '>' is fatal before anything but the name is asked; an accepted one never has them |
| Prepare.PreparedIdentity | cli/consumer_command.go:980-1025 | the durable name, target and description are the ones used, and no stream-assigned name is set |
| Prepare.PreparedAckPolicy | cli/consumer_command.go:1110-1117 | a pull consumer is never without acknowledgement; none means unlimited deliveries |
| Prepare.PreparedDefaultAckPolicy | cli/consumer_command.go:1034-1039 | under --defaults an unset ack policy is explicit for pull or --pull, none for push |
| Prepare.PreparedLimits | cli/consumer_command.go:1243-1274 | the rate limit is the flag's and never on pull; the pending limit is never -1 and a given one is kept |
| Prepare.PreparedBackoffDeliveries | cli/consumer_command.go:1172-1241 | an acknowledging consumer with unlimited deliveries (given as -1, unset under `--defaults`, or answered -1 at the prompt) and a schedule may be delivered one more time than the schedule is long |
| Prepare.PreparedFilters | cli/consumer_command.go:1149-1170 | the filter fields come from the subjects used; at most one is set; ">" only for last-per-subject |
| Prepare.PreparedPullAndPush | cli/consumer_command.go:1190-1274 | pull takes the waiting limit and has no heartbeat, flow control or rate limit; push has no waiting limit |
| Prepare.PreparedGroup | cli/consumer_command.go:1061-1071 | the group never reaches the configuration as the sentinel, and a given group is kept |
| Prepare.PreparedSampleAndWait | cli/consumer_command.go:1119-1129 | sample at most 100, sampled when positive; the ack wait is the flag's when positive, else unset |
| Prepare.PreparedDefaultsAskOnlyNameAndTarget | cli/consumer_command.go:1027-1059 | under --defaults only the name and target prompts may be asked |
| Copy.CopyHeartbeat | cli/consumer_command.go:870-874 | "" and "-" keep the heartbeat; any other value must parse, fatally otherwise |
| Copy.CopyBackoff | cli/consumer_command.go:917-922 | no mode keeps the schedule; a mode computes one, whose failure is an error |
| Copy.CopyAccepted | cli/consumer_command.go:815-926 | an accepted copy is the flags laid over the source with every fallible flag parsed |
| Copy.CopyDurableName | cli/consumer_command.go:829-833 | the copy is named after the destination, or unnamed when ephemeral |
| Copy.CopyPullOrPush | cli/consumer_command.go:835-842 | --pull makes a pull consumer with the flag's waiting limit; else --target replaces the subject |
| Copy.CopyPullHasNoHeartbeat | cli/consumer_command.go:884-887 | a copy without a subject has no heartbeat and no flow control |
| Copy.CopyDeliveryGroup | cli/consumer_command.go:889-899 | the group is cleared without a target or a group flag, and otherwise is the flag's |
| Copy.CopyKeepsUnflaggedFields | cli/consumer_command.go:815-926 | the stream-assigned name, replicas, storage and metadata are never changed |
| Copy.CopyFailures | cli/consumer_command.go:821-922 | a bad sample is fatal first; a bad ack word is fatal after sample and start pass; an error can only come from the backoff schedule |
| Copy.CopyWithoutFlags | cli/consumer_command.go:815-926 | with only a destination, the copy is the source renamed, without group, and with push-only settings cleared on pull |
| Edit.EditAction | cli/consumer_command.go:280-414 | a consumer without a durable name is refused; no flags submit nothing; a submitted configuration differs from the live one, is neither a dry run nor refused, keeps the live ack wait when it has a backoff schedule, and without an input file differs only in editable fields; a dry run never submits |
| Edit.EditAccepted | cli/consumer_command.go:310-380 | an accepted flag edit is the flags laid over the live configuration |
| Edit.EditRequiresDurable | cli/consumer_command.go:289-291 | only a durable consumer can be edited |
| Edit.EditWithoutFlags | cli/consumer_command.go:310-400 | with no flags the new configuration is the live one and nothing is submitted |
| Edit.EditTouchesOnlyEditableFields | cli/consumer_command.go:316-379 | a flag edit touches only the fields that have an edit flag |
| Edit.EditBackoffKeepsAckWait | cli/consumer_command.go:382-384 | an accepted configuration with a schedule keeps the live ack wait; a flag edit changing it is refused |
| Edit.EditFlagValues | cli/consumer_command.go:316-379 | each given flag replaces its field and an unset one keeps the live value, for the description, delivery, pending and waiting limits, ack wait, the three pull-request limits, subject, headers, filter subjects (through the intended override), replicas and metadata |
| Edit.EditSingleFilterAsWritten | cli/consumer_command.go:367-371 | an edit that reaches the override with one `--filter` panics as written, where the intended override makes that subject the filter subject |
| Edit.EditSampleAndBackoff | cli/consumer_command.go:336-357 | a bad sample is fatal; an accepted one is the frequency; --backoff none clears the schedule |
| Edit.EditFromFile | cli/consumer_command.go:301-309 | with a file the flags are ignored and the file's configuration (or its failure) is used |
| Delivery.RespondTo | cli/consumer_command.go:1528 | an empty reply is published on the reply subject, and nothing without one |
| Delivery.HandlePushMessage | cli/consumer_command.go:1522-1586 | control frames are answered (stalled subject first), never shown or acked; data is shown, then responded to when acking; bad metadata is fatal |
| Delivery.ResolveTermAck | cli/consumer_command.go:1423-1431 | fatal exactly for --term with an explicit --ack; the fetch never both terminates and acks |
| Delivery.AckJitter | cli/consumer_command.go:1485-1489 | the ack delay lies in [0, ack wait) with an ack wait, and is 0 without |
| Delivery.FetchOnce | cli/consumer_command.go:1404-1509 | a fetch begins with its request, and every failure is fatal |
| Delivery.FetchNext | cli/consumer_command.go:1404-1509 | the imperative steps of getNextMsgDirect give exactly the fetch specified |
| Delivery.FetchOnceFailures | cli/consumer_command.go:1423-1441 | --term without explicit --ack clears acking; conflict, no reply and 503 on push fail at once |
| Delivery.FetchOnceShows | cli/consumer_command.go:1443-1506 | a successful fetch shows its message once, then terminates under --term and acknowledges when acking |
| Delivery.FetchOnceRequestsOnce | cli/consumer_command.go:1405-1412 | a fetch sends exactly one request |
| Delivery.FetchOnceAckRules | cli/consumer_command.go:1423-1496 | a fetch never both terminates and acknowledges, and waits less than the ack wait |
| Delivery.FetchAllRequests | cli/consumer_command.go:1621-1633 | nextAction sends at most count requests, exactly count when none fails |
| Delivery.FetchAllAcks | cli/consumer_command.go:1621-1633 | over all fetches, --term never acknowledges and every ack waits less than the ack wait |
| ConsumerCommand.SubscriptionNeverAcksAckNone | cli/consumer_command.go:1601-1619 | a consumer without acknowledgement is never acknowledged, pulled or pushed |
| ConsumerCommand.SubscriptionFollowsMode | cli/consumer_command.go:1601-1619 | pull consumers are fetched from, push consumers subscribed on their subject and group |
| ConsumerCommand.ConsumerCmd.Create | cli/consumer_command.go:100-145 | the command object starts with the flag defaults |
| ConsumerCommand.ConsumerCmd.Next | cli/consumer_command.go:197-204 | the next command's flags are the ones given |
| ConsumerCommand.ConsumerCmd.AskNameAndTarget | cli/consumer_command.go:1004-1025 | updates the flags and returns the configuration that NameAndTarget specifies |
| ConsumerCommand.ConsumerCmd.ApplyDefaults | cli/consumer_command.go:1027-1059 | the flags become their defaults, whose properties DefaultsValues states |
| ConsumerCommand.ConsumerCmd.AskGroupAndStart | cli/consumer_command.go:1061-1082 | updates the group and start flags and the configuration as GroupAndStart specifies |
| ConsumerCommand.ConsumerCmd.AskAckAndReplay | cli/consumer_command.go:1084-1108 | records the asked policy words as AckAndReplay specifies |
| ConsumerCommand.ConsumerCmd.ApplyPolicyFlags | cli/consumer_command.go:1110-1147 | the configuration PolicyFlags specifies, no flag changed |
| ConsumerCommand.ConsumerCmd.AskFilters | cli/consumer_command.go:1149-1170 | the filter subjects and fields as Filters specifies |
| ConsumerCommand.ConsumerCmd.AskDeliveryLimits | cli/consumer_command.go:1172-1188 | the limit flags as DeliveryLimits specifies |
| ConsumerCommand.ConsumerCmd.ChooseHeartbeat | cli/consumer_command.go:1190-1207 | the heartbeat as Heartbeat specifies, no flag changed |
| ConsumerCommand.ConsumerCmd.AskFlowAndHeaders | cli/consumer_command.go:1209-1222 | the flow and headers flags and fields as FlowAndHeaders specifies |
| ConsumerCommand.ConsumerCmd.AskBackoffPolicy | cli/consumer_command.go:1285-1344 | only the four backoff flags change, as BackoffAnswered specifies |
| ConsumerCommand.ConsumerCmd.ChooseBackoff | cli/consumer_command.go:1224-1241 | the backoff flags, delivery count and schedule as Backoff specifies |
| ConsumerCommand.ConsumerCmd.ApplyLimits | cli/consumer_command.go:1243-1280 | the pending flag and the limits as Limits specifies |
| ConsumerCommand.ConsumerCmd.FinishConfig | cli/consumer_command.go:1224-1280 | the last steps as Finish specifies |
| ConsumerCommand.ConsumerCmd.ChooseDelivery | cli/consumer_command.go:1149-1280 | the delivery steps as Deliver specifies |
| ConsumerCommand.ConsumerCmd.ChoosePolicies | cli/consumer_command.go:1061-1280 | the steps after naming as Configure specifies |
| ConsumerCommand.ConsumerCmd.PrepareConfig | cli/consumer_command.go:979-1283 | prepareConfig's flags, configuration and prompts are those of Prepared, whose properties the Prepared lemmas state |
| ConsumerCommand.ConsumerCmd.CopyConfig | cli/consumer_command.go:809-940 | the copy is CopiedConfig; only an accepted durable copy's name becomes the consumer flag |
| ConsumerCommand.ConsumerCmd.GetNextMsgDirect | cli/consumer_command.go:1404-1509 | one fetch as FetchOnce specifies, its ack setting kept in the object |
| ConsumerCommand.ConsumerCmd.NextAction | cli/consumer_command.go:1621-1633 | the pullCount fetches as FetchAll specifies, stopping at the first failure |
| ConsumerCommand.ConsumerCmd.SubAction | cli/consumer_command.go:1601-1619 | the outcome Subscription specifies; acking is off for a consumer without acknowledgement |

## Left out

- Connecting, loading consumers from the server, creating and updating them (`NewConsumerFromDefault`), and validating against the schema: these are server calls. The server's answer is an input instead: the live or source configuration, the decoded file, and the fetch replies.
- `loadConfigFile`, `os.ReadFile` and JSON decoding: the decoded file is a `Result<ConsumerConfig>` parameter.
- The commands info, ls, rm, report, cluster step-down and `showInfo`: they only display. Their output is not modelled.
- Terminal output: shown messages are `Show` effects with the subject and the parsed metadata. The text layout, headers and bodies are not modelled.
- The delay before acknowledging is an `Acknowledge` effect that carries the delay. The sleep itself is not modelled. The random generator is a `draw` parameter.
- `nc.Flush` is not modelled.
- The subscription's wait for context cancellation is not modelled. The handler is a function applied to each message.
- Prompt failures (`FatalIfError` after `askOne`), the `survey.Required` validators and the prompt defaults are not modelled. An answer is whatever the `Answers` record holds. The two Select prompts can only answer one of their options.
- In `getNextMsgDirect`, the load failure inside `fatalIfNotPull` is not modelled. Whether the consumer is in pull mode is a parameter.
- `%q` quoting in the invalid-backoff-mode and not-a-pull-consumer messages is not modelled: `Quote` adds plain double quotes and does not escape.
- Prepare.BackoffAnswered: when a bound does not parse, the Go code still assigns the value `parseDurationString` returned to the flag. The model leaves that flag unchanged. The command fails with that error in either case, and the flag is not read again.
- The model does not write the flags progressively. Each step of `prepareConfig` is one method that writes the flags once at its end. No other code can observe the flags between two assignments.
- The loop of `ConsumerCommand.ConsumerCmd.NextAction` calls the fetch steps (`Delivery.FetchNext`) on a local copy of the ack flag and writes it back at the end. `GetNextMsgDirect` is the same step applied to the object's field.
- `Text.Lower` only models the runes that Go's `strings.ToLower` maps into ASCII. Every other rune is treated as unchanged, and no policy keyword contains one.
- For `--backoff none`, the Go code stores a nil schedule. The model stores the empty sequence, and the two compare equal.
- An unbounded `nat`/`int` stands for every Go integer field. Only the `strconv.Atoi` saturation is modelled.

Behaviour of the Go code that the model reproduces, which may surprise a reader:

- The push handler treats a metadata parse failure as fatal.
- In the push handler, the second status-100 test (lines 1553-1556) is dead code: that case already returned at 1523.
- `sampleFreqFromInt` formats the receiver's `samplePct` rather than its argument. The two are equal at every call site.
- `prepareConfig` ignores a negative sample percentage other than -1.
- `--defaults` forces a push consumer to instant replay and counts flow control as given.
- `prepareConfig` filters on ">" for "last per subject" delivery only when no subject is given.
- `--pull --target x` still makes a push consumer in `prepareConfig`.
- In the file branch of `prepareConfig`, the `else` at line 993 is unreachable. `Prepare.FromFile` omits it, and `PrepareConfig` asserts it away.
- In `prepareConfig`, the second replay prompt (lines 1131-1143) can never be asked.
- `cpAction` never touches memory storage or metadata. Its heartbeat "leave alone" sentinel is "-", while `prepareConfig`'s is "-1".
- `getNextMsgDirect` continues on a 503 status from a pull consumer.
- Terminating or acknowledging a message without a reply subject is fatal.
- `getNextMsgDirect` only ever returns nil. `nextAction`'s early exit is therefore reachable only through a fatal failure.
- The unknown-state branch of `subAction` is unreachable: a consumer is pull exactly when it has no delivery subject.
- `sub` never sets `ackSetByUser` or `term`. Its fetches therefore take the ack flag as it is.
- A consumer is durable when its durable name is not empty.

## Findings

| source | as written | input that shows it | evidently intended | confidence | as-written member | corrected member |
|---|---|---|---|---|---|---|
| cli/consumer_command.go:368 | a single `--filter` subject is read from index 1 of a one-element slice | `nats consumer edit STREAM CONS --filter orders.new` | the single subject at index 0 becomes the filter subject, as `cpAction` does at line 849 | high; not executed | Reconcile.ApplyFilterOverrideAsWritten (Reconcile.FilterOverrideIndexDiscrepancy, Edit.EditSingleFilterAsWritten) | Reconcile.ApplyFilterOverride (used by Edit.EditOverrides) |
