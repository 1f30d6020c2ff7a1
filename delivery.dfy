/** The decisions the command makes while consuming: the term/ack conflict
    of a pull fetch, the acknowledgement delay, and the push handler's
    treatment of control frames and data messages (getNextMsgDirect and
    subscribeConsumer in cli/consumer_command.go). */
module Delivery {
  import opened Types
  import opened Policies

  const STATUS_HEADER := "Status"
  const STALLED_HEADER := "Nats-Consumer-Stalled"
  const TERM_ACK_CONFLICT_MSG := "can not both Acknowledge and Terminate message"
  const NO_MESSAGE_PREFIX := "no message received: "
  const NO_REPLY_MSG := "nats: message does not have a reply"
  const TERM_FAILED_PREFIX := "could not Terminate message: "
  const ACK_FAILED_PREFIX := "could not Acknowledge message: "

  /** A received message: subject, reply subject, headers (each header's
      first value, which is what Header.Get returns) and body. */
  datatype Msg = Msg(subject: string, reply: string, headers: map<string, string>, data: seq<bv8>)

  /** nats.Header.Get: the first value, or "" when the header is absent. */
  function Header(m: Msg, key: string): string {
    if key in m.headers then m.headers[key] else ""
  }

  /** Idle heartbeat or flow-control frame: empty body with status 100. */
  predicate IsControlFrame(m: Msg) {
    |m.data| == 0 && Header(m, STATUS_HEADER) == "100"
  }

  /** What the consumer does on the wire or on the terminal. */
  datatype Effect =
    | RequestNext                                 // next-message request published
    | Show(subject: string, info: Option<MsgInfo>) // message displayed
    | Publish(subject: string)                     // empty message published (Respond, ack, stalled reply)
    | Terminate(subject: string)                   // +TERM sent to the reply subject
    | Acknowledge(subject: string, delay: Duration) // ack sent after sleeping `delay`

  /** nats.Msg.Respond(nil): an empty reply on the message's reply subject;
      the library refuses a message that has no reply subject, so nothing
      is published then. */
  function RespondTo(m: Msg): (r: seq<Effect>)
    ensures r == [] <==> m.reply == ""
    ensures r != [] ==> r == [Publish(m.reply)]
  {
    if m.reply == "" then [] else [Publish(m.reply)]
  }

  /** The effects of one handled message, and the fatal failure, if any,
      that ended the process after them. */
  datatype Handled = Handled(effects: seq<Effect>, failure: Option<Failure>)

  /** The push subscription handler. A control frame is answered on its
      stalled subject when it names one, else through Respond; it is never
      shown or acknowledged as data. A data message with a reply subject
      whose metadata cannot be parsed is fatal; any other data message is
      shown and then, when acking, acknowledged through Respond at once. */
  function HandlePushMessage(m: Msg, ack: bool, env: Env): (r: Handled)
    ensures IsControlFrame(m) ==> r.failure.None? && forall e | e in r.effects :: e.Publish?
    ensures IsControlFrame(m) && Header(m, STALLED_HEADER) != "" ==>
      r.effects == [Publish(Header(m, STALLED_HEADER))]
    ensures IsControlFrame(m) && Header(m, STALLED_HEADER) == "" ==> r.effects == RespondTo(m)
    ensures !IsControlFrame(m) ==>
      (r.failure.Some? <==> m.reply != "" && env.parseMetadata(m.reply).Fail?)
    ensures r.failure.Some? ==> r.effects == [] && r.failure.value.Fatal?
    ensures !IsControlFrame(m) && r.failure.None? ==>
      && |r.effects| >= 1
      && r.effects[0].Show? && r.effects[0].subject == m.subject
      && (r.effects[0].info.Some? <==> m.reply != "")
      && r.effects[1..] == (if ack then RespondTo(m) else [])
  {
    if IsControlFrame(m) then
      var stalled := Header(m, STALLED_HEADER);
      if stalled != "" then Handled([Publish(stalled)], None)
      else Handled(RespondTo(m), None)
    else
      var info := if |m.reply| > 0 then env.parseMetadata(m.reply) else Fail(Error(""));
      if |m.reply| > 0 && info.Fail? then
        Handled([], Some(Fatal("could not parse JetStream metadata: '" + m.reply + "': " + info.failure.message)))
      else
        var shown := Show(m.subject, if info.Ok? then Some(info.value) else None);
        Handled([shown] + (if ack then RespondTo(m) else []), None)
  }

  /** The term/ack rule of a pull fetch: terminating without an explicit
      --ack turns acknowledgement off, and terminating with an explicit
      --ack is fatal. Returns the ack setting the fetch goes on with. */
  function ResolveTermAck(term: bool, ack: bool, ackSetByUser: bool): (r: Result<bool>)
    ensures r.Fail? <==> term && ackSetByUser && ack
    ensures r.Fail? ==> r.failure == Fatal(TERM_ACK_CONFLICT_MSG)
    ensures r.Ok? ==> !(term && r.value)
    ensures r.Ok? ==> (r.value <==> ack && !term)
  {
    var ack' := if term && !ackSetByUser then false else ack;
    if term && ack' then Fail(Fatal(TERM_ACK_CONFLICT_MSG)) else Ok(ack')
  }

  /** The delay before acknowledging a fetched message. `draw` is the
      random source (rand.Intn is uniform on [0, ackWait)); the delay lies
      in [0, ackWait) when an ack wait is given and is 0 otherwise. */
  function AckJitter(ackWait: Duration, draw: int): (delay: Duration)
    ensures ackWait > 0 ==> 0 <= delay < ackWait
    ensures ackWait <= 0 ==> delay == 0
    ensures ackWait > 0 && 0 <= draw < ackWait ==> delay == draw
  {
    if ackWait > 0 then draw % ackWait else 0
  }

  /** The reply to a next-message request: none before the timeout (with
      the library's reason), or a message. */
  datatype FetchReply = NoMessage(reason: string) | Received(msg: Msg)

  /** The flags of `nats consumer next` that a fetch reads but never
      changes, and whether the consumer is in pull mode (asked of the server
      only when a fetch goes wrong). */
  datatype FetchFlags = FetchFlags(ackSetByUser: bool, term: bool, raw: bool, ackWait: Duration,
                                   consumer: string, isPull: bool)

  /** The outcome of fetching: the ack setting afterwards, the effects in
      order, and the fatal failure that ended the process, if any. */
  datatype Fetched = Fetched(ack: bool, effects: seq<Effect>, failure: Option<Failure>)

  /** fatalIfNotPull's message. */
  function NotPullMsg(consumer: string): string {
    "consumer " + Quote(consumer) + " is not a Pull consumer"
  }

  /** One getNextMsgDirect: the request is sent, then the term/ack rule is
      applied; a missing reply or a 503 status from a push consumer is
      fatal; the message is shown (with its metadata unless raw or
      unparsable), then terminated and/or acknowledged on its reply
      subject after a random delay below the ack wait. Terminating or
      acknowledging a message without a reply subject is fatal. */
  function FetchOnce(ack: bool, ff: FetchFlags, reply: FetchReply, env: Env, draw: int): (r: Fetched)
    ensures |r.effects| >= 1 && r.effects[0] == RequestNext
    ensures r.failure.Some? ==> r.failure.value.Fatal?
  {
    match ResolveTermAck(ff.term, ack, ff.ackSetByUser)
    case Fail(e) => Fetched(ack, [RequestNext], Some(e))
    case Ok(ack') =>
      match reply
      case NoMessage(reason) =>
        Fetched(ack', [RequestNext], Some(Fatal(if ff.isPull then NO_MESSAGE_PREFIX + reason else NotPullMsg(ff.consumer))))
      case Received(m) =>
        if Header(m, STATUS_HEADER) == "503" && !ff.isPull then
          Fetched(ack', [RequestNext], Some(Fatal(NotPullMsg(ff.consumer))))
        else
          var parsed := env.parseMetadata(m.reply);
          var info := if ff.raw || parsed.Fail? then None else Some(parsed.value);
          var shown := [RequestNext, Show(m.subject, info)];
          if ff.term && m.reply == "" then Fetched(ack', shown, Some(Fatal(TERM_FAILED_PREFIX + NO_REPLY_MSG)))
          else
            var termed := shown + (if ff.term then [Terminate(m.reply)] else []);
            if ack' && m.reply == "" then Fetched(ack', termed, Some(Fatal(ACK_FAILED_PREFIX + NO_REPLY_MSG)))
            else Fetched(ack', termed + (if ack' then [Acknowledge(m.reply, AckJitter(ff.ackWait, draw))] else []), None)
  }

  /** The steps of getNextMsgDirect, one after another, on the ack setting
      `ack` and the settings `ff`; `ack'` is the ack setting afterwards. */
  method FetchNext(ack: bool, ff: FetchFlags, reply: FetchReply, env: Env, draw: int)
    returns (ack': bool, effects: seq<Effect>, failure: Option<Failure>)
    ensures Fetched(ack', effects, failure) == FetchOnce(ack, ff, reply, env, draw)
  {
    ack', effects := ack, [RequestNext];
    if ff.term {
      if !ff.ackSetByUser {
        ack' := false;
      }
      if ack' {
        return ack', effects, Some(Fatal(TERM_ACK_CONFLICT_MSG));
      }
    }
    if reply.NoMessage? {
      if !ff.isPull {
        return ack', effects, Some(Fatal(NotPullMsg(ff.consumer)));
      }
      return ack', effects, Some(Fatal(NO_MESSAGE_PREFIX + reply.reason));
    }
    var m := reply.msg;
    if Header(m, STATUS_HEADER) == "503" && !ff.isPull {
      return ack', effects, Some(Fatal(NotPullMsg(ff.consumer)));
    }
    var info: Option<MsgInfo> := None;
    if !ff.raw {
      var parsed := env.parseMetadata(m.reply);
      if parsed.Ok? {
        info := Some(parsed.value);
      }
    }
    effects := [RequestNext, Show(m.subject, info)];
    if ff.term {
      if m.reply == "" {
        return ack', effects, Some(Fatal(TERM_FAILED_PREFIX + NO_REPLY_MSG));
      }
      effects := effects + [Terminate(m.reply)];
    }
    if ack' {
      if m.reply == "" {
        return ack', effects, Some(Fatal(ACK_FAILED_PREFIX + NO_REPLY_MSG));
      }
      effects := effects + [Acknowledge(m.reply, AckJitter(ff.ackWait, draw))];
    }
    failure := None;
  }

  /** The ack setting a fetch goes on with is cleared by --term without an
      explicit --ack and otherwise kept; a fetch fails at once, having only
      sent its request, on the term/ack conflict, on a missing reply, or on a
      503 status from a push consumer. */
  lemma FetchOnceFailures(ack: bool, ff: FetchFlags, reply: FetchReply, env: Env, draw: int)
    ensures FetchOnce(ack, ff, reply, env, draw).ack == (ack && !(ff.term && !ff.ackSetByUser))
    ensures ff.term && ff.ackSetByUser && ack ==>
      FetchOnce(ack, ff, reply, env, draw) == Fetched(true, [RequestNext], Some(Fatal(TERM_ACK_CONFLICT_MSG)))
    ensures !(ff.term && ff.ackSetByUser && ack) && reply.NoMessage? ==>
      && FetchOnce(ack, ff, reply, env, draw).effects == [RequestNext]
      && FetchOnce(ack, ff, reply, env, draw).failure ==
         Some(Fatal(if ff.isPull then NO_MESSAGE_PREFIX + reply.reason else NotPullMsg(ff.consumer)))
    ensures !(ff.term && ff.ackSetByUser && ack) && reply.Received? && Header(reply.msg, STATUS_HEADER) == "503" && !ff.isPull ==>
      FetchOnce(ack, ff, reply, env, draw).failure == Some(Fatal(NotPullMsg(ff.consumer)))
  {
  }

  /** A fetch that does not fail received a message, showed it once, and
      then terminated it under --term and acknowledged it when still
      acking, on its reply subject. */
  lemma FetchOnceShows(ack: bool, ff: FetchFlags, reply: FetchReply, env: Env, draw: int)
    ensures var r := FetchOnce(ack, ff, reply, env, draw);
      r.failure.None? ==> && reply.Received? && |r.effects| >= 2 && r.effects[1].Show?
                          && r.effects[1].subject == reply.msg.subject
                          && (ff.term ==> Terminate(reply.msg.reply) in r.effects)
                          && (r.ack ==> Acknowledge(reply.msg.reply, AckJitter(ff.ackWait, draw)) in r.effects)
  {
  }

  /** A fetch sends exactly one request. */
  lemma FetchOnceRequestsOnce(ack: bool, ff: FetchFlags, reply: FetchReply, env: Env, draw: int)
    ensures multiset(FetchOnce(ack, ff, reply, env, draw).effects)[RequestNext] == 1
  {
  }

  /** A fetch never both terminates and acknowledges: an acknowledgement
      happens only without --term, and waits less than the ack wait. */
  lemma FetchOnceAckRules(ack: bool, ff: FetchFlags, reply: FetchReply, env: Env, draw: int)
    ensures var r := FetchOnce(ack, ff, reply, env, draw);
      forall e | e in r.effects && e.Acknowledge? :: !ff.term && (ff.ackWait > 0 ==> 0 <= e.delay < ff.ackWait)
    ensures var r := FetchOnce(ack, ff, reply, env, draw);
      forall e | e in r.effects :: e.Terminate? ==> ff.term
  {
  }

  /** nextAction: fetches number k, k+1, ... below `count`, the i-th reply
      and random draw being `replies(i)` and `draws(i)`, until one fails.
      The ack setting carries over from one fetch to the next. */
  function FetchAll(count: int, k: nat, ack: bool, ff: FetchFlags, replies: nat -> FetchReply, env: Env,
                    draws: nat -> int): (r: Fetched)
    decreases count - k
  {
    if k >= count then Fetched(ack, [], None)
    else
      var one := FetchOnce(ack, ff, replies(k), env, draws(k));
      if one.failure.Some? then one
      else
        After(one.effects, FetchAll(count, k + 1, one.ack, ff, replies, env, draws))
  }

  /** `effects` followed by the outcome of the fetches that come after. */
  function After(effects: seq<Effect>, rest: Fetched): Fetched {
    Fetched(rest.ack, effects + rest.effects, rest.failure)
  }

  /** One more fetch of nextAction: a failed fetch ends the outcome with
      its effects, otherwise the fetches after it follow. */
  lemma FetchAllStep(count: int, k: nat, ack: bool, ff: FetchFlags, replies: nat -> FetchReply, env: Env, draws: nat -> int,
                     effects: seq<Effect>, one: Fetched)
    requires k < count && one == FetchOnce(ack, ff, replies(k), env, draws(k))
    ensures var total := After(effects, FetchAll(count, k, ack, ff, replies, env, draws));
      && (one.failure.Some? ==> total == Fetched(one.ack, effects + one.effects, one.failure))
      && (one.failure.None? ==> total == After(effects + one.effects, FetchAll(count, k + 1, one.ack, ff, replies, env, draws)))
  {
    AfterAfter(effects, one.effects, FetchAll(count, k + 1, one.ack, ff, replies, env, draws));
  }

  /** Past the last fetch there is nothing more. */
  lemma FetchAllDone(count: int, k: nat, ack: bool, ff: FetchFlags, replies: nat -> FetchReply, env: Env, draws: nat -> int)
    requires k >= count
    ensures FetchAll(count, k, ack, ff, replies, env, draws) == Fetched(ack, [], None)
  {
  }

  /** Prefixing effects in two steps or in one is the same. */
  lemma AfterAfter(first: seq<Effect>, second: seq<Effect>, rest: Fetched)
    ensures After(first, After(second, rest)) == After(first + second, rest)
  {
    assert first + (second + rest.effects) == (first + second) + rest.effects;
  }

  /** nextAction sends one request per fetch: exactly count - k of them
      when none fails, and never more; a count of zero or less does
      nothing. */
  lemma {:induction false} FetchAllRequests(count: int, k: nat, ack: bool, ff: FetchFlags, replies: nat -> FetchReply,
                                            env: Env, draws: nat -> int)
    ensures var r := FetchAll(count, k, ack, ff, replies, env, draws);
      multiset(r.effects)[RequestNext] <= (if count > k then count - k else 0)
    ensures var r := FetchAll(count, k, ack, ff, replies, env, draws);
      r.failure.None? ==> multiset(r.effects)[RequestNext] == (if count > k then count - k else 0)
    ensures var r := FetchAll(count, k, ack, ff, replies, env, draws);
      k >= count ==> r == Fetched(ack, [], None)
    decreases count - k
  {
    if k < count {
      var one := FetchOnce(ack, ff, replies(k), env, draws(k));
      FetchOnceRequestsOnce(ack, ff, replies(k), env, draws(k));
      if one.failure.None? {
        FetchAllRequests(count, k + 1, one.ack, ff, replies, env, draws);
      }
    }
  }

  /** Over all fetches of nextAction, --term never acknowledges a message,
      and every acknowledgement waits less than the ack wait. */
  lemma {:induction false} FetchAllAcks(count: int, k: nat, ack: bool, ff: FetchFlags, replies: nat -> FetchReply,
                                        env: Env, draws: nat -> int)
    ensures var r := FetchAll(count, k, ack, ff, replies, env, draws);
      forall e | e in r.effects && e.Acknowledge? :: !ff.term && (ff.ackWait > 0 ==> 0 <= e.delay < ff.ackWait)
    decreases count - k
  {
    if k < count {
      var one := FetchOnce(ack, ff, replies(k), env, draws(k));
      FetchOnceAckRules(ack, ff, replies(k), env, draws(k));
      if one.failure.None? {
        FetchAllAcks(count, k + 1, one.ack, ff, replies, env, draws);
      }
    }
  }
}
