/**
 * The agent mesh process: its configuration check, its subscriptions and
 * the message handler that feeds every inbound message to the planner,
 * content and analytics agents, in that order, inside one try/catch.
 */
module Mesh {
  import opened Wrappers
  import opened Json
  import opened Topics
  import opened BusSession
  import Planner
  import opened Content
  import opened Analytics

  /** The environment variables the session needs. */
  datatype EnvVar = SolaceHost | SolaceVpn | SolaceUsername | SolacePassword

  function VarName(v: EnvVar): string
  {
    match v
    case SolaceHost => "SOLACE_HOST"
    case SolaceVpn => "SOLACE_VPN"
    case SolaceUsername => "SOLACE_USERNAME"
    case SolacePassword => "SOLACE_PASSWORD"
  }

  /** The order in which the session options read the variables. */
  const EnvOrder: seq<EnvVar> := [SolaceHost, SolaceVpn, SolaceUsername, SolacePassword]

  /** A variable is usable when it is set to a non-empty string (`!v` is false). */
  predicate Present(env: map<EnvVar, string>, v: EnvVar)
  {
    v in env && env[v] != ""
  }

  /**
   * `required(name, env)`: the variable's value, or the error thrown for an
   * unset or empty variable, naming it. `env` holds the variables that are set.
   */
  function Required(name: EnvVar, env: map<EnvVar, string>): (r: Result<string, string>)
    ensures r.Success? <==> Present(env, name)
    ensures r.Success? ==> r.value == env[name]
    ensures r.Failure? ==> r.error == VarName(name) + " env required"
  {
    if name in env && env[name] != "" then Success(env[name])
    else Failure(VarName(name) + " env required")
  }

  /** The four session options that come from the environment. */
  datatype Settings = Settings(url: string, vpnName: string, userName: string, password: string)

  /**
   * The options object passed to `createSession`: its four `required` calls
   * run in property order, and the first one that throws ends startup.
   */
  function SessionSettings(env: map<EnvVar, string>): (r: Result<Settings, string>)
    ensures r.Success? <==>
      Present(env, SolaceHost) && Present(env, SolaceVpn) && Present(env, SolaceUsername) && Present(env, SolacePassword)
    ensures r.Success? ==>
      r.value == Settings(env[SolaceHost], env[SolaceVpn], env[SolaceUsername], env[SolacePassword])
    ensures r.Failure? ==>
      exists i :: 0 <= i < |EnvOrder| && !Present(env, EnvOrder[i]) &&
        (forall j :: 0 <= j < i ==> Present(env, EnvOrder[j])) &&
        r.error == VarName(EnvOrder[i]) + " env required"
  {
    match Required(SolaceHost, env)
    case Failure(e) =>
      assert !Present(env, EnvOrder[0]);
      Failure(e)
    case Success(url) =>
      match Required(SolaceVpn, env)
      case Failure(e) =>
        assert !Present(env, EnvOrder[1]);
        Failure(e)
      case Success(vpnName) =>
        match Required(SolaceUsername, env)
        case Failure(e) =>
          assert !Present(env, EnvOrder[2]);
          Failure(e)
        case Success(userName) =>
          match Required(SolacePassword, env)
          case Failure(e) =>
            assert !Present(env, EnvOrder[3]);
            Failure(e)
          case Success(password) =>
            Success(Settings(url, vpnName, userName, password))
  }

  /** The child-id level of every subscription. */
  const Wildcard: string := ">"

  /** The kinds the mesh subscribes to, in subscription order. */
  const SubscribedKinds: seq<TopicKind> := [ChallengeCreated, ContentRequested, ProgressLogged]

  /**
   * The topics the mesh subscribes to: the challenge/created,
   * content/requested and progress/logged builders applied to `'>'`. Each is
   * itself a well-formed topic of its kind.
   */
  function Subscriptions(): (r: seq<string>)
    ensures |r| == |SubscribedKinds|
    ensures forall i :: 0 <= i < |r| ==> ParseTopic(r[i]) == Some(ParsedTopic(Wildcard, SubscribedKinds[i]))
  {
    SubscriptionsFor(Wildcard)
  }

  /** The subscription list for any child-id level the pattern accepts. */
  function SubscriptionsFor(w: string): (r: seq<string>)
    requires ValidChildId(w)
    ensures |r| == |SubscribedKinds|
    ensures forall i :: 0 <= i < |r| ==> ParseTopic(r[i]) == Some(ParsedTopic(w, SubscribedKinds[i]))
  {
    ParseTopicComplete(w, ChallengeCreated);
    ParseTopicComplete(w, ContentRequested);
    ParseTopicComplete(w, ProgressLogged);
    [TopicChallengeCreated(w), TopicContentRequested(w), TopicProgressLogged(w)]
  }

  /** The subscription loop: one `subscribe` per topic, in list order. */
  method SubscribeAll(bus: Bus)
    modifies bus`subscriptions
    ensures bus.subscriptions == old(bus.subscriptions) + Subscriptions()
  {
    var topics := Subscriptions();
    for i := 0 to |topics|
      invariant bus.subscriptions == old(bus.subscriptions) + topics[..i]
    {
      bus.Subscribe(topics[i]);
    }
  }

  /**
   * One inbound message: its destination, its attachment as decoded text
   * (`None` when there is none) and the reply the compose endpoint gives if
   * the content agent calls it for this message.
   */
  datatype Inbound = Inbound(topic: string, attachment: Option<string>, reply: ComposeReply)

  /** The text handed to `JSON.parse`: a missing attachment reads as `'{}'`. */
  function PayloadText(attachment: Option<string>): string
  {
    match attachment
    case None => "{}"
    case Some(text) => text
  }

  /** What `JSON.parse` makes of the message's payload, `None` when it throws. */
  function Payload(msg: Inbound, parse: string -> Option<Json>): Option<Json>
  {
    parse(PayloadText(msg.attachment))
  }

  /**
   * What the handler did with one message: dropped it because the payload
   * did not parse, or ran the three agents, with the planner's log note, the
   * content agent's compose request and whether the catch logged an error.
   */
  datatype Delivery = Dropped | Handled(plan: Option<Planner.PlanNote>, request: Option<Json>, caught: bool)

  /** The mesh state a message can change: the streak counters and the outbox. */
  datatype MeshState = MeshState(streaks: map<string, nat>, sent: seq<Message>)

  /** Content and analytics never both answer one envelope: their kinds differ. */
  lemma OneAgentReplies(counts: map<string, nat>, topic: string, data: Json, reply: ComposeReply)
    ensures ContentOut(topic, data, reply) == [] || RewardsAfter(counts, topic, data) == []
  {
    if ContentOut(topic, data, reply) != [] && RewardsAfter(counts, topic, data) != [] {
      TopicForInjective(ParseTopic(topic).value.childId, ContentRequested, Winner(topic, data).value, ProgressLogged);
      assert false;
    }
  }

  /**
   * The handler's verdict on `msg` in state `s`. Only a reward due on a
   * session that is down reaches the catch.
   */
  function Dispatch(s: MeshState, msg: Inbound, parse: string -> Option<Json>, up: bool): (d: Delivery)
    ensures d.Dropped? <==> Payload(msg, parse).None?
    ensures d.Handled? && d.caught ==> !up && Winner(msg.topic, Payload(msg, parse).value).Some?
  {
    match Payload(msg, parse)
    case None => Dropped
    case Some(data) =>
      Handled(
        Planner.Handle(msg.topic, data),
        ComposeCall(msg.topic, data),
        !up && RewardsAfter(s.streaks, msg.topic, data) != [])
  }

  /**
   * A publish that throws (the session is down) is caught after the planner
   * and content agents have run and after analytics has counted: every agent
   * still sees the message and the counters move exactly as on a live session.
   */
  lemma PublishFailureIsolated(s: MeshState, msg: Inbound, parse: string -> Option<Json>)
    requires Payload(msg, parse).Some?
    ensures Dispatch(s, msg, parse, false).Handled?
    ensures Dispatch(s, msg, parse, false).plan == Dispatch(s, msg, parse, true).plan
    ensures Dispatch(s, msg, parse, false).request == Dispatch(s, msg, parse, true).request
    ensures Step(s, msg, parse, false).streaks == Step(s, msg, parse, true).streaks
    ensures Step(s, msg, parse, false).sent == s.sent
  {
    assert s.sent + [] + [] == s.sent;
  }

  /**
   * The state after the handler runs on `msg`: a payload that does not parse
   * changes nothing; otherwise the counters only grow and at most one
   * message is appended to the outbox.
   */
  function Step(s: MeshState, msg: Inbound, parse: string -> Option<Json>, up: bool): (r: MeshState)
    ensures Payload(msg, parse).None? ==> r == s
    ensures |s.sent| <= |r.sent| <= |s.sent| + 1 && r.sent[..|s.sent|] == s.sent
    ensures forall k :: CountOf(r.streaks, k) >= CountOf(s.streaks, k)
  {
    match Payload(msg, parse)
    case None => s
    case Some(data) =>
      OneAgentReplies(s.streaks, msg.topic, data, msg.reply);
      MeshState(
        CountsAfter(s.streaks, msg.topic, data),
        s.sent + Delivered(up, ContentOut(msg.topic, data, msg.reply))
               + Delivered(up, RewardsAfter(s.streaks, msg.topic, data)))
  }

  /**
   * The state after the handler has run on every message of `msgs`, in
   * delivery order: an exception in one message never stops the next.
   */
  function RunAll(s: MeshState, msgs: seq<Inbound>, parse: string -> Option<Json>, up: bool): (r: MeshState)
    ensures |s.sent| <= |r.sent| <= |s.sent| + |msgs| && r.sent[..|s.sent|] == s.sent
    ensures forall k :: CountOf(r.streaks, k) >= CountOf(s.streaks, k)
    decreases |msgs|
  {
    if msgs == [] then s
    else
      var before := RunAll(s, msgs[..|msgs| - 1], parse, up);
      var r := Step(before, msgs[|msgs| - 1], parse, up);
      assert r.sent[..|s.sent|] == before.sent[..|before.sent|][..|s.sent|];
      r
  }

  /** A message the content agent ignores: its topic is not a content request. */
  predicate AsksNoContent(msg: Inbound, parse: string -> Option<Json>)
    requires Payload(msg, parse).Some?
  {
    ComposeCall(msg.topic, Payload(msg, parse).value).None?
  }

  /**
   * A message without an attachment is parsed from `{}`. When that gives the
   * empty object the message is handled, not dropped, nothing is caught, no
   * counter moves and nothing is published unless a compose request is made.
   */
  lemma MissingAttachment(s: MeshState, topic: string, reply: ComposeReply, parse: string -> Option<Json>, up: bool)
    requires parse("{}") == Some(Obj(map[]))
    ensures var m := Inbound(topic, None, reply);
      var d := Dispatch(s, m, parse, up);
      d.Handled? && !d.caught && Step(s, m, parse, up).streaks == s.streaks &&
      (d.request.None? ==> Step(s, m, parse, up) == s)
  {
    var m := Inbound(topic, None, reply);
    assert Payload(m, parse) == Some(Obj(map[]));
    assert !IsWin(Obj(map[]));
    assert s.sent + Delivered(up, []) + Delivered(up, []) == s.sent;
  }

  /** A run over one more message is one more step. */
  lemma RunAllSnoc(s: MeshState, msgs: seq<Inbound>, i: nat, parse: string -> Option<Json>, up: bool)
    requires i < |msgs|
    ensures RunAll(s, msgs[..i + 1], parse, up) == Step(RunAll(s, msgs[..i], parse, up), msgs[i], parse, up)
  {
    assert msgs[..i + 1][..i] == msgs[..i];
  }

  /** The envelopes the agents see for `msgs`, when every payload parses. */
  function Decoded(msgs: seq<Inbound>, parse: string -> Option<Json>): (es: seq<Envelope>)
    requires forall i :: 0 <= i < |msgs| ==> Payload(msgs[i], parse).Some?
    ensures |es| == |msgs|
    ensures forall i :: 0 <= i < |msgs| ==>
      es[i] == Envelope(msgs[i].topic, Payload(msgs[i], parse).value)
    decreases |msgs|
  {
    if msgs == [] then []
    else
      var last := msgs[|msgs| - 1];
      Decoded(msgs[..|msgs| - 1], parse) + [Envelope(last.topic, Payload(last, parse).value)]
  }

  /**
   * On a stream of parsable messages that ask for no content, the mesh does
   * what the analytics agent alone does: same counters, same rewards.
   */
  lemma {:induction false} RunMatchesReplay(s: MeshState, msgs: seq<Inbound>, parse: string -> Option<Json>, up: bool)
    requires forall i :: 0 <= i < |msgs| ==> Payload(msgs[i], parse).Some?
    requires forall i :: 0 <= i < |msgs| ==> AsksNoContent(msgs[i], parse)
    ensures RunAll(s, msgs, parse, up).streaks == Replay(s.streaks, Decoded(msgs, parse)).counts
    ensures RunAll(s, msgs, parse, up).sent == s.sent + Delivered(up, Replay(s.streaks, Decoded(msgs, parse)).rewards)
    decreases |msgs|
  {
    if msgs != [] {
      var n := |msgs|;
      var front := msgs[..n - 1];
      var msg := msgs[n - 1];
      assert Payload(msg, parse).Some? && AsksNoContent(msg, parse);
      RunMatchesReplay(s, front, parse, up);
      var t := Replay(s.streaks, Decoded(front, parse));
      var before := RunAll(s, front, parse, up);
      var data := Payload(msg, parse).value;
      var out := RewardsAfter(t.counts, msg.topic, data);
      var events := Decoded(msgs, parse);
      assert events == Decoded(front, parse) + [Envelope(msg.topic, data)];
      assert events[..n - 1] == Decoded(front, parse);
      assert Replay(s.streaks, events) == Tally(CountsAfter(t.counts, msg.topic, data), t.rewards + out);
      StepAsAnalytics(before, msg, parse, up);
      calc {
        RunAll(s, msgs, parse, up).sent;
        Step(before, msg, parse, up).sent;
        before.sent + Delivered(up, out);
        s.sent + Delivered(up, t.rewards) + Delivered(up, out);
        { DeliveredAppends(s.sent, up, t.rewards, out); }
        s.sent + Delivered(up, t.rewards + out);
      }
    }
  }

  /** A parsed message that asks for no content changes only what analytics changes. */
  lemma StepAsAnalytics(before: MeshState, msg: Inbound, parse: string -> Option<Json>, up: bool)
    requires Payload(msg, parse).Some? && AsksNoContent(msg, parse)
    ensures
      var data := Payload(msg, parse).value;
      Step(before, msg, parse, up) ==
        MeshState(
          CountsAfter(before.streaks, msg.topic, data),
          before.sent + Delivered(up, RewardsAfter(before.streaks, msg.topic, data)))
  {
    var data := Payload(msg, parse).value;
    assert ContentOut(msg.topic, data, msg.reply) == [];
    assert before.sent + Delivered(up, []) == before.sent;
  }

  /** Delivering two batches one after the other is delivering their concatenation. */
  lemma DeliveredAppends(sent: seq<Message>, up: bool, a: seq<Message>, b: seq<Message>)
    ensures sent + Delivered(up, a) + Delivered(up, b) == sent + Delivered(up, a + b)
  {
    if up {
      assert sent + a + b == sent + (a + b);
    }
  }

  /**
   * End to end: from a zero counter, N win messages for one child leave the
   * counter at N and every other counter alone and, on a live session, send
   * exactly N / 3 rewards with streaks 3, 6, 9, ... in order; on a session
   * that is down they send nothing.
   */
  lemma WinsThroughMesh(s: MeshState, childId: string, msgs: seq<Inbound>, parse: string -> Option<Json>, up: bool)
    requires ValidChildId(childId) && CountOf(s.streaks, childId) == 0
    requires forall i :: 0 <= i < |msgs| ==>
      msgs[i].topic == TopicProgressLogged(childId) &&
      Payload(msgs[i], parse).Some? && IsWin(Payload(msgs[i], parse).value)
    ensures CountOf(RunAll(s, msgs, parse, up).streaks, childId) == |msgs|
    ensures forall k :: k != childId ==> CountOf(RunAll(s, msgs, parse, up).streaks, k) == CountOf(s.streaks, k)
    ensures !up ==> RunAll(s, msgs, parse, up).sent == s.sent
    ensures up ==> |RunAll(s, msgs, parse, up).sent| == |s.sent| + |msgs| / 3
    ensures up ==> forall i :: |s.sent| <= i < |RunAll(s, msgs, parse, up).sent| ==>
      RunAll(s, msgs, parse, up).sent[i] == RewardMessage(childId, 3 * (i - |s.sent| + 1))
  {
    forall i | 0 <= i < |msgs|
      ensures Payload(msgs[i], parse).Some? && AsksNoContent(msgs[i], parse)
    {
      assert msgs[i].topic == TopicFor(childId, ProgressLogged);
      if ComposeCall(msgs[i].topic, Payload(msgs[i], parse).value).Some? {
        var c :| ValidChildId(c) && msgs[i].topic == TopicFor(c, ContentRequested);
        TopicForInjective(c, ContentRequested, childId, ProgressLogged);
        assert false;
      }
    }
    RunMatchesReplay(s, msgs, parse, up);
    WinStreak(s.streaks, childId, Decoded(msgs, parse));
    if !up {
      assert s.sent + [] == s.sent;
    }
  }

  /** The verdicts so far, extended with the verdict on message `i`. */
  function Record(ds: seq<Delivery>, d: Delivery, msgs: seq<Inbound>, i: nat, parse: string -> Option<Json>): (r: seq<Delivery>)
    requires i == |ds| < |msgs|
    requires forall j :: 0 <= j < i ==> (ds[j].Dropped? <==> Payload(msgs[j], parse).None?)
    requires d.Dropped? <==> Payload(msgs[i], parse).None?
    ensures |r| == i + 1
    ensures forall j :: 0 <= j <= i ==> (r[j].Dropped? <==> Payload(msgs[j], parse).None?)
  {
    ds + [d]
  }

  /** The wiring of `main`: one bus shared by the agents. */
  class Mesh {
    const bus: Bus
    const content: ContentAgent
    const analytics: AnalyticsAgent

    /** The counters and the outbox, as one value. */
    ghost function State(): MeshState
      reads bus, analytics.streaks
    {
      MeshState(analytics.streaks.counts, bus.sent)
    }

    /** Both publishing agents publish on this mesh's bus. */
    predicate Wired()
    {
      content.bus == bus && analytics.bus == bus
    }

    constructor (bus: Bus, streaks: StreakTable)
      ensures this.bus == bus && analytics.streaks == streaks && Wired()
    {
      this.bus := bus;
      content := new ContentAgent(bus);
      analytics := new AnalyticsAgent(bus, streaks);
    }

    /**
     * The MESSAGE handler: parse the payload, then run planner, content and
     * analytics on the same topic and data. A payload that fails to parse is
     * logged and dropped; an exception from analytics' publish is caught and
     * logged. Planner and content cannot throw synchronously, so every agent
     * sees every parsed message.
     */
    method OnMessage(msg: Inbound, parse: string -> Option<Json>) returns (d: Delivery)
      requires Wired()
      modifies bus`sent, analytics.streaks`counts
      ensures d == Dispatch(old(State()), msg, parse, bus.up)
      ensures State() == Step(old(State()), msg, parse, bus.up)
    {
      var payload := PayloadText(msg.attachment);
      var parsed := parse(payload);
      if parsed.None? {
        return Dropped;
      }
      var data := parsed.value;
      var plan := Planner.Handle(msg.topic, data);
      var request := content.Handle(msg.topic, data, msg.reply);
      var threw := analytics.Handle(msg.topic, data);
      d := Handled(plan, request, threw);
    }

    /** The session delivering `msgs` one after another to the handler. */
    method Run(msgs: seq<Inbound>, parse: string -> Option<Json>) returns (ds: seq<Delivery>)
      requires Wired()
      modifies bus`sent, analytics.streaks`counts
      ensures |ds| == |msgs|
      ensures forall i :: 0 <= i < |msgs| ==> (ds[i].Dropped? <==> Payload(msgs[i], parse).None?)
      ensures State() == RunAll(old(State()), msgs, parse, bus.up)
    {
      ds := [];
      for i := 0 to |msgs|
        invariant |ds| == i
        invariant forall j :: 0 <= j < i ==> (ds[j].Dropped? <==> Payload(msgs[j], parse).None?)
        invariant State() == RunAll(old(State()), msgs[..i], parse, bus.up)
      {
        var d := OnMessage(msgs[i], parse);
        RunAllSnoc(old(State()), msgs, i, parse, bus.up);
        ds := Record(ds, d, msgs, i, parse);
      }
      assert msgs[..|msgs|] == msgs;
    }
  }
}
