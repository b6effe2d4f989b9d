# TinyWins agent mesh and dashboard store, modelled in Dafny

TinyWins is a small event-driven app for rewarding children's progress on
challenges. The core is modelled here, in three parts.

**Topic scheme** (`topics.dfy`). It has five topic builders of the form
`tinywins/{childId}/{kind}` and the parser `parseTopic`, which inverts
them. The parser's regular expression `^tinywins\/(.+?)\/(kind|...)$` is
modelled as a lazy left-to-right search for the child-id group. The model
proves that the search:
- accepts exactly the built topics whose child id is non-empty and has no
  JavaScript line terminator;
- returns that child id and kind;
- sees builders that never collide, for any child ids.

**Agent mesh** (`bus.dfy`, `planner.dfy`, `analytics.dfy`, `content.dfy`,
`mesh.dfy`).
- **Bus.** The `Bus` is a class with an outbox and a subscription list.
  `publish` throws when the transport session is down.
- **Planner.** The planner agent is a pure filter that only logs.
- **Analytics.** The analytics agent counts wins per child in the
  process-wide streak map, and publishes a `bronze-star` reward at every
  multiple of three.
- **Content.** The content agent sends a compose request for
  `content/requested`. It publishes the response body with the inbound
  `childId` as `content/generated`.
- **Process.** `mesh.dfy` models the process itself:
  - the `required` environment checks;
  - the three subscriptions and the loop that makes them;
  - the MESSAGE handler, which parses the payload and feeds planner, content
    and analytics in that order inside one try/catch;
  - a run of the handler over a sequence of messages.
- **Effect of one message.** Each agent method is proved against a
  specification function (`CountsAfter`, `RewardsAfter`, `ContentOut`,
  `Step`). Lemmas connect the three agents: at most one envelope goes out
  per message, counters never decrease, and an N-win stream yields ⌊N/3⌋
  rewards with streaks 3, 6, 9, … .
- **Scenarios.** `scenarios.dfy` proves the end-to-end scenarios on
  concrete envelopes.

**Dashboard store** (`store.dfy`). A class holds the children, the
challenges, the progress tallies and the loading flag. Its three actions
take the outcome of their HTTP request as a parameter.

The model follows the code where the code and the system's documented
intent differ. Three divergences matter:
- `parseTopic` accepts a child id that contains `/` (the lazy group extends
  past it). See `Topics.SlashInChildIdAccepted`.
- The content agent never inspects the response status. Any body that
  parses is published, including the body of an error response. See
  `Content.StatusIgnored`.
- The handler wraps all three agents in a single `try`. An exception would
  skip the agents after the one that threw. Only analytics, the last agent,
  can throw synchronously: its publish can fail. Content is `async` and
  catches everything, and the planner only logs. So no agent is ever
  skipped. See `Mesh.PublishFailureIsolated`.

## Model

| member | source | states |
|---|---|---|
| Topics.TopicFor | packages/shared/src/topics.ts:11-29 | every builder yields `tinywins/` + child id + `/` + the kind's text |
| Topics.BuilderLayout | packages/shared/src/topics.ts:11-29 | each of the five named builders (`TopicChallengeCreated`, `TopicProgressLogged`, `TopicContentRequested`, `TopicContentGenerated`, `TopicRewardUnlocked`) puts the child id between `tinywins/` and `/` + its kind text |
| Topics.KindOf | packages/shared/src/topics.ts:41 | the alternation followed by `$` accepts a suffix exactly when it is one of the five kind texts, and yields that kind |
| Topics.MatchChildId | packages/shared/src/topics.ts:41 | a match of the lazy group splits the rest into a valid child id, `/` and a kind text |
| Topics.ParseTopic | packages/shared/src/topics.ts:38-45 | a successful parse yields a valid child id and kind whose built topic is the input |
| Topics.KindTextShape | packages/shared/src/topics.ts:31-36 | every kind text is 15 or 17 characters long and has no `/` at index 1 |
| Topics.KindNotNested | packages/shared/src/topics.ts:41 | no kind text has the form `x/kind`, so the alternation cannot match a longer tail |
| Topics.MatchFindsChildId | packages/shared/src/topics.ts:41 | the lazy search started at any earlier position stops at the built child id |
| Topics.ParseTopicComplete | packages/shared/src/topics.ts:11-45 | round trip: parsing a built topic with a valid child id gives back that child id and kind |
| Topics.ParseTopicCharacterized | packages/shared/src/topics.ts:38-45 | `parseTopic` returns `(c, k)` if and only if `c` is valid and the topic is the one built from `(c, k)` |
| Topics.ParsesAsKind | packages/shared/src/topics.ts:38-45 | a topic parses with kind `k` if and only if it is built with kind `k` from some valid child id |
| Topics.BuildersRoundTrip | packages/shared/src/topics.ts:11-45 | each of the five named builders round-trips through `parseTopic` |
| Topics.TopicForInjective | packages/shared/src/topics.ts:11-29 | two built topics are equal only when their child ids and kinds are equal, for any child ids |
| Topics.SplitInjective | packages/shared/src/topics.ts:41 | `c/kind` determines both `c` and the kind |
| Topics.ForeignTopicRejected | packages/shared/src/topics.ts:41-43 | a topic not starting with `tinywins/` parses to null |
| Topics.NotEvenCloseRejected | packages/shared/src/topics.ts:41-43 | `not-even-close` parses to null |
| Topics.UnknownKindRejected | packages/shared/src/topics.ts:41-43 | `tinywins/abc/unknown/thing` parses to null |
| Topics.EmptyChildIdRejected | packages/shared/src/topics.ts:41-43 | `tinywins//challenge/created` parses to null, because the group needs one character |
| Topics.TopicLayout | packages/shared/src/topics.ts:11-29 | in a built topic the child id sits right after `tinywins/` and is followed by `/` |
| Topics.LineTerminatorRejected | packages/shared/src/topics.ts:41-43 | `tinywins/a\nb/challenge/created` parses to null, because `.` refuses the newline |
| Topics.InvalidChildIdRejected | packages/shared/src/topics.ts:41-43 | every topic built from an empty child id, or one holding `\n`, `\r`, U+2028 or U+2029, parses to null, for every kind |
| Topics.SlashInChildIdAccepted | packages/shared/src/topics.ts:41-44 | `tinywins/a/b/challenge/created` parses to child id `a/b` |
| BusSession.Bus.constructor | services/agent-mesh/src/main.ts:38-50 | a new session has sent nothing and subscribed to nothing |
| BusSession.Bus.Publish | services/agent-mesh/src/main.ts:53-60 | one message to the topic carrying the data is appended when the session is up; otherwise publish throws and nothing is sent |
| BusSession.Bus.Subscribe | services/agent-mesh/src/main.ts:72-74 | the topic is appended to the subscriptions |
| Planner.Handle | services/agent-mesh/src/agents/planner.ts:7-15 | logs exactly for `challenge/created` topics of a valid child, naming that child and `data?.id` |
| Analytics.StreakTable.constructor | services/agent-mesh/src/agents/analytics.ts:4 | the streak map starts empty |
| Analytics.Winner | services/agent-mesh/src/agents/analytics.ts:10-12 | a win is counted exactly for a `progress/logged` topic with `type` equal to `win`, for the topic's child |
| Analytics.CountsAfter | services/agent-mesh/src/agents/analytics.ts:13-14 | a win raises the child's counter by one from `get(..) \|\| 0`, and leaves every other counter alone; a non-win changes nothing |
| Analytics.RewardsAfter | services/agent-mesh/src/agents/analytics.ts:15-18 | at most one reward; there is one exactly when the new count is a multiple of 3, carrying child id, streak and `bronze-star` |
| Analytics.Replay | services/agent-mesh/src/agents/analytics.ts:9-19 | over any event stream, no counter ever decreases |
| Analytics.RewardsAtMultiplesOfThree | services/agent-mesh/src/agents/analytics.ts:13-17 | over any event stream, every reward published is for some child at a positive multiple of 3 wins |
| Analytics.WinStep | services/agent-mesh/src/agents/analytics.ts:10-17 | one win for a child raises its counter by one, and a reward is due exactly when the new count is a multiple of 3 |
| Analytics.WinStreak | services/agent-mesh/src/agents/analytics.ts:9-19 | N wins for one child from zero give counter N, other counters unchanged, and ⌊N/3⌋ rewards with streaks 3, 6, 9, … in order |
| Analytics.OnlyWinFlagMatters | services/agent-mesh/src/agents/analytics.ts:12 | payloads that agree on being a win have the same effect; the payload's own `childId` is ignored |
| Analytics.AnalyticsAgent.constructor | services/agent-mesh/src/agents/analytics.ts:7 | the agent publishes on the given bus and counts in the shared streak map |
| Analytics.AnalyticsAgent.Handle | services/agent-mesh/src/agents/analytics.ts:9-19 | the counters become `CountsAfter`; the reward goes out when the session is up; it throws exactly when a reward is due on a down session, after the count is written |
| Content.ComposeRequest | services/agent-mesh/src/agents/content.ts:16-20 | the request body holds only `childId`, `kind` and `prompt`, each equal to the inbound field |
| Content.ComposeCall | services/agent-mesh/src/agents/content.ts:8-20 | a compose request is made exactly for a `content/requested` topic of a valid child with a non-null payload |
| Content.GeneratedPayload | services/agent-mesh/src/agents/content.ts:24 | the published object has every body field except `childId`, which is the inbound `childId` |
| Content.ContentOut | services/agent-mesh/src/agents/content.ts:7-29 | at most one envelope; there is one exactly when a request was made and its body parsed, and it goes to the same child's `content/generated` |
| Content.StatusIgnored | services/agent-mesh/src/agents/content.ts:22-24 | the outcome does not depend on the HTTP status |
| Content.ContentAgent.constructor | services/agent-mesh/src/agents/content.ts:5 | the agent publishes on the given bus |
| Content.ContentAgent.Handle | services/agent-mesh/src/agents/content.ts:7-29 | returns the request it made and publishes `ContentOut`; a failed publish is caught |
| Mesh.Required | services/agent-mesh/src/main.ts:20-24 | yields the value if and only if it is set and non-empty; otherwise the error names the variable |
| Mesh.SessionSettings | services/agent-mesh/src/main.ts:38-44 | succeeds if and only if all four variables are present, passing their values; otherwise it reports the first missing one in property order |
| Mesh.Subscriptions | services/agent-mesh/src/main.ts:67-71 | three topics; they parse, in order, as child level `>` with kinds challenge/created, content/requested and progress/logged |
| Mesh.SubscriptionsFor | services/agent-mesh/src/main.ts:67-71 | the same for any valid child-id level |
| Mesh.SubscribeAll | services/agent-mesh/src/main.ts:72-74 | the subscriptions grow by exactly that list, in order |
| Mesh.OneAgentReplies | services/agent-mesh/src/main.ts:81-83 | content and analytics never both publish for the same message |
| Mesh.PublishFailureIsolated | services/agent-mesh/src/main.ts:79-86 | with the session down, planner and content still get the message and counters move as on a live session; nothing is sent |
| Mesh.MissingAttachment | services/agent-mesh/src/main.ts:78-80 | a message without an attachment is parsed from the text `{}` (`PayloadText`); that empty object is handled, not dropped, never reaches the catch and moves no counter, and without a compose request it changes nothing |
| Mesh.Dispatch | services/agent-mesh/src/main.ts:77-86 | a message is dropped exactly when its payload fails to parse; the catch is reached only on a session that is down, for a win |
| Mesh.Step | services/agent-mesh/src/main.ts:76-87 | a payload that does not parse changes nothing; otherwise at most one message is appended and counters never decrease |
| Mesh.RunAll | services/agent-mesh/src/main.ts:76-87 | over a message sequence, the outbox is only appended to, at most one message per input, and counters never decrease |
| Mesh.RunAllSnoc | services/agent-mesh/src/main.ts:76-87 | running one more message is one more `Step` on the state reached so far |
| Mesh.Decoded | services/agent-mesh/src/main.ts:77-80 | each envelope pairs the message's topic with its parsed payload |
| Mesh.RunMatchesReplay | services/agent-mesh/src/main.ts:76-87 | on messages that parse and ask for no content, the mesh's counters and outbox equal the analytics replay |
| Mesh.StepAsAnalytics | services/agent-mesh/src/main.ts:80-83 | such a message changes only what the analytics agent changes |
| Mesh.WinsThroughMesh | services/agent-mesh/src/main.ts:76-87 | end to end: N wins for one child give counter N and leave every other counter alone; on a live session exactly ⌊N/3⌋ rewards go out with streaks 3, 6, 9, …, and on a session that is down nothing goes out |
| Mesh.Mesh.constructor | services/agent-mesh/src/main.ts:62-64 | the agents are built over one shared bus |
| Mesh.Mesh.OnMessage | services/agent-mesh/src/main.ts:76-87 | the verdict is `Dispatch` and the new counters and outbox are `Step` |
| Mesh.Mesh.Run | services/agent-mesh/src/main.ts:76-87 | one verdict per message, dropped exactly when the payload fails to parse; the final state is `RunAll` |
| Scenarios.ThreeWinsOneReward | services/agent-mesh/src/agents/analytics.ts:12-17 | three wins for c1 publish exactly one reward for c1 with streak 3 |
| Scenarios.TryThenWin | services/agent-mesh/src/agents/analytics.ts:12-15 | a try then a win leave counter 1 and publish nothing |
| Scenarios.ContentGeneratedForC2 | services/agent-mesh/src/agents/content.ts:16-24 | a c2 request whose compose call gives url and model publishes exactly one `content/generated` for c2 carrying them |
| Scenarios.ContentFailureForC2 | services/agent-mesh/src/agents/content.ts:12-28 | the same request with a failed compose call is made but publishes nothing |
| Scenarios.MalformedContentDropped | services/agent-mesh/src/main.ts:79-86 | an unparseable payload on `content/requested` is dropped, with no request and no envelope |
| Scenarios.NullContentIgnored | services/agent-mesh/src/agents/content.ts:12-27 | a null payload on `content/requested` makes no request and publishes nothing |
| Store.AddProgress | apps/parent-dashboard/src/store.ts:56-57 | the challenge's tally becomes its old value (0 if absent) plus `value`; every other tally is unchanged |
| Store.AddProgressAccumulates | apps/parent-dashboard/src/store.ts:56-57 | adding `a` then `b` equals adding `a + b` |
| Store.AddProgressCommutes | apps/parent-dashboard/src/store.ts:56-57 | additions to the tallies commute |
| Store.MarkCompleted | apps/parent-dashboard/src/store.ts:59-63 | same length and order; challenges with the id become completed, the others are unchanged |
| Store.MarkCompletedStatus | apps/parent-dashboard/src/store.ts:59-63 | a challenge is completed afterwards if and only if it was already, or it carries the id; nothing but the status changes |
| Store.MarkCompletedIdempotent | apps/parent-dashboard/src/store.ts:59-63 | completing twice is completing once |
| Store.DashboardStore.constructor | apps/parent-dashboard/src/store.ts:18-22 | empty lists, empty progress, not loading |
| Store.DashboardStore.CreateChild | apps/parent-dashboard/src/store.ts:23-35 | after a successful response, exactly one child with the returned id is appended and loading ends false; otherwise nothing is appended and loading stays true |
| Store.DashboardStore.CreateChallenge | apps/parent-dashboard/src/store.ts:36-48 | the same, appending one challenge with status active |
| Store.DashboardStore.LogProgress | apps/parent-dashboard/src/store.ts:49-66 | when the POST resolves, the tally grows by `value` (default 1), and a win completes the challenges with that id; children and loading are untouched |
| Store.LogWithoutChallenge | apps/parent-dashboard/src/store.ts:18-66 | creating one child then logging a win with the default value leaves one child, no challenge and a tally of 1 |

## Left out

- The transport session's lifecycle is not modelled: connect, the UP and LOGIN_FAILURE events, the exit on a failed startup, the subscribe flags and timeout, and the broker's `>` wildcard matching. The bus models only send success or failure and the order of subscriptions.
- `JSON.parse`, `JSON.stringify`, `TextEncoder` and `TextDecoder` are parameters or left out. The handler takes the parser as a function from text to an optional value. Published messages carry the value, not its serialised text.
- `fetch` and `res.json()` are inputs: a `ComposeReply` for the content agent, and the parsed body (or its absence) for the store actions.
- Asynchrony is not modelled. The content agent's publish happens within the handling of its own message. In the running system it happens later, and can land after messages that arrived afterwards. The store's actions are modelled one at a time as well. In the running system several can be in flight: each reads the state again after its `await`, a rejected `createChild` leaves `loading` true until a later action succeeds, and the first action to resolve clears `loading` while another is still pending.
- Console logging is not modelled. The planner's log line is returned as a `PlanNote`, and a caught error is reported as a flag.
- JavaScript numbers are modelled as unbounded integers. There is no floating point, NaN or precision loss in the streak counter or the store's tallies.
- Json.Spread: spreading a string or array body is modelled as contributing no fields. JavaScript would copy its index keys.
- Mesh.Mesh.constructor: the planner agent is not a field. It holds no state and never publishes, so it is the pure function `Planner.Handle`.
- Analytics.StreakTable: the module-level map is an object shared by reference between the analytics agents built over it. It is not a hidden global.
- The store's `VITE_WORKER_API_URL` base URL and the request bodies it posts are not modelled. Only the state transitions are.
- Store.AddProgress: the progress object is modelled as a map. In JavaScript it is a plain object, so a key inherited from `Object.prototype` (`constructor`, `toString`, `__proto__`, …) reads a prototype member instead of `undefined`, and the tally becomes a string.
