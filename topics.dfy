/**
 * The topic scheme: `tinywins/<childId>/<category>/<action>` builders and
 * `parseTopic`, the regular-expression match that reads a topic back.
 */
module Topics {
  import opened Wrappers

  /** The first topic level of every TinyWins topic. */
  const Base: string := "tinywins"

  /** What every topic starts with: the base level and its separator. */
  const Prefix: string := "tinywins/"

  /** The five event kinds, each a fixed `<category>/<action>` suffix. */
  datatype TopicKind =
    | ChallengeCreated
    | ProgressLogged
    | ContentRequested
    | ContentGenerated
    | RewardUnlocked

  /** The wire spelling of a kind. */
  function KindText(k: TopicKind): string
  {
    match k
    case ChallengeCreated => "challenge/created"
    case ProgressLogged => "progress/logged"
    case ContentRequested => "content/requested"
    case ContentGenerated => "content/generated"
    case RewardUnlocked => "reward/unlocked"
  }

  function TopicChallengeCreated(childId: string): string
  {
    Base + "/" + childId + "/challenge/created"
  }

  function TopicProgressLogged(childId: string): string
  {
    Base + "/" + childId + "/progress/logged"
  }

  function TopicContentRequested(childId: string): string
  {
    Base + "/" + childId + "/content/requested"
  }

  function TopicContentGenerated(childId: string): string
  {
    Base + "/" + childId + "/content/generated"
  }

  function TopicRewardUnlocked(childId: string): string
  {
    Base + "/" + childId + "/reward/unlocked"
  }

  /** A builder's template, `base/childId/tail`, reassociated around the child id. */
  lemma Assemble(childId: string, tail: string, kindText: string)
    requires tail == "/" + kindText
    ensures Base + "/" + childId + tail == Prefix + childId + "/" + kindText
  {
    assert Base + "/" == Prefix;
    assert Base + "/" + childId + tail == Prefix + (childId + ("/" + kindText));
  }

  /** The template of each builder, read as prefix, child id, `/` and kind text. */
  lemma BuilderLayout(childId: string, kind: TopicKind)
    ensures kind == ChallengeCreated ==> TopicChallengeCreated(childId) == Prefix + childId + "/" + KindText(kind)
    ensures kind == ProgressLogged ==> TopicProgressLogged(childId) == Prefix + childId + "/" + KindText(kind)
    ensures kind == ContentRequested ==> TopicContentRequested(childId) == Prefix + childId + "/" + KindText(kind)
    ensures kind == ContentGenerated ==> TopicContentGenerated(childId) == Prefix + childId + "/" + KindText(kind)
    ensures kind == RewardUnlocked ==> TopicRewardUnlocked(childId) == Prefix + childId + "/" + KindText(kind)
  {
    var kt := KindText(kind);
    match kind
    case ChallengeCreated =>
      assert "/challenge/created" == "/" + kt;
      Assemble(childId, "/challenge/created", kt);
    case ProgressLogged =>
      assert "/progress/logged" == "/" + kt;
      Assemble(childId, "/progress/logged", kt);
    case ContentRequested =>
      assert "/content/requested" == "/" + kt;
      Assemble(childId, "/content/requested", kt);
    case ContentGenerated =>
      assert "/content/generated" == "/" + kt;
      Assemble(childId, "/content/generated", kt);
    case RewardUnlocked =>
      assert "/reward/unlocked" == "/" + kt;
      Assemble(childId, "/reward/unlocked", kt);
  }

  /** The builder of each kind, applied to `childId`. */
  function TopicFor(childId: string, kind: TopicKind): (t: string)
    ensures t == Prefix + childId + "/" + KindText(kind)
  {
    BuilderLayout(childId, kind);
    match kind
    case ChallengeCreated => TopicChallengeCreated(childId)
    case ProgressLogged => TopicProgressLogged(childId)
    case ContentRequested => TopicContentRequested(childId)
    case ContentGenerated => TopicContentGenerated(childId)
    case RewardUnlocked => TopicRewardUnlocked(childId)
  }

  /** The characters a JavaScript `.` refuses to match (no `s` flag). */
  predicate IsLineTerminator(ch: char)
  {
    ch == '\n' || ch == '\r' || ch == '\U{2028}' || ch == '\U{2029}'
  }

  /** A child id the group `(.+?)` can capture: non-empty, no line terminator. */
  predicate ValidChildId(childId: string)
  {
    |childId| > 0 && forall i :: 0 <= i < |childId| ==> !IsLineTerminator(childId[i])
  }

  /** What a successful match yields. */
  datatype ParsedTopic = ParsedTopic(childId: string, kind: TopicKind)

  /**
   * The alternation `(challenge\/created|...|reward\/unlocked)$`: since it is
   * followed by the end anchor, the rest of the topic must equal a kind.
   */
  function KindOf(s: string): (r: Option<TopicKind>)
    ensures r.Some? ==> KindText(r.value) == s
    ensures forall k :: KindText(k) == s ==> r == Some(k)
  {
    if s == "challenge/created" then Some(ChallengeCreated)
    else if s == "progress/logged" then Some(ProgressLogged)
    else if s == "content/requested" then Some(ContentRequested)
    else if s == "content/generated" then Some(ContentGenerated)
    else if s == "reward/unlocked" then Some(RewardUnlocked)
    else None
  }

  /**
   * The lazy group `(.+?)` followed by `\/` and the kind, run on what follows
   * the prefix: the group first takes `n` characters; if the rest does not
   * match there it takes one character more, and it gives up when a line
   * terminator or the end of the input stops it.
   */
  function MatchChildId(rest: string, n: nat): (r: Option<ParsedTopic>)
    requires 1 <= n
    requires forall i :: 0 <= i < n - 1 && i < |rest| ==> !IsLineTerminator(rest[i])
    ensures r.Some? ==> ValidChildId(r.value.childId)
    ensures r.Some? ==> rest == r.value.childId + "/" + KindText(r.value.kind)
    decreases |rest| + 1 - n
  {
    if n > |rest| then None
    else if IsLineTerminator(rest[n - 1]) then None
    else if n < |rest| && rest[n] == '/' && KindOf(rest[n + 1..]).Some? then
      var r := ParsedTopic(rest[..n], KindOf(rest[n + 1..]).value);
      assert rest == rest[..n] + "/" + rest[n + 1..];
      Some(r)
    else MatchChildId(rest, n + 1)
  }

  /**
   * `topic.match(/^tinywins\/(.+?)\/(kinds)$/)`: the captured child id and
   * kind, or `None` for `null`. A result always rebuilds the topic.
   */
  function ParseTopic(topic: string): (r: Option<ParsedTopic>)
    ensures r.Some? ==> ValidChildId(r.value.childId)
    ensures r.Some? ==> topic == TopicFor(r.value.childId, r.value.kind)
  {
    if |Prefix| <= |topic| && topic[..|Prefix|] == Prefix then
      var r := MatchChildId(topic[|Prefix|..], 1);
      assert topic == topic[..|Prefix|] + topic[|Prefix|..];
      r
    else None
  }

  lemma KindTextShape(k: TopicKind)
    ensures 15 <= |KindText(k)| <= 17 && |KindText(k)| != 16
    ensures KindText(k)[1] != '/'
  {
  }

  /** No kind is another kind preceded by a `/`: every kind has one slash. */
  lemma KindNotNested(x: string, k: TopicKind)
    ensures KindOf(x + "/" + KindText(k)) == None
  {
    var s := x + "/" + KindText(k);
    forall k' ensures KindText(k') != s {
      KindTextShape(k);
      KindTextShape(k');
      if |KindText(k')| == |s| {
        assert |x| == 1;
        assert s[1] == '/';
      }
    }
  }

  /** In `childId/kind` the child id comes first, then `/`, then the kind text. */
  lemma ChildIdLeads(childId: string, kind: TopicKind)
    ensures var rest := childId + "/" + KindText(kind);
      |rest| == |childId| + 1 + |KindText(kind)| &&
      (forall i :: 0 <= i < |childId| ==> rest[i] == childId[i]) &&
      rest[|childId|] == '/' && rest[..|childId|] == childId && rest[|childId| + 1..] == KindText(kind)
  {
  }

  /** A `/` inside the child id is not followed by a whole kind text. */
  lemma NoKindInside(childId: string, kind: TopicKind, n: nat)
    requires n < |childId|
    ensures KindOf((childId + "/" + KindText(kind))[n + 1..]) == None
  {
    assert (childId + "/" + KindText(kind))[n + 1..] == childId[n + 1..] + "/" + KindText(kind);
    KindNotNested(childId[n + 1..], kind);
  }

  /** The lazy group stops exactly at the end of a valid child id. */
  lemma {:induction false} MatchFindsChildId(childId: string, kind: TopicKind, n: nat)
    requires ValidChildId(childId) && 1 <= n <= |childId|
    ensures
      var rest := childId + "/" + KindText(kind);
      (forall i :: 0 <= i < n - 1 && i < |rest| ==> !IsLineTerminator(rest[i])) &&
      MatchChildId(rest, n) == Some(ParsedTopic(childId, kind))
    decreases |childId| - n
  {
    var rest := childId + "/" + KindText(kind);
    ChildIdLeads(childId, kind);
    if n < |childId| {
      if rest[n] == '/' {
        NoKindInside(childId, kind, n);
      }
      MatchFindsChildId(childId, kind, n + 1);
    }
  }

  /** Round trip: parsing a built topic gives back its child id and kind. */
  lemma ParseTopicComplete(childId: string, kind: TopicKind)
    requires ValidChildId(childId)
    ensures ParseTopic(TopicFor(childId, kind)) == Some(ParsedTopic(childId, kind))
  {
    var t := TopicFor(childId, kind);
    assert t[..|Prefix|] == Prefix;
    assert t[|Prefix|..] == childId + "/" + KindText(kind);
    MatchFindsChildId(childId, kind, 1);
  }

  /** `parseTopic` accepts exactly the built topics of valid child ids. */
  lemma ParseTopicCharacterized(topic: string, p: ParsedTopic)
    ensures ParseTopic(topic) == Some(p) <==> ValidChildId(p.childId) && topic == TopicFor(p.childId, p.kind)
  {
    if ValidChildId(p.childId) && topic == TopicFor(p.childId, p.kind) {
      ParseTopicComplete(p.childId, p.kind);
    }
  }

  /** `parseTopic` reports kind `kind` exactly for the topics built for it. */
  lemma ParsesAsKind(topic: string, kind: TopicKind)
    ensures (ParseTopic(topic).Some? && ParseTopic(topic).value.kind == kind)
      <==> exists c :: ValidChildId(c) && topic == TopicFor(c, kind)
  {
    if c :| ValidChildId(c) && topic == TopicFor(c, kind) {
      ParseTopicComplete(c, kind);
    }
  }

  /** Each of the five builders round-trips through `parseTopic`. */
  lemma BuildersRoundTrip(childId: string)
    requires ValidChildId(childId)
    ensures ParseTopic(TopicChallengeCreated(childId)) == Some(ParsedTopic(childId, ChallengeCreated))
    ensures ParseTopic(TopicProgressLogged(childId)) == Some(ParsedTopic(childId, ProgressLogged))
    ensures ParseTopic(TopicContentRequested(childId)) == Some(ParsedTopic(childId, ContentRequested))
    ensures ParseTopic(TopicContentGenerated(childId)) == Some(ParsedTopic(childId, ContentGenerated))
    ensures ParseTopic(TopicRewardUnlocked(childId)) == Some(ParsedTopic(childId, RewardUnlocked))
  {
    ParseTopicComplete(childId, ChallengeCreated);
    ParseTopicComplete(childId, ProgressLogged);
    ParseTopicComplete(childId, ContentRequested);
    ParseTopicComplete(childId, ContentGenerated);
    ParseTopicComplete(childId, RewardUnlocked);
  }

  /** What follows the prefix of a built topic. */
  lemma AfterPrefix(childId: string, kind: TopicKind)
    ensures TopicFor(childId, kind) == Prefix + (childId + "/" + KindText(kind))
    ensures TopicFor(childId, kind)[|Prefix|..] == childId + "/" + KindText(kind)
  {
    var rest := childId + "/" + KindText(kind);
    assert TopicFor(childId, kind) == Prefix + rest;
    assert (Prefix + rest)[|Prefix|..] == rest;
  }

  /**
   * The builders are injective: different (child id, kind) pairs give
   * different topics, for every child id (even an invalid one).
   */
  lemma TopicForInjective(c1: string, k1: TopicKind, c2: string, k2: TopicKind)
    requires TopicFor(c1, k1) == TopicFor(c2, k2)
    ensures c1 == c2 && k1 == k2
  {
    AfterPrefix(c1, k1);
    AfterPrefix(c2, k2);
    SplitInjective(c1, k1, c2, k2);
  }

  /**
   * Sixteen characters from the end of `childId + "/" + kind` stands a `/`
   * exactly when the kind is one of the two short ones.
   */
  lemma SlashBeforeShortKind(childId: string, kind: TopicKind)
    ensures
      var s := childId + "/" + KindText(kind);
      |s| >= 16 && (s[|s| - 16] == '/' <==> |KindText(kind)| == 15)
  {
    var s, t := childId + "/" + KindText(kind), KindText(kind);
    KindTextShape(kind);
    if |t| == 15 {
      assert s[|childId|] == '/';
    } else {
      assert s[|childId| + 2] == t[1];
    }
  }

  /** The text after the prefix determines the child id and the kind. */
  lemma SplitInjective(c1: string, k1: TopicKind, c2: string, k2: TopicKind)
    requires c1 + "/" + KindText(k1) == c2 + "/" + KindText(k2)
    ensures c1 == c2 && k1 == k2
  {
    var t1, t2 := KindText(k1), KindText(k2);
    var s1, s2 := c1 + "/" + t1, c2 + "/" + t2;
    var n := |s1|;
    KindTextShape(k1);
    KindTextShape(k2);
    SlashBeforeShortKind(c1, k1);
    SlashBeforeShortKind(c2, k2);
    assert |t1| == |t2|;
    assert t1 == s1[n - |t1|..] == s2[n - |t2|..] == t2;
    assert KindOf(t1) == Some(k2);
    assert c1 == s1[..|c1|] == s2[..|c2|] == c2;
  }

  /** A topic outside the `tinywins/` namespace never parses. */
  lemma ForeignTopicRejected(topic: string)
    requires |topic| < |Prefix| || topic[..|Prefix|] != Prefix
    ensures ParseTopic(topic) == None
  {
  }

  /** `"not-even-close"` is not a topic. */
  lemma NotEvenCloseRejected()
    ensures ParseTopic("not-even-close") == None
  {
    var t := "not-even-close";
    assert t[..|Prefix|][0] != Prefix[0];
    ForeignTopicRejected(t);
  }

  /** A topic whose last level is not one of the five kinds never parses. */
  lemma UnknownKindRejected()
    ensures ParseTopic("tinywins/abc/unknown/thing") == None
  {
    var t := "tinywins/abc/unknown/thing";
    forall c, k ensures t != TopicFor(c, k) {
      var s, kt := TopicFor(c, k), KindText(k);
      assert s[|s| - 1] == kt[|kt| - 1] == 'd';
      assert t[|t| - 1] == 'g';
    }
  }

  /** The lazy group needs at least one character: an empty child id fails. */
  lemma EmptyChildIdRejected()
    ensures ParseTopic("tinywins//challenge/created") == None
  {
    var t := "tinywins//challenge/created";
    forall c, k | ValidChildId(c) ensures t != TopicFor(c, k) {
      var s := TopicFor(c, k);
      if |s| == |t| {
        assert |c| == 2;
        assert s[|Prefix| + 2] == '/' != t[|Prefix| + 2];
      }
    }
  }

  /** Where the child id and the separating `/` sit in a built topic. */
  lemma TopicLayout(c: string, k: TopicKind)
    ensures |TopicFor(c, k)| == |Prefix| + |c| + 1 + |KindText(k)|
    ensures forall i :: 0 <= i < |c| ==> TopicFor(c, k)[|Prefix| + i] == c[i]
    ensures TopicFor(c, k)[|Prefix| + |c|] == '/'
  {
    AfterPrefix(c, k);
    var rest := c + "/" + KindText(k);
    assert forall i :: 0 <= i < |c| ==> rest[i] == c[i];
    assert rest[|c|] == '/';
  }

  /** A line terminator inside the child id stops `.+?`: no match. */
  lemma LineTerminatorRejected()
    ensures ParseTopic("tinywins/a\nb/challenge/created") == None
  {
    var t := "tinywins/a\nb/challenge/created";
    assert |t| == 30 && t[10] == '\n' && t[14] == 'h';
    forall c, k | ValidChildId(c) ensures t != TopicFor(c, k) {
      TopicLayout(c, k);
      KindTextShape(k);
      var s := TopicFor(c, k);
      if |s| == |t| && |c| == 3 {
        assert s[|Prefix| + 1] == c[1];
        assert !IsLineTerminator(c[1]);
      } else if |s| == |t| {
        assert |c| == 5;
        assert s[|Prefix| + 5] == '/';
      }
    }
  }

  /**
   * Any topic built from a child id the group cannot match (empty, or holding
   * `\n`, `\r`, U+2028 or U+2029) parses to null.
   */
  lemma InvalidChildIdRejected(c: string, k: TopicKind)
    requires !ValidChildId(c)
    ensures ParseTopic(TopicFor(c, k)) == None
  {
    if ParseTopic(TopicFor(c, k)).Some? {
      var p := ParseTopic(TopicFor(c, k)).value;
      TopicForInjective(p.childId, p.kind, c, k);
    }
  }

  /** A child id may contain `/`: the kind is read off the end of the topic. */
  lemma SlashInChildIdAccepted()
    ensures ParseTopic("tinywins/a/b/challenge/created") == Some(ParsedTopic("a/b", ChallengeCreated))
  {
    assert ValidChildId("a/b");
    assert TopicFor("a/b", ChallengeCreated) == "tinywins/a/b/challenge/created";
    ParseTopicComplete("a/b", ChallengeCreated);
  }
}
