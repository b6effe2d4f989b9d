/**
 * The analytics agent: counts each child's wins on `progress/logged` and
 * publishes a `reward/unlocked` envelope at every third one.
 */
module Analytics {
  import opened Wrappers
  import opened Json
  import opened Topics
  import opened BusSession

  /** The one reward tier: every multiple of three unlocks it. */
  const Reward: string := "bronze-star"

  /**
   * The module-level `streaks` map. There is one per process, so every
   * analytics agent built over the same table shares its counters.
   */
  class StreakTable {
    var counts: map<string, nat>

    constructor ()
      ensures counts == map[]
    {
      counts := map[];
    }
  }

  /** `streaks.get(childId) || 0`: an absent child has counted no win. */
  function CountOf(counts: map<string, nat>, childId: string): nat
  {
    if childId in counts then counts[childId] else 0
  }

  /** `data?.type === 'win'`. */
  predicate IsWin(data: Json)
  {
    Get(data, "type") == Some(Str("win"))
  }

  /** The reward envelope for `childId` reaching `streak` wins. */
  function RewardMessage(childId: string, streak: nat): Message
  {
    Message(
      TopicRewardUnlocked(childId),
      Obj(map["childId" := Str(childId), "streak" := Num(streak), "reward" := Str(Reward)]))
  }

  /**
   * The child whose win the envelope records: the child id of a
   * `progress/logged` topic, when the payload is a win.
   */
  function Winner(topic: string, data: Json): (r: Option<string>)
    ensures r.Some? <==> IsWin(data) && ParseTopic(topic).Some? && ParseTopic(topic).value.kind == ProgressLogged
    ensures r.Some? ==> topic == TopicFor(r.value, ProgressLogged)
  {
    match ParseTopic(topic)
    case Some(p) => if p.kind == ProgressLogged && IsWin(data) then Some(p.childId) else None
    case None => None
  }

  /** The counters after `handle(topic, data)`. */
  function CountsAfter(counts: map<string, nat>, topic: string, data: Json): (r: map<string, nat>)
    ensures Winner(topic, data).None? ==> r == counts
    ensures Winner(topic, data).Some? ==>
      var c := Winner(topic, data).value;
      r.Keys == counts.Keys + {c} && CountOf(r, c) == CountOf(counts, c) + 1
    ensures forall k :: Winner(topic, data) != Some(k) ==> CountOf(r, k) == CountOf(counts, k)
  {
    match Winner(topic, data)
    case None => counts
    case Some(c) => counts[c := CountOf(counts, c) + 1]
  }

  /** The envelopes `handle(topic, data)` publishes: none, or one reward. */
  function RewardsAfter(counts: map<string, nat>, topic: string, data: Json): (out: seq<Message>)
    ensures |out| <= 1
    ensures out != [] <==>
      Winner(topic, data).Some? && CountOf(CountsAfter(counts, topic, data), Winner(topic, data).value) % 3 == 0
    ensures out != [] ==>
      var c := Winner(topic, data).value;
      out[0] == RewardMessage(c, CountOf(CountsAfter(counts, topic, data), c))
  {
    match Winner(topic, data)
    case None => []
    case Some(c) =>
      var n := CountOf(counts, c) + 1;
      assert CountOf(CountsAfter(counts, topic, data), c) == n;
      if n % 3 == 0 then [RewardMessage(c, n)] else []
  }

  /** One envelope as an agent receives it: the topic and the parsed payload. */
  datatype Envelope = Envelope(topic: string, data: Json)

  /** The counters and the rewards published so far. */
  datatype Tally = Tally(counts: map<string, nat>, rewards: seq<Message>)

  /**
   * Handling `events` in order, starting from `counts`: the counters after
   * them and the rewards published along the way. Counters never decrease.
   */
  function Replay(counts: map<string, nat>, events: seq<Envelope>): (r: Tally)
    ensures forall k :: CountOf(r.counts, k) >= CountOf(counts, k)
    decreases |events|
  {
    if events == [] then Tally(counts, [])
    else
      var t := Replay(counts, events[..|events| - 1]);
      var e := events[|events| - 1];
      var after := CountsAfter(t.counts, e.topic, e.data);
      assert forall k :: CountOf(after, k) >= CountOf(t.counts, k);
      Tally(after, t.rewards + RewardsAfter(t.counts, e.topic, e.data))
  }

  /** Is `m` the reward for some child reaching a positive multiple of 3 wins? */
  ghost predicate RewardAtMultipleOfThree(m: Message)
  {
    exists c, n: nat :: n > 0 && n % 3 == 0 && m == RewardMessage(c, n)
  }

  /** Every reward ever published carries a positive multiple of 3 as its streak. */
  lemma {:induction false} RewardsAtMultiplesOfThree(counts: map<string, nat>, events: seq<Envelope>)
    ensures forall i :: 0 <= i < |Replay(counts, events).rewards| ==>
      RewardAtMultipleOfThree(Replay(counts, events).rewards[i])
    decreases |events|
  {
    if events != [] {
      var front := events[..|events| - 1];
      RewardsAtMultiplesOfThree(counts, front);
      var t := Replay(counts, front);
      var e := events[|events| - 1];
      var out := RewardsAfter(t.counts, e.topic, e.data);
      var all := Replay(counts, events).rewards;
      assert all == t.rewards + out;
      forall i | 0 <= i < |all|
        ensures RewardAtMultipleOfThree(all[i])
      {
        if i < |t.rewards| {
          assert all[i] == t.rewards[i];
        } else {
          var c := Winner(e.topic, e.data).value;
          var n := CountOf(CountsAfter(t.counts, e.topic, e.data), c);
          assert n == CountOf(t.counts, c) + 1 && n % 3 == 0;
          assert all[i] == out[0] == RewardMessage(c, n);
        }
      }
    }
  }

  /**
   * From a zero counter, N wins for one child leave the counter at N, leave
   * every other child's counter alone, and publish exactly N / 3 rewards
   * with streaks 3, 6, 9, ... in that order.
   */
  lemma {:induction false} WinStreak(counts: map<string, nat>, childId: string, events: seq<Envelope>)
    requires ValidChildId(childId) && CountOf(counts, childId) == 0
    requires forall i :: 0 <= i < |events| ==>
      events[i].topic == TopicProgressLogged(childId) && IsWin(events[i].data)
    ensures CountOf(Replay(counts, events).counts, childId) == |events|
    ensures forall k :: k != childId ==> CountOf(Replay(counts, events).counts, k) == CountOf(counts, k)
    ensures |Replay(counts, events).rewards| == |events| / 3
    ensures forall i :: 0 <= i < |events| / 3 ==>
      Replay(counts, events).rewards[i] == RewardMessage(childId, 3 * (i + 1))
    decreases |events|
  {
    if events != [] {
      var n := |events|;
      var front := events[..n - 1];
      assert forall i :: 0 <= i < n - 1 ==> front[i] == events[i];
      WinStreak(counts, childId, front);
      var t := Replay(counts, front);
      var e := events[n - 1];
      assert Replay(counts, events)
        == Tally(CountsAfter(t.counts, e.topic, e.data), t.rewards + RewardsAfter(t.counts, e.topic, e.data));
      StreakExtends(counts, childId, t, e, n);
    }
  }

  /** One more win extends a streak of n - 1 wins to n, with its reward when n is a multiple of 3. */
  lemma StreakExtends(counts: map<string, nat>, childId: string, t: Tally, e: Envelope, n: nat)
    requires ValidChildId(childId) && e.topic == TopicProgressLogged(childId) && IsWin(e.data)
    requires n > 0 && CountOf(t.counts, childId) == n - 1
    requires forall k :: k != childId ==> CountOf(t.counts, k) == CountOf(counts, k)
    requires |t.rewards| == (n - 1) / 3
    requires forall i :: 0 <= i < (n - 1) / 3 ==> t.rewards[i] == RewardMessage(childId, 3 * (i + 1))
    ensures var after := CountsAfter(t.counts, e.topic, e.data);
      CountOf(after, childId) == n && forall k :: k != childId ==> CountOf(after, k) == CountOf(counts, k)
    ensures var all := t.rewards + RewardsAfter(t.counts, e.topic, e.data);
      |all| == n / 3 && forall i :: 0 <= i < n / 3 ==> all[i] == RewardMessage(childId, 3 * (i + 1))
  {
    WinStep(t.counts, childId, e.topic, e.data);
    RewardsExtend(childId, n, t.rewards, RewardsAfter(t.counts, e.topic, e.data));
  }

  /** One win for `childId`: its counter goes up by one and the reward is due at a multiple of 3. */
  lemma WinStep(counts: map<string, nat>, childId: string, topic: string, data: Json)
    requires ValidChildId(childId) && topic == TopicProgressLogged(childId) && IsWin(data)
    ensures Winner(topic, data) == Some(childId)
    ensures CountsAfter(counts, topic, data) == counts[childId := CountOf(counts, childId) + 1]
    ensures RewardsAfter(counts, topic, data) ==
      if (CountOf(counts, childId) + 1) % 3 == 0 then [RewardMessage(childId, CountOf(counts, childId) + 1)] else []
  {
    assert topic == TopicFor(childId, ProgressLogged);
    ParseTopicComplete(childId, ProgressLogged);
  }

  /** Appending the reward due at the n-th win keeps the rewards at streaks 3, 6, 9, ... */
  lemma RewardsExtend(childId: string, n: nat, before: seq<Message>, out: seq<Message>)
    requires n > 0 && |before| == (n - 1) / 3
    requires forall i :: 0 <= i < |before| ==> before[i] == RewardMessage(childId, 3 * (i + 1))
    requires out == if n % 3 == 0 then [RewardMessage(childId, n)] else []
    ensures |before + out| == n / 3
    ensures forall i :: 0 <= i < n / 3 ==> (before + out)[i] == RewardMessage(childId, 3 * (i + 1))
  {
    var all := before + out;
    forall i | 0 <= i < n / 3 ensures all[i] == RewardMessage(childId, 3 * (i + 1)) {
      if i < |before| {
        assert all[i] == before[i];
      } else {
        assert n % 3 == 0 && i == n / 3 - 1 && 3 * (i + 1) == n;
        assert all[i] == out[0];
      }
    }
  }

  /**
   * Only the topic and whether the payload is a win matter: in particular the
   * payload's own `childId` never names the counter or the reward.
   */
  lemma OnlyWinFlagMatters(counts: map<string, nat>, topic: string, d1: Json, d2: Json)
    requires IsWin(d1) == IsWin(d2)
    ensures CountsAfter(counts, topic, d1) == CountsAfter(counts, topic, d2)
    ensures RewardsAfter(counts, topic, d1) == RewardsAfter(counts, topic, d2)
  {
  }

  /** `AnalyticsAgent`: publishes on `bus` and counts in the shared `streaks`. */
  class AnalyticsAgent {
    const bus: Bus
    const streaks: StreakTable

    constructor (bus: Bus, streaks: StreakTable)
      ensures this.bus == bus && this.streaks == streaks
    {
      this.bus := bus;
      this.streaks := streaks;
    }

    /**
     * `handle(topic, data)`: count a win and publish the reward it unlocks.
     * The counter is written before publishing, so a publish that throws
     * (`threw`) leaves the count in place.
     */
    method Handle(topic: string, data: Json) returns (threw: bool)
      modifies streaks`counts, bus`sent
      ensures streaks.counts == CountsAfter(old(streaks.counts), topic, data)
      ensures bus.sent == old(bus.sent) + Delivered(bus.up, RewardsAfter(old(streaks.counts), topic, data))
      ensures threw <==> RewardsAfter(old(streaks.counts), topic, data) != [] && !bus.up
    {
      threw := false;
      var parsed := ParseTopic(topic);
      if parsed.None? || parsed.value.kind != ProgressLogged || !IsWin(data) {
        assert Winner(topic, data).None?;
        return;
      }
      var childId := parsed.value.childId;
      assert Winner(topic, data) == Some(childId);
      var n := CountOf(streaks.counts, childId) + 1;
      ghost var out := RewardsAfter(streaks.counts, topic, data);
      streaks.counts := streaks.counts[childId := n];
      if n % 3 == 0 {
        assert out == [RewardMessage(childId, n)];
        threw := bus.Publish(TopicRewardUnlocked(childId), RewardMessage(childId, n).data);
      } else {
        assert out == [];
      }
    }
  }
}
