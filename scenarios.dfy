/**
 * End-to-end runs of the mesh handler on concrete envelopes. `JSON.parse`
 * is a parameter, so each scenario says which value its payload text parses to.
 */
module Scenarios {
  import opened Wrappers
  import opened Json
  import opened Topics
  import opened BusSession
  import opened Content
  import opened Analytics
  import opened Mesh

  function Progress(childId: string, challengeId: string, kind: string): Json
  {
    Obj(map["childId" := Str(childId), "challengeId" := Str(challengeId), "type" := Str(kind)])
  }

  const ImageRequest: Json := Obj(map["childId" := Str("c2"), "kind" := Str("image"), "prompt" := Str("sticker")])

  const ImageBody: Json := Obj(map["url" := Str("https://x/img.png"), "model" := Str("m1")])

  const Empty: MeshState := MeshState(map[], [])

  /** Three wins for c1 publish exactly one reward, with streak 3. */
  lemma ThreeWinsOneReward(parse: string -> Option<Json>, text: string)
    requires parse(text) == Some(Progress("c1", "ch1", "win"))
    ensures
      var m := Inbound(TopicProgressLogged("c1"), Some(text), Unreachable);
      var r := RunAll(Empty, [m, m, m], parse, true);
      CountOf(r.streaks, "c1") == 3 && r.sent == [RewardMessage("c1", 3)]
  {
    var m := Inbound(TopicProgressLogged("c1"), Some(text), Unreachable);
    assert ValidChildId("c1");
    assert IsWin(Progress("c1", "ch1", "win"));
    WinsThroughMesh(Empty, "c1", [m, m, m], parse, true);
    var r := RunAll(Empty, [m, m, m], parse, true);
    assert r.sent[0] == RewardMessage("c1", 3 * (0 - 0 + 1));
  }

  /** A try and then a win: the counter is 1 and nothing is published. */
  lemma TryThenWin(parse: string -> Option<Json>, tryText: string, winText: string, up: bool)
    requires parse(tryText) == Some(Progress("c1", "ch1", "try"))
    requires parse(winText) == Some(Progress("c1", "ch1", "win"))
    ensures
      var msgs := [
        Inbound(TopicProgressLogged("c1"), Some(tryText), Unreachable),
        Inbound(TopicProgressLogged("c1"), Some(winText), Unreachable)];
      var r := RunAll(Empty, msgs, parse, up);
      CountOf(r.streaks, "c1") == 1 && r.sent == []
  {
    assert ValidChildId("c1");
    ParseTopicComplete("c1", ProgressLogged);
    var msgs := [
      Inbound(TopicProgressLogged("c1"), Some(tryText), Unreachable),
      Inbound(TopicProgressLogged("c1"), Some(winText), Unreachable)];
    assert Winner(msgs[0].topic, Progress("c1", "ch1", "try")).None?;
    assert Winner(msgs[1].topic, Progress("c1", "ch1", "win")) == Some("c1");
    var m0, m1 := msgs[0], msgs[1];
    assert AsksNoContent(m0, parse) && AsksNoContent(m1, parse);
    assert RunAll(Empty, msgs[..1], parse, up) == Step(RunAll(Empty, [], parse, up), m0, parse, up) by {
      assert msgs[..1][..0] == [];
    }
    StepAsAnalytics(Empty, m0, parse, up);
    var s1 := Step(Empty, m0, parse, up);
    assert s1 == Empty;
    StepAsAnalytics(s1, m1, parse, up);
    assert CountsAfter(map[], m1.topic, Progress("c1", "ch1", "win")) == map["c1" := 1];
  }

  /**
   * A content request for c2 whose compose call answers with a url and a
   * model: one `content/generated` envelope for c2, carrying both and c2's id.
   */
  lemma ContentGeneratedForC2(parse: string -> Option<Json>, text: string)
    requires parse(text) == Some(ImageRequest)
    ensures
      var m := Inbound(TopicContentRequested("c2"), Some(text), Responded(200, Some(ImageBody)));
      Dispatch(Empty, m, parse, true).request == Some(ImageRequest) &&
      Step(Empty, m, parse, true).sent == [
        Message(TopicContentGenerated("c2"),
          Obj(map["url" := Str("https://x/img.png"), "model" := Str("m1"), "childId" := Str("c2")]))]
  {
    assert ValidChildId("c2");
    ParseTopicComplete("c2", ContentRequested);
    var m := Inbound(TopicContentRequested("c2"), Some(text), Responded(200, Some(ImageBody)));
    assert ComposeRequest(ImageRequest).fields == ImageRequest.fields;
    assert RewardsAfter(map[], m.topic, ImageRequest) == [] by {
      assert !IsWin(ImageRequest);
    }
  }

  /** The same request when the compose call fails: the request is made, nothing is published. */
  lemma ContentFailureForC2(parse: string -> Option<Json>, text: string, up: bool)
    requires parse(text) == Some(ImageRequest)
    ensures
      var m := Inbound(TopicContentRequested("c2"), Some(text), Unreachable);
      Dispatch(Empty, m, parse, up).request.Some? && Step(Empty, m, parse, up) == Empty
  {
    assert ValidChildId("c2");
    ParseTopicComplete("c2", ContentRequested);
    var m := Inbound(TopicContentRequested("c2"), Some(text), Unreachable);
    assert !IsWin(ImageRequest);
  }

  /** A payload that does not parse on a content request is dropped: no request, no envelope. */
  lemma MalformedContentDropped(s: MeshState, parse: string -> Option<Json>, text: string, reply: ComposeReply, up: bool)
    requires parse(text) == None
    ensures
      var m := Inbound(TopicContentRequested("c2"), Some(text), reply);
      Dispatch(s, m, parse, up) == Dropped && Step(s, m, parse, up) == s
  {
  }

  /**
   * A content request whose payload is `null`: the handler's TypeError is
   * caught before the compose call, so nothing is requested or published.
   */
  lemma NullContentIgnored(s: MeshState, parse: string -> Option<Json>, text: string, reply: ComposeReply, up: bool)
    requires parse(text) == Some(Null)
    ensures
      var m := Inbound(TopicContentRequested("c2"), Some(text), reply);
      Dispatch(s, m, parse, up).request == None && Step(s, m, parse, up) == s
  {
    var m := Inbound(TopicContentRequested("c2"), Some(text), reply);
    assert !IsWin(Null);
    assert s.sent + Delivered(up, []) + Delivered(up, []) == s.sent;
  }
}
