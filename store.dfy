/**
 * The parent dashboard's client-side store: the children and challenges the
 * parent created, the progress tallied per challenge, and a loading flag.
 * Each action posts to the worker API; the outcome of that request is a
 * parameter of the action.
 */
module Store {
  import opened Wrappers
  import opened Json

  datatype Domain = Food | Math | Behavior

  datatype Status = Pending | Active | Completed

  datatype ProgressType = Try | Win | Streak | GameSession | VideoView

  /**
   * A child as the store keeps it. `id` is whatever `const { id }` read from
   * the response body: `None` when the body has no `id`.
   */
  datatype Child = Child(id: Option<Json>, parentId: string, name: string, avatarStyle: string)

  datatype Challenge = Challenge(
    id: Option<Json>, childId: string, domain: Domain, title: string, goal: string, status: Status)

  /** `const { id } = body`: throws (`None`) on a null body, else reads the field. */
  function IdOf(body: Json): (r: Option<Option<Json>>)
    ensures r.None? <==> body.Null?
    ensures r.Some? ==> r.value == Get(body, "id")
  {
    if body.Null? then None else Some(Get(body, "id"))
  }

  /** `state.progress[challengeId] || 0`. */
  function ProgressOf(progress: map<string, int>, challengeId: string): int
  {
    if challengeId in progress then progress[challengeId] else 0
  }

  /** The progress map after adding `value` to one challenge's tally. */
  function AddProgress(progress: map<string, int>, challengeId: string, value: int): (r: map<string, int>)
    ensures r.Keys == progress.Keys + {challengeId}
    ensures ProgressOf(r, challengeId) == ProgressOf(progress, challengeId) + value
    ensures forall k :: k != challengeId ==> ProgressOf(r, k) == ProgressOf(progress, k)
  {
    progress[challengeId := ProgressOf(progress, challengeId) + value]
  }

  /** Two additions to one tally are one addition of their sum. */
  lemma AddProgressAccumulates(progress: map<string, int>, challengeId: string, a: int, b: int)
    ensures AddProgress(AddProgress(progress, challengeId, a), challengeId, b)
      == AddProgress(progress, challengeId, a + b)
  {
  }

  /** Additions commute, so the tallies do not depend on the order of the calls. */
  lemma AddProgressCommutes(progress: map<string, int>, c1: string, a: int, c2: string, b: int)
    ensures AddProgress(AddProgress(progress, c1, a), c2, b) == AddProgress(AddProgress(progress, c2, b), c1, a)
  {
  }

  /** Does this challenge carry the id `ch.id === challengeId` compares against? */
  predicate HasId(ch: Challenge, challengeId: string)
  {
    ch.id == Some(Str(challengeId))
  }

  /**
   * `challenges.map(ch => ch.id === challengeId ? {...ch, status: 'completed'} : ch)`:
   * same length and order; the challenges with that id are completed, the
   * others are untouched.
   */
  function MarkCompleted(challenges: seq<Challenge>, challengeId: string): (r: seq<Challenge>)
    ensures |r| == |challenges|
    ensures forall i :: 0 <= i < |r| ==>
      r[i] == if HasId(challenges[i], challengeId) then challenges[i].(status := Completed) else challenges[i]
    decreases |challenges|
  {
    if challenges == [] then []
    else
      var ch := challenges[0];
      [if HasId(ch, challengeId) then ch.(status := Completed) else ch] + MarkCompleted(challenges[1..], challengeId)
  }

  /** A challenge is completed afterwards exactly when it was already, or carries the id. */
  lemma MarkCompletedStatus(challenges: seq<Challenge>, challengeId: string, i: int)
    requires 0 <= i < |challenges|
    ensures MarkCompleted(challenges, challengeId)[i].status == Completed
      <==> challenges[i].status == Completed || HasId(challenges[i], challengeId)
    ensures MarkCompleted(challenges, challengeId)[i].(status := challenges[i].status) == challenges[i]
  {
  }

  /** Completing the same challenge twice changes nothing more. */
  lemma {:induction false} MarkCompletedIdempotent(challenges: seq<Challenge>, challengeId: string)
    ensures MarkCompleted(MarkCompleted(challenges, challengeId), challengeId) == MarkCompleted(challenges, challengeId)
  {
    var once := MarkCompleted(challenges, challengeId);
    var twice := MarkCompleted(once, challengeId);
    assert |twice| == |once|;
    forall i | 0 <= i < |once| ensures twice[i] == once[i] {
      assert HasId(once[i], challengeId) == HasId(challenges[i], challengeId);
    }
  }

  /** The store's fields, updated in place by its actions. */
  class DashboardStore {
    var children: seq<Child>
    var challenges: seq<Challenge>
    var progress: map<string, int>
    var loading: bool

    /** The initial state: nothing created, nothing logged, not loading. */
    constructor ()
      ensures children == [] && challenges == [] && progress == map[] && loading == false
    {
      children := [];
      challenges := [];
      progress := map[];
      loading := false;
    }

    /**
     * `createChild`. `response` is the parsed response body, `None` when the
     * request or `res.json()` rejects. The flag goes up first; on a rejected
     * request or a null body the action fails and leaves it up. Otherwise one
     * child is appended and the flag goes down.
     */
    method CreateChild(parentId: string, name: string, avatarStyle: string, response: Option<Json>)
      returns (ok: bool)
      modifies this`children, this`loading
      ensures ok <==> response.Some? && !response.value.Null?
      ensures children == if ok
        then old(children) + [Child(Get(response.value, "id"), parentId, name, avatarStyle)]
        else old(children)
      ensures loading == !ok
    {
      loading := true;
      if response.None? {
        return false;
      }
      var id := IdOf(response.value);
      if id.None? {
        return false;
      }
      children := children + [Child(id.value, parentId, name, avatarStyle)];
      loading := false;
      ok := true;
    }

    /**
     * `createChallenge`: like `createChild`, appending one challenge whose
     * status is `'active'`.
     */
    method CreateChallenge(childId: string, domain: Domain, title: string, goal: string, response: Option<Json>)
      returns (ok: bool)
      modifies this`challenges, this`loading
      ensures ok <==> response.Some? && !response.value.Null?
      ensures challenges == if ok
        then old(challenges) + [Challenge(Get(response.value, "id"), childId, domain, title, goal, Active)]
        else old(challenges)
      ensures loading == !ok
    {
      loading := true;
      if response.None? {
        return false;
      }
      var id := IdOf(response.value);
      if id.None? {
        return false;
      }
      challenges := challenges + [Challenge(id.value, childId, domain, title, goal, Active)];
      loading := false;
      ok := true;
    }

    /**
     * `logProgress`, with `value` defaulting to 1. `delivered` says whether the
     * POST resolved; if it rejected, nothing changes. Otherwise the
     * challenge's tally grows by `value`, and a win completes the challenge.
     * Neither `children` nor `loading` is touched.
     */
    method LogProgress(childId: string, challengeId: string, kind: ProgressType, delivered: bool, value: int := 1)
      modifies this`progress, this`challenges
      ensures progress == if delivered then AddProgress(old(progress), challengeId, value) else old(progress)
      ensures challenges == if delivered && kind == Win
        then MarkCompleted(old(challenges), challengeId)
        else old(challenges)
    {
      if !delivered {
        return;
      }
      var current := ProgressOf(progress, challengeId);
      var updated := progress[challengeId := current + value];
      var next := challenges;
      if kind == Win {
        next := MarkCompleted(challenges, challengeId);
      }
      progress, challenges := updated, next;
    }
  }

  /**
   * From a fresh store, creating a child and logging a win on a challenge it
   * never created leaves the child, a tally of 1, and no challenge.
   */
  method LogWithoutChallenge() returns (s: DashboardStore)
    ensures |s.children| == 1 && s.challenges == [] && ProgressOf(s.progress, "ch1") == 1 && !s.loading
  {
    s := new DashboardStore();
    var ok := s.CreateChild("p1", "Ada", "robot", Some(Obj(map["id" := Str("k1")])));
    s.LogProgress("k1", "ch1", Win, true);
  }
}
