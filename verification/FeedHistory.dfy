/** What the feed holds, read from the steps of a session alone. */
module FeedHistory {
  import opened Basics
  import opened Domain
  import opened HubService
  import opened Feed
  import opened FeedProperties

  predicate Clears(step: Step, id: Handle) {
    step == Unsubscribed(id) || step == ReplyRemoved(id)
  }

  function Pushes(steps: seq<Step>): nat {
    if steps == [] then 0 else Pushes(Init(steps)) + if Last(steps).Push? then 1 else 0
  }

  /** The message was pushed at that step, as the n-th, and its subscription was not cleared since. */
  predicate PushedSince(steps: seq<Step>, i: nat, r: Received) {
    && i < |steps| && steps[i] == Push(r.dto) && r.stamp == Pushes(steps[..i])
    && forall j :: i < j < |steps| ==> !Clears(steps[j], r.dto.subscriptionId)
  }

  lemma {:induction false} NextSeqCounts(steps: seq<Step>)
    ensures Run(steps).core.hub.nextSeq == Pushes(steps)
  {
    if steps != [] {
      NextSeqCounts(Init(steps));
    }
  }

  lemma PushedSinceSnoc(before: seq<Step>, step: Step, i: nat, r: Received)
    requires i < |before|
    ensures PushedSince(before + [step], i, r) <==> PushedSince(before, i, r) && !Clears(step, r.dto.subscriptionId)
  {
    var steps := before + [step];
    assert before[..i] == steps[..i] && steps[|before|] == step;
    assert forall j :: 0 <= j < |before| ==> before[j] == steps[j];
  }

  /** The store holds exactly the messages pushed and not cleared since, numbered in the order they came. */
  lemma {:induction false} StoredExactlyWhen(steps: seq<Step>, r: Received)
    ensures r in Run(steps).core.hub.messages <==> exists i :: PushedSince(steps, i, r)
  {
    if steps != [] {
      var before, step := Init(steps), Last(steps);
      assert steps == before + [step] && steps[..|before|] == before;
      StoredExactlyWhen(before, r);
      NextSeqCounts(before);
      StoreStep(Run(before).core, step, r);
      if r in Run(steps).core.hub.messages {
        if r in Run(before).core.hub.messages && !Clears(step, r.dto.subscriptionId) {
          var i :| PushedSince(before, i, r);
          PushedSinceSnoc(before, step, i, r);
        } else {
          assert PushedSince(steps, |before|, r);
        }
      } else if exists i :: PushedSince(steps, i, r) {
        var i: nat :| PushedSince(steps, i, r);
        if i < |before| {
          PushedSinceSnoc(before, step, i, r);
        }
      }
    }
  }

  lemma StoreStep(c: Core, step: Step, r: Received)
    ensures r in ApplyCore(c, step).hub.messages <==>
              || (r in c.hub.messages && !Clears(step, r.dto.subscriptionId))
              || (step == Push(r.dto) && r.stamp == c.hub.nextSeq)
  {
    match step
    case Push(dto) => assert forall x :: x in [Received(dto, c.hub.nextSeq)] + c.hub.messages
                               <==> x == Received(dto, c.hub.nextSeq) || x in c.hub.messages;
    case Unsubscribed(id) => ExceptMembers(c.hub.messages, id);
    case ReplyRemoved(id) => ExceptMembers(c.hub.messages, id);
    case _ =>
  }

  /** A request for the queue was answered with that id, and it was not unsubscribed since. */
  predicate SubscribedSince(steps: seq<Step>, i: nat, c: Chip) {
    && i < |steps| && steps[i].Subscribed? && steps[i].id == c.id
    && steps[i].i < |Run(steps[..i]).core.posts| && Run(steps[..i]).core.posts[steps[i].i] == c.queueName
    && forall j :: i < j < |steps| ==> steps[j] != Unsubscribed(c.id)
  }

  lemma SubscribedSinceSnoc(before: seq<Step>, step: Step, i: nat, c: Chip)
    requires i < |before|
    ensures SubscribedSince(before + [step], i, c) <==> SubscribedSince(before, i, c) && step != Unsubscribed(c.id)
  {
    var steps := before + [step];
    assert before[..i] == steps[..i] && steps[|before|] == step;
    assert forall j :: 0 <= j < |before| ==> before[j] == steps[j];
  }

  /** The chips are exactly the requests answered and not unsubscribed since. */
  lemma {:induction false} ChipExactlyWhen(steps: seq<Step>, c: Chip)
    ensures c in Run(steps).core.chips <==> exists i :: SubscribedSince(steps, i, c)
  {
    if steps != [] {
      var before, step := Init(steps), Last(steps);
      assert steps == before + [step] && steps[..|before|] == before;
      ChipExactlyWhen(before, c);
      ChipStep(Run(before).core, step, c);
      if c in Run(steps).core.chips {
        if c in Run(before).core.chips && step != Unsubscribed(c.id) {
          var i :| SubscribedSince(before, i, c);
          SubscribedSinceSnoc(before, step, i, c);
        } else {
          assert SubscribedSince(steps, |before|, c);
        }
      } else if exists i :: SubscribedSince(steps, i, c) {
        var i: nat :| SubscribedSince(steps, i, c);
        if i < |before| {
          SubscribedSinceSnoc(before, step, i, c);
        }
      }
    }
  }

  lemma ChipStep(core: Core, step: Step, c: Chip)
    ensures c in ApplyCore(core, step).chips <==>
              || (c in core.chips && step != Unsubscribed(c.id))
              || (step.Subscribed? && step.id == c.id && step.i < |core.posts| && core.posts[step.i] == c.queueName)
  {
    match step
    case Unsubscribed(id) => RemoveChipMembers(core.chips, id);
    case _ =>
  }

  predicate AwaitedSince(steps: seq<Step>, i: nat, p: Reply) {
    && i < |steps| && steps[i] == ReplyAdded(p.subscriptionId, p.correlationId)
    && forall j :: i < j < |steps| ==> steps[j] != ReplyRemoved(p.subscriptionId)
  }

  lemma AwaitedSinceSnoc(before: seq<Step>, step: Step, i: nat, p: Reply)
    requires i < |before|
    ensures AwaitedSince(before + [step], i, p) <==> AwaitedSince(before, i, p) && step != ReplyRemoved(p.subscriptionId)
  {
    var steps := before + [step];
    assert before[..i] == steps[..i] && steps[|before|] == step;
    assert forall j :: 0 <= j < |before| ==> before[j] == steps[j];
  }

  /** The reply panel awaits exactly the requests answered and not removed since. */
  lemma {:induction false} ReplyExactlyWhen(steps: seq<Step>, p: Reply)
    ensures p in Run(steps).core.replies <==> exists i :: AwaitedSince(steps, i, p)
  {
    if steps != [] {
      var before, step := Init(steps), Last(steps);
      assert steps == before + [step] && steps[..|before|] == before;
      ReplyExactlyWhen(before, p);
      ReplyStep(Run(before).core, step, p);
      if p in Run(steps).core.replies {
        if p in Run(before).core.replies && step != ReplyRemoved(p.subscriptionId) {
          var i :| AwaitedSince(before, i, p);
          AwaitedSinceSnoc(before, step, i, p);
        } else {
          assert AwaitedSince(steps, |before|, p);
        }
      } else if exists i :: AwaitedSince(steps, i, p) {
        var i: nat :| AwaitedSince(steps, i, p);
        if i < |before| {
          AwaitedSinceSnoc(before, step, i, p);
        }
      }
    }
  }

  lemma ReplyStep(c: Core, step: Step, p: Reply)
    ensures p in ApplyCore(c, step).replies <==>
              || (p in c.replies && step != ReplyRemoved(p.subscriptionId))
              || step == ReplyAdded(p.subscriptionId, p.correlationId)
  {
    match step
    case ReplyRemoved(id) => RemoveReplyMembers(c.replies, id);
    case _ =>
  }

  /** While a queue is requested once at most, an answer of either kind ends just its own request. */
  lemma AnswersEndRequests(c: Core, i: nat, id: Handle, name: string)
    requires DistinctQueues(c.chips, c.posts) && i < |c.posts|
    ensures var failed, answered := ApplyCore(c, PostFails(i)), ApplyCore(c, Subscribed(i, id));
            && (name in failed.posts <==> name in c.posts && name != c.posts[i])
            && answered.posts == failed.posts && failed.chips == c.chips
            && answered.chips == c.chips + [Chip(id, c.posts[i])]
  {
    var rest := Drop(c.posts, i);
    if name in rest {
      var k :| 0 <= k < |rest| && rest[k] == name;
      assert rest[k] == if k < i then c.posts[k] else c.posts[k + 1];
    }
    if name in c.posts && name != c.posts[i] {
      var k :| 0 <= k < |c.posts| && c.posts[k] == name;
      assert rest[if k < i then k else k - 1] == name;
    }
  }
}
