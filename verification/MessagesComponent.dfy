/** The live feed's component and its services in imperative form: signals set step by step, and a
    linked signal recomputed when it is read after one of its dependencies was set. */
module MessagesComponents {
  import opened Basics
  import opened Domain
  import opened HubService
  import opened Feed

  class ReplySubscriptionService {
    var pending: seq<Reply>

    constructor ()
      ensures pending == []
    {
      pending := [];
    }

    method Add(subscription: Reply)
      modifies this
      ensures pending == old(pending) + [subscription]
    {
      pending := pending + [subscription];
    }

    method Remove(subscriptionId: Handle)
      modifies this
      ensures pending == RemoveReply(old(pending), subscriptionId)
    {
      pending := RemoveReply(pending, subscriptionId);
    }
  }

  class MessagesComponent {
    const busHub: BusHubService
    const replySubscriptions: ReplySubscriptionService
    var subscriptions: seq<Chip>
    var posts: seq<string>
    var paused: bool
    var version: nat            // how often `subscriptions` or `paused` was set
    var memo: Option<Memo>
    var seenHub: nat            // the versions the memo was computed from
    var seenOwn: nat

    ghost function View(): Core
      reads this, busHub, replySubscriptions
    {
      Core(busHub.View(), subscriptions, replySubscriptions.pending, posts, paused, memo,
           seenHub != busHub.version || seenOwn != version)
    }

    ghost predicate Valid()
      reads this, busHub
    {
      busHub.Valid() && seenHub <= busHub.version && seenOwn <= version
    }

    constructor (busHub: BusHubService, replySubscriptions: ReplySubscriptionService)
      requires busHub.Valid() && busHub.View() == Hub([], 0) && busHub.version == 0 && replySubscriptions.pending == []
      ensures Valid() && View() == EMPTY.core
      ensures this.busHub == busHub && this.replySubscriptions == replySubscriptions
    {
      this.busHub, this.replySubscriptions := busHub, replySubscriptions;
      subscriptions, posts, paused, version := [], [], false, 0;
      memo, seenHub, seenOwn := None, 0, 0;
    }

    /** Guarded here as well as in the template: a queue with a chip is not requested again. */
    method SubscribeToQueue(queueName: string)
      requires Valid()
      modifies this`posts, busHub
      ensures Valid() && View() == ApplyCore(old(View()), Post(queueName))
    {
      if exists c :: c in subscriptions && c.queueName == queueName {
        return;
      }
      busHub.Start();
      posts := posts + [queueName];
    }

    method OnSubscribed(i: nat, id: Handle)
      requires Valid() && i < |posts|
      modifies this
      ensures Valid() && View() == ApplyCore(old(View()), Subscribed(i, id))
    {
      subscriptions := subscriptions + [Chip(id, posts[i])];
      posts := posts[..i] + posts[i + 1..];
      version := version + 1;
    }

    method FinishUnsubscribe(id: Handle)
      requires Valid()
      modifies this, busHub
      ensures Valid() && View() == ApplyCore(old(View()), Unsubscribed(id))
    {
      busHub.ClearMessages(id);
      subscriptions := RemoveChip(subscriptions, id);
      version := version + 1;
    }

    method FinishUnsubscribeReply(id: Handle)
      requires Valid()
      modifies busHub, replySubscriptions
      ensures Valid() && View() == ApplyCore(old(View()), ReplyRemoved(id))
    {
      busHub.ClearMessages(id);
      replySubscriptions.Remove(id);
    }

    method Toggle()
      requires Valid()
      modifies this
      ensures Valid() && View() == ApplyCore(old(View()), TogglePause)
    {
      paused, version := !paused, version + 1;
    }

    /** `displayState()`: recomputed only if something it depends on was set since. */
    method DisplayState() returns (d: Display)
      requires Valid()
      modifies this
      ensures Valid() && View() == ApplyCore(old(View()), Read)
      ensures memo.Some? && d == memo.value.value
    {
      if memo.None? || seenHub != busHub.version || seenOwn != version {
        var source := Source(paused, Visible(busHub.messages, Ids(subscriptions)));
        memo := Some(Memo(source, Compute(source, memo)));
        seenHub, seenOwn := busHub.version, version;
      }
      d := memo.value.value;
    }

    method IsNewRow(message: Received) returns (isNew: bool)
      requires Valid()
      modifies this
      ensures Valid() && View() == ApplyCore(old(View()), Read)
      ensures isNew <==> message.stamp in memo.value.value.newSeqs
    {
      var d := DisplayState();
      isNew := message.stamp in d.newSeqs;
    }
  }

  /** The send panel's half of an answered send-with-reply, as the feed sees it: one more reply is awaited, the
      rows shown stay. */
  method AwaitReply(feed: MessagesComponent, id: Handle, correlationId: string)
    requires feed.Valid()
    modifies feed.replySubscriptions
    ensures feed.Valid() && feed.View() == ApplyCore(old(feed.View()), ReplyAdded(id, correlationId))
  {
    feed.replySubscriptions.Add(Reply(id, correlationId));
  }
}
