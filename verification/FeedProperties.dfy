/** What every session of the live feed keeps. */
module FeedProperties {
  import opened Basics
  import opened Domain
  import opened HubService
  import opened Feed
  import opened FeedSearch

  // ---- filters ----

  lemma {:induction false} VisibleMembers(ms: seq<Received>, ids: set<Handle>)
    ensures forall r :: r in Visible(ms, ids) <==> r in ms && r.dto.subscriptionId in ids
  {
    if ms != [] {
      VisibleMembers(ms[1..], ids);
      assert ms == [ms[0]] + ms[1..];
    }
  }

  lemma DecreasingCons(r: Received, rest: seq<Received>, bound: nat)
    requires Decreasing(rest, r.stamp) && r.stamp < bound
    ensures Decreasing([r] + rest, bound)
  {
  }

  lemma DecreasingRest(ms: seq<Received>, bound: nat)
    requires Decreasing(ms, bound) && ms != []
    ensures Decreasing(ms[1..], ms[0].stamp) && ms[0].stamp < bound
  {
  }

  lemma DecreasingUp(ms: seq<Received>, bound: nat, higher: nat)
    requires Decreasing(ms, bound) && bound <= higher
    ensures Decreasing(ms, higher)
  {
  }

  lemma {:induction false} VisibleDecreasing(ms: seq<Received>, ids: set<Handle>, bound: nat)
    requires Decreasing(ms, bound)
    ensures Decreasing(Visible(ms, ids), bound)
  {
    if ms != [] {
      DecreasingRest(ms, bound);
      VisibleDecreasing(ms[1..], ids, ms[0].stamp);
      if ms[0].dto.subscriptionId in ids {
        DecreasingCons(ms[0], Visible(ms[1..], ids), bound);
      } else {
        DecreasingUp(Visible(ms[1..], ids), ms[0].stamp, bound);
        assert [] + Visible(ms[1..], ids) == Visible(ms[1..], ids);
      }
    }
  }

  lemma {:induction false} ExceptDecreasing(ms: seq<Received>, id: Handle, bound: nat)
    requires Decreasing(ms, bound)
    ensures Decreasing(Except(ms, id), bound)
  {
    if ms != [] {
      DecreasingRest(ms, bound);
      ExceptDecreasing(ms[1..], id, ms[0].stamp);
      if ms[0].dto.subscriptionId != id {
        DecreasingCons(ms[0], Except(ms[1..], id), bound);
      } else {
        DecreasingUp(Except(ms[1..], id), ms[0].stamp, bound);
        assert [] + Except(ms[1..], id) == Except(ms[1..], id);
      }
    }
  }

  lemma {:induction false} SearchDecreasing(lower: string -> string, rows: seq<Received>, term: string, bound: nat)
    requires Decreasing(rows, bound)
    ensures Decreasing(Search(lower, rows, term), bound)
    ensures forall r :: r in Search(lower, rows, term) <==> r in rows && Matches(lower, r, term)
  {
    if rows != [] {
      DecreasingRest(rows, bound);
      SearchDecreasing(lower, rows[1..], term, rows[0].stamp);
      assert rows == [rows[0]] + rows[1..];
      var rest := Search(lower, rows[1..], term);
      if Matches(lower, rows[0], term) {
        DecreasingCons(rows[0], rest, bound);
      } else {
        DecreasingUp(rest, rows[0].stamp, bound);
        assert [] + rest == rest;
      }
    }
  }

  // ---- ordering ----

  predicate Ordered(c: Core) {
    && Decreasing(c.hub.messages, c.hub.nextSeq)
    && (c.memo.Some? ==> Decreasing(c.memo.value.value.rows, c.hub.nextSeq))
  }

  lemma ApplyKeepsOrdered(c: Core, step: Step)
    requires Ordered(c)
    ensures Ordered(ApplyCore(c, step))
  {
    match step
    case Push(dto) =>
      DecreasingCons(Received(dto, c.hub.nextSeq), c.hub.messages, c.hub.nextSeq + 1);
      if c.memo.Some? {
        DecreasingUp(c.memo.value.value.rows, c.hub.nextSeq, c.hub.nextSeq + 1);
      }
    case Unsubscribed(id) => ExceptDecreasing(c.hub.messages, id, c.hub.nextSeq);
    case ReplyRemoved(id) => ExceptDecreasing(c.hub.messages, id, c.hub.nextSeq);
    case Read => VisibleDecreasing(c.hub.messages, Ids(c.chips), c.hub.nextSeq);
    case _ =>
  }

  lemma {:induction false} RunKeepsOrdered(steps: seq<Step>)
    ensures Ordered(Run(steps).core)
  {
    if steps != [] {
      RunKeepsOrdered(Init(steps));
      ApplyKeepsOrdered(Run(Init(steps)).core, Last(steps));
    }
  }

  /** In every session the store, the rows displayed and the rows left by any search have strictly decreasing
      stamps below the next one; and the search shows exactly the displayed rows with the trimmed term in their
      payload, routing key or exchange. */
  lemma EverythingDecreasing(steps: seq<Step>, lower: string -> string, searchTerm: string)
    ensures var c := Run(steps).core;
            && Decreasing(c.hub.messages, c.hub.nextSeq)
            && (c.memo.Some? ==>
                  var rows, term := c.memo.value.value.rows, lower(Trim(searchTerm));
                  && Decreasing(rows, c.hub.nextSeq)
                  && Decreasing(Filtered(lower, rows, searchTerm), c.hub.nextSeq)
                  && forall r :: r in Filtered(lower, rows, searchTerm)
                       <==> r in rows && (term == "" || Found(lower, r, term)))
  {
    forall r, term ensures Matches(lower, r, term) <==> Found(lower, r, term) {
      MatchesExactly(lower, r, term);
    }
    RunKeepsOrdered(steps);
    var c := Run(steps).core;
    if c.memo.Some? {
      SearchDecreasing(lower, c.memo.value.value.rows, lower(Trim(searchTerm)), c.hub.nextSeq);
    }
  }

  // ---- pausing refines a simple specification ----

  /** Paused after an odd number of clicks. */
  function Toggles(steps: seq<Step>): nat {
    if steps == [] then 0 else Toggles(Init(steps)) + if Last(steps).TogglePause? then 1 else 0
  }

  predicate Paused(steps: seq<Step>) { Toggles(steps) % 2 == 1 }

  lemma {:induction false} PausedByClicks(steps: seq<Step>)
    ensures Run(steps).core.paused == Paused(steps)
  {
    if steps != [] {
      PausedByClicks(Init(steps));
    }
  }

  /** The specification has no memo and reads the pause from the clicks: while paused a read repeats the last one,
      otherwise it shows what is visible at that moment. */
  function SpecShown(steps: seq<Step>): seq<seq<Received>> {
    if steps == [] then [] else
      var before := SpecShown(Init(steps));
      if !Last(steps).Read? then before
      else before + [if Paused(Init(steps)) && before != [] then Last(before) else VisibleMessages(Run(Init(steps)).core)]
  }

  predicate MemoCurrent(s: Session) {
    && (s.core.memo.None? <==> s.shown == [])
    && (s.shown != [] ==> s.core.memo.value.value.rows == Last(s.shown))
    && (s.core.memo.Some? && !s.core.dirty && !s.core.paused ==>
          s.core.memo.value.value.rows == VisibleMessages(s.core))
  }

  lemma ApplyKeepsMemo(s: Session, step: Step)
    requires MemoCurrent(s)
    ensures MemoCurrent(Apply(s, step))
    ensures step.Read? ==>
              (var shows := if s.core.paused && s.shown != [] then Last(s.shown) else VisibleMessages(s.core);
               Apply(s, step).shown == s.shown + [shows])
  {
  }

  /** Every read of every session shows what the specification says. */
  lemma {:induction false} PauseRefinesSpec(steps: seq<Step>)
    ensures Run(steps).shown == SpecShown(steps)
    ensures MemoCurrent(Run(steps))
  {
    if steps != [] {
      PauseRefinesSpec(Init(steps));
      PausedByClicks(Init(steps));
      ApplyKeepsMemo(Run(Init(steps)), Last(steps));
    }
  }

  // ---- which rows are new ----

  /** The stamps of all rows shown by an unpaused computation. */
  function ShownStamps(computed: seq<Memo>): set<nat> {
    if computed == [] then {} else
      ShownStamps(Init(computed)) + if Last(computed).source.paused then {} else Stamps(Last(computed).value.rows)
  }

  /** A resume flags nothing; any other unpaused computation flags exactly what no unpaused one showed before. */
  predicate FlagsExactly(computed: seq<Memo>, k: nat)
    requires k < |computed|
  {
    !computed[k].source.paused ==>
      computed[k].value.newSeqs ==
        if k > 0 && computed[k - 1].source.paused then {}
        else Stamps(computed[k].value.rows) - ShownStamps(computed[..k])
  }

  predicate Tracked(s: Session) {
    var c := s.core;
    && (c.memo.None? <==> s.computed == [])
    && (s.computed != [] ==> c.memo.value == Last(s.computed))
    && (forall q :: q in ShownStamps(s.computed) ==> q < c.hub.nextSeq)
    // a message once shown stays visible for as long as it is stored
    && (forall r :: r in c.hub.messages && r.stamp in ShownStamps(s.computed) ==> r.dto.subscriptionId in Ids(c.chips))
    // and is among the rows of the last computation, unless that one was paused
    && (c.memo.Some? && !c.memo.value.source.paused ==>
          forall r :: r in c.hub.messages && r.stamp in ShownStamps(s.computed) ==> r in c.memo.value.value.rows)
    && (forall k :: 0 <= k < |s.computed| ==> FlagsExactly(s.computed, k))
  }

  lemma {:induction false} RemoveChipIds(chips: seq<Chip>, id: Handle)
    ensures Ids(RemoveChip(chips, id)) == Ids(chips) - {id}
    ensures forall c :: c in RemoveChip(chips, id) <==> c in chips && c.id != id
  {
    if chips != [] {
      RemoveChipIds(chips[1..], id);
      assert chips == [chips[0]] + chips[1..];
    }
  }

  lemma QuietKeepsTracked(s: Session, step: Step)
    requires Ordered(s.core) && Tracked(s) && !step.Read?
    ensures Tracked(Apply(s, step))
  {
    match step
    case Unsubscribed(id) =>
      ExceptMembers(s.core.hub.messages, id);
      RemoveChipIds(s.core.chips, id);
    case ReplyRemoved(id) => ExceptMembers(s.core.hub.messages, id);
    case _ =>
  }

  lemma ReadKeepsShown(s: Session)
    requires Ordered(s.core) && Tracked(s) && WillRecompute(s.core)
    ensures var s' := Apply(s, Read);
            && s'.computed == s.computed + [Recomputed(s.core)]
            && ShownStamps(s'.computed) == ShownStamps(s.computed)
                 + if s.core.paused then {} else Stamps(VisibleMessages(s.core))
  {
    assert Init(s.computed + [Recomputed(s.core)]) == s.computed;
  }

  lemma ReadFlagsExactly(s: Session)
    requires Ordered(s.core) && Tracked(s) && WillRecompute(s.core)
    ensures FlagsExactly(s.computed + [Recomputed(s.core)], |s.computed|)
  {
    var log := s.computed + [Recomputed(s.core)];
    assert log[..|s.computed|] == s.computed;
    if !s.core.paused && s.computed != [] && !Last(s.computed).source.paused {
      var prev := Last(s.computed);
      VisibleMembers(s.core.hub.messages, Ids(s.core.chips));
      assert ShownStamps(s.computed) == ShownStamps(Init(s.computed)) + Stamps(prev.value.rows);
      forall q | q in Stamps(VisibleMessages(s.core)) && q in ShownStamps(s.computed)
        ensures q in Stamps(prev.value.rows)
      {
        var r :| r in VisibleMessages(s.core) && r.stamp == q;
        assert r in prev.value.rows;
      }
    }
  }

  lemma ReadKeepsTracked(s: Session)
    requires Ordered(s.core) && Tracked(s)
    ensures Tracked(Apply(s, Read))
  {
    if WillRecompute(s.core) {
      ReadKeepsShown(s);
      ReadFlagsExactly(s);
      VisibleMembers(s.core.hub.messages, Ids(s.core.chips));
      var s' := Apply(s, Read);
      VisibleDecreasing(s.core.hub.messages, Ids(s.core.chips), s.core.hub.nextSeq);
      StampsIdentify(s.core.hub.messages, s.core.hub.nextSeq);
      forall k | 0 <= k < |s'.computed| ensures FlagsExactly(s'.computed, k) {
        if k < |s.computed| {
          assert FlagsExactly(s.computed, k) && s'.computed[..k] == s.computed[..k];
        }
      }
    }
  }

  lemma StampsIdentify(ms: seq<Received>, bound: nat)
    requires Decreasing(ms, bound)
    ensures forall r, r' :: r in ms && r' in ms && r.stamp == r'.stamp ==> r == r'
  {
  }

  lemma {:induction false} RunKeepsTracked(steps: seq<Step>)
    ensures Ordered(Run(steps).core) && Tracked(Run(steps))
  {
    RunKeepsOrdered(steps);
    if steps != [] {
      RunKeepsTracked(Init(steps));
      if Last(steps).Read? {
        ReadKeepsTracked(Run(Init(steps)));
      } else {
        QuietKeepsTracked(Run(Init(steps)), Last(steps));
      }
    }
  }

  /** In every session, whatever the server's ids: an unpaused computation flags exactly the rows no unpaused
      computation showed before, and the one that resumes after a pause some read saw flags none. */
  lemma NewRowsExactly(steps: seq<Step>, k: nat)
    requires k < |Run(steps).computed| && !Run(steps).computed[k].source.paused
    ensures var log := Run(steps).computed;
            log[k].value.newSeqs ==
              if k > 0 && log[k - 1].source.paused then {}
              else Stamps(log[k].value.rows) - ShownStamps(log[..k])
  {
    RunKeepsTracked(steps);
    assert FlagsExactly(Run(steps).computed, k);
  }

  lemma {:induction false} ShownBefore(computed: seq<Memo>, j: nat)
    requires j < |computed| && !computed[j].source.paused
    ensures Stamps(computed[j].value.rows) <= ShownStamps(computed)
  {
    if j < |computed| - 1 {
      ShownBefore(Init(computed), j);
    }
  }

  /** So no row is flagged twice, and a row first shown by such a resume is never flagged. */
  lemma FlaggedAtMostOnce(steps: seq<Step>, j: nat, k: nat)
    requires j < k < |Run(steps).computed|
    requires !Run(steps).computed[j].source.paused && !Run(steps).computed[k].source.paused
    ensures var log := Run(steps).computed;
            && Stamps(log[j].value.rows) !! log[k].value.newSeqs
            && log[j].value.newSeqs !! log[k].value.newSeqs
  {
    var log := Run(steps).computed;
    NewRowsExactly(steps, j);
    NewRowsExactly(steps, k);
    ShownBefore(log[..k], j);
  }

  // ---- ids, conservation, and locality of unsubscribing ----

  predicate DistinctIds(chips: seq<Chip>) {
    chips == [] || (Last(chips).id !in Ids(Init(chips)) && DistinctIds(Init(chips)))
  }

  function ReplyIds(replies: seq<Reply>): set<Handle> {
    set p | p in replies :: p.subscriptionId
  }

  predicate DistinctReplies(replies: seq<Reply>) {
    replies == [] || (Last(replies).subscriptionId !in ReplyIds(Init(replies)) && DistinctReplies(Init(replies)))
  }

  lemma {:induction false} RemoveChipSnoc(chips: seq<Chip>, c: Chip, id: Handle)
    ensures RemoveChip(chips + [c], id) == RemoveChip(chips, id) + if c.id == id then [] else [c]
  {
    if chips != [] {
      assert (chips + [c])[0] == chips[0] && (chips + [c])[1..] == chips[1..] + [c];
      RemoveChipSnoc(chips[1..], c, id);
    }
  }

  lemma {:induction false} RemoveChipDistinct(chips: seq<Chip>, id: Handle)
    requires DistinctIds(chips)
    ensures DistinctIds(RemoveChip(chips, id))
  {
    if chips != [] {
      var before, last := Init(chips), Last(chips);
      assert chips == before + [last];
      RemoveChipDistinct(before, id);
      RemoveChipIds(before, id);
      RemoveChipSnoc(before, last, id);
      if last.id != id {
        ChipAdded(RemoveChip(before, id), last);
      } else {
        assert RemoveChip(before, id) + [] == RemoveChip(before, id);
      }
    }
  }

  lemma ChipAdded(chips: seq<Chip>, c: Chip)
    requires DistinctIds(chips) && c.id !in Ids(chips)
    ensures DistinctIds(chips + [c]) && Ids(chips + [c]) == Ids(chips) + {c.id}
  {
    assert Init(chips + [c]) == chips && Last(chips + [c]) == c;
    Snoc(chips + [c]);
  }

  lemma {:induction false} RemoveReplySnoc(replies: seq<Reply>, p: Reply, id: Handle)
    ensures RemoveReply(replies + [p], id) == RemoveReply(replies, id) + if p.subscriptionId == id then [] else [p]
    ensures forall q :: q in RemoveReply(replies, id) <==> q in replies && q.subscriptionId != id
  {
    if replies != [] {
      assert (replies + [p])[0] == replies[0] && (replies + [p])[1..] == replies[1..] + [p];
      assert replies == [replies[0]] + replies[1..];
      RemoveReplySnoc(replies[1..], p, id);
    }
  }

  lemma {:induction false} RemoveReplyDistinct(replies: seq<Reply>, id: Handle)
    requires DistinctReplies(replies)
    ensures DistinctReplies(RemoveReply(replies, id))
    ensures ReplyIds(RemoveReply(replies, id)) <= ReplyIds(replies)
  {
    if replies != [] {
      var before, last := Init(replies), Last(replies);
      assert replies == before + [last];
      RemoveReplyDistinct(before, id);
      RemoveReplySnoc(before, last, id);
      if last.subscriptionId != id {
        ReplyAppended(RemoveReply(before, id), last);
      } else {
        assert RemoveReply(before, id) + [] == RemoveReply(before, id);
      }
    }
  }

  lemma ReplyAppended(replies: seq<Reply>, p: Reply)
    requires DistinctReplies(replies) && p.subscriptionId !in ReplyIds(replies)
    ensures DistinctReplies(replies + [p]) && ReplyIds(replies + [p]) == ReplyIds(replies) + {p.subscriptionId}
  {
    assert Init(replies + [p]) == replies && Last(replies + [p]) == p;
    Snoc(replies + [p]);
  }

  /** Unless the server hands out an id twice, ids are distinct and chips and replies share none. */
  predicate Separate(s: Session) {
    s.reissued
    || (&& DistinctIds(s.core.chips) && DistinctReplies(s.core.replies)
        && Ids(s.core.chips) !! ReplyIds(s.core.replies)
        && Ids(s.core.chips) + ReplyIds(s.core.replies) <= s.issued)
  }

  lemma ApplyKeepsSeparate(s: Session, step: Step)
    requires Separate(s)
    ensures Separate(Apply(s, step))
  {
    var s' := Apply(s, step);
    if !s'.reissued {
      match step
      case Subscribed(i, id) =>
        if i < |s.core.posts| {
          assert id !in s.issued by { assert id in {id} * s.issued <==> id in s.issued; }
          ChipAdded(s.core.chips, Chip(id, s.core.posts[i]));
        }
      case Unsubscribed(id) =>
        RemoveChipDistinct(s.core.chips, id);
        RemoveChipIds(s.core.chips, id);
      case ReplyAdded(id, corr) =>
        assert id !in s.issued by { assert id in {id} * s.issued <==> id in s.issued; }
        ReplyAppended(s.core.replies, Reply(id, corr));
      case ReplyRemoved(id) => RemoveReplyDistinct(s.core.replies, id);
      case _ =>
    }
  }

  lemma {:induction false} RunKeepsSeparate(steps: seq<Step>)
    ensures Separate(Run(steps))
  {
    if steps != [] {
      RunKeepsSeparate(Init(steps));
      ApplyKeepsSeparate(Run(Init(steps)), Last(steps));
    }
  }

  lemma {:induction false} VisibleGrows(ms: seq<Received>, ids: set<Handle>, id: Handle)
    requires id !in ids
    ensures |Visible(ms, ids + {id})| == |Visible(ms, ids)| + |Of(ms, id)|
  {
    if ms != [] {
      VisibleGrows(ms[1..], ids, id);
    }
  }

  lemma {:induction false} VisibleNone(ms: seq<Received>)
    ensures Visible(ms, {}) == []
  {
    if ms != [] {
      VisibleNone(ms[1..]);
    }
  }

  lemma SumSnoc(counts: seq<nat>, n: nat)
    ensures Sum(counts + [n]) == Sum(counts) + n
  {
    assert Init(counts + [n]) == counts;
  }

  lemma {:induction false} CountsConserve(ms: seq<Received>, chips: seq<Chip>)
    requires DistinctIds(chips)
    ensures Sum(ChipCounts(ms, chips)) == |Visible(ms, Ids(chips))|
  {
    if chips == [] {
      assert Ids([]) == {};
      VisibleNone(ms);
    } else {
      CountsConserve(ms, Init(chips));
      Snoc(chips);
      ChipAdded(Init(chips), Last(chips));
      VisibleGrows(ms, Ids(Init(chips)), Last(chips).id);
      SumSnoc(ChipCounts(ms, Init(chips)), |Of(ms, Last(chips).id)|);
    }
  }

  lemma {:induction false} VisibleWithout(ms: seq<Received>, ids: set<Handle>, id: Handle)
    ensures Visible(Except(ms, id), ids - {id}) == Except(Visible(ms, ids), id)
  {
    if ms != [] {
      VisibleWithout(ms[1..], ids, id);
      var rest := Except(ms[1..], id);
      assert ([ms[0]] + rest)[1..] == rest && [] + rest == rest;
      var shown := Visible(ms[1..], ids);
      assert ([ms[0]] + shown)[1..] == shown && [] + shown == shown;
    }
  }

  lemma {:induction false} ExceptLength(ms: seq<Received>, id: Handle)
    ensures |Except(ms, id)| + |Of(ms, id)| == |ms|
  {
    if ms != [] {
      ExceptLength(ms[1..], id);
    }
  }

  lemma {:induction false} OfVisible(ms: seq<Received>, ids: set<Handle>, id: Handle)
    requires id in ids
    ensures Of(Visible(ms, ids), id) == Of(ms, id)
  {
    if ms != [] {
      OfVisible(ms[1..], ids, id);
      var shown := Visible(ms[1..], ids);
      assert ([ms[0]] + shown)[1..] == shown && [] + shown == shown;
    }
  }

  lemma UnsubscribeLowersCounts(ms: seq<Received>, chips: seq<Chip>, id: Handle)
    requires DistinctIds(chips) && id in Ids(chips)
    ensures Sum(ChipCounts(Except(ms, id), RemoveChip(chips, id))) + |Of(ms, id)| == Sum(ChipCounts(ms, chips))
  {
    CountsConserve(ms, chips);
    RemoveChipDistinct(chips, id);
    CountsConserve(Except(ms, id), RemoveChip(chips, id));
    RemoveChipIds(chips, id);
    VisibleWithout(ms, Ids(chips), id);
    ExceptLength(Visible(ms, Ids(chips)), id);
    OfVisible(ms, Ids(chips), id);
  }

  /** Unless ids repeat: the chip counts sum to the length of the visible list. */
  lemma {:induction false} CountsAreConserved(steps: seq<Step>)
    requires !Run(steps).reissued
    ensures var c := Run(steps).core;
            Sum(ChipCounts(c.hub.messages, c.chips)) == |VisibleMessages(c)|
  {
    RunKeepsSeparate(steps);
    CountsConserve(Run(steps).core.hub.messages, Run(steps).core.chips);
  }

  /** And unsubscribing a chip lowers that sum by exactly the chip's own count. */
  lemma {:induction false} UnsubscribeLowersSum(steps: seq<Step>, id: Handle)
    requires !Run(steps).reissued && id in Ids(Run(steps).core.chips)
    ensures var c := Run(steps).core;
            var c' := ApplyCore(c, Unsubscribed(id));
            Sum(ChipCounts(c'.hub.messages, c'.chips)) + |Of(c.hub.messages, id)| == Sum(ChipCounts(c.hub.messages, c.chips))
  {
    RunKeepsSeparate(steps);
    var c := Run(steps).core;
    assert ApplyCore(c, Unsubscribed(id)).hub.messages == Except(c.hub.messages, id);
    assert ApplyCore(c, Unsubscribed(id)).chips == RemoveChip(c.chips, id);
    UnsubscribeLowersCounts(c.hub.messages, c.chips, id);
  }

  lemma {:induction false} RepliesMembers(ms: seq<Received>, p: Reply)
    ensures forall r :: r in RepliesTo(ms, p) <==>
              r in ms && r.dto.subscriptionId == p.subscriptionId && r.dto.correlationId == Some(p.correlationId)
  {
    if ms != [] {
      RepliesMembers(ms[1..], p);
      assert ms == [ms[0]] + ms[1..];
    }
  }

  lemma {:induction false} RepliesExcept(ms: seq<Received>, p: Reply, id: Handle)
    requires p.subscriptionId != id
    ensures RepliesTo(Except(ms, id), p) == RepliesTo(ms, p)
  {
    if ms != [] {
      RepliesExcept(ms[1..], p, id);
      var rest := Except(ms[1..], id);
      assert ([ms[0]] + rest)[1..] == rest && [] + rest == rest;
      assert [] + RepliesTo(ms[1..], p) == RepliesTo(ms[1..], p);
    }
  }

  lemma {:induction false} DistinctRepliesApart(replies: seq<Reply>, i: nat, j: nat)
    requires DistinctReplies(replies) && i < j < |replies|
    ensures replies[i].subscriptionId != replies[j].subscriptionId
  {
    if j < |replies| - 1 {
      DistinctRepliesApart(Init(replies), i, j);
    } else {
      assert Init(replies)[i] in Init(replies);
    }
  }

  /** Unless ids repeat, no reply is in the feed, however many are awaited. */
  lemma {:induction false} ReplyNotInFeed(steps: seq<Step>, i: nat, r: Received)
    requires !Run(steps).reissued && i < |Run(steps).core.replies|
    ensures var c := Run(steps).core;
            !(r in RepliesTo(c.hub.messages, c.replies[i]) && r in VisibleMessages(c))
  {
    RunKeepsSeparate(steps);
    var c := Run(steps).core;
    RepliesMembers(c.hub.messages, c.replies[i]);
    VisibleMembers(c.hub.messages, Ids(c.chips));
    assert c.replies[i].subscriptionId in ReplyIds(c.replies);
  }

  /** Nor is a message a reply to two requests. */
  lemma {:induction false} ReplyListsDisjoint(steps: seq<Step>, i: nat, j: nat, r: Received)
    requires !Run(steps).reissued && i < j < |Run(steps).core.replies|
    ensures var c := Run(steps).core;
            && !(r in RepliesTo(c.hub.messages, c.replies[i]) && r in RepliesTo(c.hub.messages, c.replies[j]))
            && !(r in RepliesTo(c.hub.messages, c.replies[i]) && r in VisibleMessages(c))
            && !(r in RepliesTo(c.hub.messages, c.replies[j]) && r in VisibleMessages(c))
  {
    RunKeepsSeparate(steps);
    var c := Run(steps).core;
    DistinctRepliesApart(c.replies, i, j);
    RepliesMembers(c.hub.messages, c.replies[i]);
    RepliesMembers(c.hub.messages, c.replies[j]);
    ReplyNotInFeed(steps, i, r);
    ReplyNotInFeed(steps, j, r);
  }

  /** Unsubscribing one id, as a chip or as a reply, takes that id's messages out of the feed and leaves every
      other chip's and reply's list as it was, order included. */
  lemma UnsubscribeIsLocal(c: Core, id: Handle, other: Handle, p: Reply)
    requires other != id && p.subscriptionId != id
    ensures var c1, c2 := ApplyCore(c, Unsubscribed(id)), ApplyCore(c, ReplyRemoved(id));
            && Of(c1.hub.messages, other) == Of(c2.hub.messages, other) == Of(c.hub.messages, other)
            && RepliesTo(c1.hub.messages, p) == RepliesTo(c2.hub.messages, p) == RepliesTo(c.hub.messages, p)
            && VisibleMessages(c1) == Except(VisibleMessages(c), id)
            && (id !in Ids(c.chips) ==> VisibleMessages(c2) == VisibleMessages(c))
            && (forall r :: r in VisibleMessages(c1) ==> r.dto.subscriptionId != id)
  {
    ExceptMembers(VisibleMessages(c), id);
    ClearIsLocal(c.hub.messages, id, other);
    RepliesExcept(c.hub.messages, p, id);
    RemoveChipIds(c.chips, id);
    VisibleWithout(c.hub.messages, Ids(c.chips), id);
    if id !in Ids(c.chips) {
      assert Ids(c.chips) - {id} == Ids(c.chips);
      NothingToRemove(c.hub.messages, Ids(c.chips), id);
    }
  }

  lemma {:induction false} RemoveChipMembers(chips: seq<Chip>, id: Handle)
    ensures forall c :: c in RemoveChip(chips, id) <==> c in chips && c.id != id
  {
    if chips != [] {
      RemoveChipMembers(chips[1..], id);
      assert chips == [chips[0]] + chips[1..];
    }
  }

  lemma {:induction false} RemoveReplyMembers(replies: seq<Reply>, id: Handle)
    ensures forall p :: p in RemoveReply(replies, id) <==> p in replies && p.subscriptionId != id
  {
    if replies != [] {
      RemoveReplyMembers(replies[1..], id);
      assert replies == [replies[0]] + replies[1..];
    }
  }

  /** Exactly the chip goes, or exactly the awaited reply; chips, replies, requests and the pause are else as before. */
  lemma UnsubscribeRemovesExactly(c: Core, id: Handle)
    ensures var c1, c2 := ApplyCore(c, Unsubscribed(id)), ApplyCore(c, ReplyRemoved(id));
            && (forall chip :: chip in c1.chips <==> chip in c.chips && chip.id != id)
            && (forall p :: p in c2.replies <==> p in c.replies && p.subscriptionId != id)
            && c1.replies == c.replies && c2.chips == c.chips && c1.posts == c2.posts == c.posts
            && c1.paused == c2.paused == c.paused
  {
    RemoveChipMembers(c.chips, id);
    RemoveReplyMembers(c.replies, id);
  }

  lemma {:induction false} NothingToRemove(ms: seq<Received>, ids: set<Handle>, id: Handle)
    requires id !in ids
    ensures Except(Visible(ms, ids), id) == Visible(ms, ids)
  {
    if ms != [] {
      NothingToRemove(ms[1..], ids, id);
      var shown := Visible(ms[1..], ids);
      assert ([ms[0]] + shown)[1..] == shown && [] + shown == shown;
    }
  }

  // ---- queue names ----

  predicate DistinctQueues(chips: seq<Chip>, posts: seq<string>) {
    && (forall i, j :: 0 <= i < j < |chips| ==> chips[i].queueName != chips[j].queueName)
    && (forall i, j :: 0 <= i < j < |posts| ==> posts[i] != posts[j])
    && (forall i, j :: 0 <= i < |chips| && 0 <= j < |posts| ==> chips[i].queueName != posts[j])
  }

  lemma {:induction false} RemoveChipKeepsQueues(chips: seq<Chip>, posts: seq<string>, id: Handle)
    requires DistinctQueues(chips, posts)
    ensures DistinctQueues(RemoveChip(chips, id), posts)
  {
    if chips != [] {
      assert DistinctQueues(chips[1..], posts);
      RemoveChipKeepsQueues(chips[1..], posts, id);
      RemoveChipIds(chips[1..], id);
      var rest := RemoveChip(chips[1..], id);
      forall i | 0 <= i < |rest| ensures rest[i].queueName != chips[0].queueName {
        assert rest[i] in chips[1..];
      }
    }
  }

  lemma ApplyKeepsQueues(s: Session, step: Step)
    requires s.overlapped || DistinctQueues(s.core.chips, s.core.posts)
    ensures Apply(s, step).overlapped || DistinctQueues(Apply(s, step).core.chips, Apply(s, step).core.posts)
  {
    if !Apply(s, step).overlapped && step.Unsubscribed? {
      RemoveChipKeepsQueues(s.core.chips, s.core.posts, step.id);
    }
  }

  /** As long as no queue is requested again while a request for it is in flight, no two chips name one queue. */
  lemma {:induction false} ChipQueuesDistinct(steps: seq<Step>)
    ensures Run(steps).overlapped || DistinctQueues(Run(steps).core.chips, Run(steps).core.posts)
  {
    if steps != [] {
      ChipQueuesDistinct(Init(steps));
      ApplyKeepsQueues(Run(Init(steps)), Last(steps));
    }
  }

  /** Posting a name keeps them distinct exactly if no request for it is in flight: the duplicate guard reads
      answered requests only. */
  lemma GuardExactlyWhen(c: Core, name: string)
    requires DistinctQueues(c.chips, c.posts)
    ensures var c' := ApplyCore(c, Post(name)); DistinctQueues(c'.chips, c'.posts) <==> name !in c.posts
  {
    if name in c.posts {
      var i :| 0 <= i < |c.posts| && c.posts[i] == name;
      assert !HasQueue(c.chips, name);
      var posts := c.posts + [name];
      assert posts[i] == posts[|c.posts|];
    }
  }

  /** And then both answers give a chip: from any state with a request for the name in flight and no chip for it,
      asking again gives two chips for one queue. */
  lemma OverlappingRequestsDuplicate(c: Core, i: nat, id1: Handle, id2: Handle)
    requires i < |c.posts| && !HasQueue(c.chips, c.posts[i])
    ensures var name, asked := c.posts[i], ApplyCore(c, Post(c.posts[i]));
            var c' := ApplyCore(ApplyCore(asked, Subscribed(i, id1)), Subscribed(|c.posts| - 1, id2));
            c'.chips == c.chips + [Chip(id1, name), Chip(id2, name)]
  {
    var name, asked := c.posts[i], ApplyCore(c, Post(c.posts[i]));
    assert asked.posts == c.posts + [name];
    var once := ApplyCore(asked, Subscribed(i, id1));
    assert once.chips == c.chips + [Chip(id1, name)];
    assert once.posts[|c.posts| - 1] == name;
  }
}
