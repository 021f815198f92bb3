/**
 The process-local fan-out of relayed jobs to open event streams: a capped list of subscriptions, each
 with a bounded queue, and a publish that decides every stream's access again for every event.
 */
module EventBus {
  import opened Models
  import opened Dispatch

  datatype BusEvent =
    BusEvent(job: JobId, repo: RepoName, pr: int, headSha: string, verdict: Option<string>, summary: Option<string>)

  /** What re-reading a stream's access set gave: a scope (None is unrestricted), or a database error. */
  datatype AccessAnswer = Scope(repos: Option<set<RepoName>>) | ReadFailed

  /** A queue bound of zero or less is no bound, as asyncio has it. */
  predicate Full(bound: int, queue: seq<BusEvent>) {
    bound > 0 && |queue| >= bound
  }

  predicate MaySee(answer: AccessAnswer, event: BusEvent) {
    answer.Scope? && Reaches(answer.repos, event.repo)
  }

  /** `put_nowait` behind the access check: out of reach, unreadable or full all leave the queue alone. */
  function Offered(bound: int, queue: seq<BusEvent>, event: BusEvent, answer: AccessAnswer): seq<BusEvent> {
    if MaySee(answer, event) && !Full(bound, queue) then queue + [event] else queue
  }

  /** The same, from the answer itself: a re-read that is unscoped or holds the repo, and room. */
  function Hears(bound: int, queue: seq<BusEvent>, event: BusEvent, answer: AccessAnswer): seq<BusEvent> {
    match answer
    case ReadFailed => queue
    case Scope(repos) =>
      if (bound <= 0 || |queue| < bound) && (repos == None || event.repo in repos.value) then queue + [event] else queue
  }

  lemma OfferIsRaw(bound: int, queue: seq<BusEvent>, event: BusEvent, answer: AccessAnswer)
    ensures Offered(bound, queue, event, answer) == Hears(bound, queue, event, answer)
  {
  }

  /** `list.remove`, made idempotent. */
  function Without<T(==)>(items: seq<T>, item: T): seq<T> {
    if items == [] then []
    else if items[0] == item then items[1..]
    else [items[0]] + Without(items[1..], item)
  }

  predicate Distinct<T(==)>(items: seq<T>) {
    forall i, k | 0 <= i < k < |items| :: items[i] != items[k]
  }

  lemma {:induction false} WithoutKeeps<T>(items: seq<T>, item: T)
    ensures |Without(items, item)| <= |items|
    ensures forall other :: other in Without(items, item) ==> other in items
    ensures forall other | other in items && other != item :: other in Without(items, item)
    ensures Distinct(items) ==> Distinct(Without(items, item)) && item !in Without(items, item)
  {
    if items == [] {
    } else {
      WithoutKeeps(items[1..], item);
      if items[0] == item {
        assert forall other | other in items && other != item :: other in items[1..];
      } else {
        var rest := Without(items[1..], item);
        if Distinct(items) {
          forall k | 0 <= k < |rest|
            ensures rest[k] != items[0]
          {
            assert rest[k] in items[1..];
          }
        }
      }
    }
  }

  lemma {:induction false} WithoutAbsent<T>(items: seq<T>, item: T)
    requires item !in items
    ensures Without(items, item) == items
  {
    if items == [] {
    } else {
      WithoutAbsent(items[1..], item);
    }
  }

  lemma {:induction false} WithoutAt<T>(items: seq<T>, i: nat)
    requires Distinct(items) && i < |items|
    ensures Without(items, items[i]) == items[..i] + items[i + 1..]
  {
    if i == 0 {
    } else {
      WithoutAt(items[1..], i - 1);
      assert items[1..][i - 1] == items[i];
    }
  }

  // ---- the bus itself ----

  class Subscription {
    const identity: Option<IdentityId>
    var queue: seq<BusEvent>

    constructor (identity: Option<IdentityId>)
      ensures this.identity == identity && queue == []
    {
      this.identity := identity;
      queue := [];
    }

    /** The stream's own read. */
    method Take(ghost bus: Bus) returns (event: BusEvent)
      requires bus.Valid() && this in bus.subscribers && queue != []
      modifies this, bus`uses
      ensures bus.Valid() && [event] + queue == old(queue)
      ensures bus.uses == old(bus.uses) + [Taking(old(bus.StreamOf(this)))]
    {
      ghost var stream := bus.StreamOf(this);
      bus.Recall(Taking(stream));
      event := queue[0];
      queue := queue[1..];
      bus.uses := bus.uses + [Taking(stream)];
    }
  }

  class Bus {
    const queueBound: int
    const cap: nat
    var subscribers: seq<Subscription>

    /** Everything ever asked of this bus. */
    ghost var uses: seq<Use>

    ghost function History(): Fanout
      reads this
    {
      AfterUses(cap, queueBound, uses)
    }

    /** The subscribers are the open streams that history leaves, in order, queue for queue. */
    ghost predicate Valid()
      reads this, subscribers
    {
      && Distinct(subscribers)
      && |subscribers| == |History().open|
      && forall i | 0 <= i < |subscribers| ::
           var stream := History().open[i];
           && stream in History().streams
           && subscribers[i].identity == History().streams[stream].identity
           && subscribers[i].queue == History().streams[stream].queue
    }

    ghost function StreamOf(subscription: Subscription): StreamId
      reads this, subscribers
      requires Valid() && subscription in subscribers
    {
      var i :| 0 <= i < |subscribers| && subscribers[i] == subscription;
      History().open[i]
    }

    /** Unfolds the history by one use. */
    lemma Recall(use: Use)
      ensures AfterUses(cap, queueBound, uses + [use]) == Used(cap, queueBound, History(), use)
      ensures Bounded(cap, queueBound, History())
    {
      assert (uses + [use])[..|uses|] == uses;
      AlwaysBounded(cap, queueBound, uses);
    }

    /** What holds after any uses holds of the bus itself. */
    lemma StaysWithinBounds()
      requires Valid()
      ensures |subscribers| <= cap
      ensures queueBound > 0 ==> forall s | s in subscribers :: |s.queue| <= queueBound
    {
      AlwaysBounded(cap, queueBound, uses);
      if queueBound > 0 {
        forall i | 0 <= i < |subscribers|
          ensures |subscribers[i].queue| <= queueBound
        {
          assert History().open[i] in History().streams;
        }
      }
    }

    constructor (cap: nat, queueBound: int)
      ensures Valid() && uses == [] && this.cap == cap && this.queueBound == queueBound
    {
      this.cap := cap;
      this.queueBound := queueBound;
      subscribers := [];
      uses := [];
    }

    /** Refused at the door when the cap is reached. */
    method Subscribe(identity: Option<IdentityId>) returns (subscription: Subscription?)
      requires Valid()
      modifies this
      ensures Valid() && uses == old(uses) + [Subscribing(identity)]
      ensures subscription == null <==> |old(subscribers)| >= cap
      ensures subscription == null ==> subscribers == old(subscribers)
      ensures subscription != null ==>
        && fresh(subscription) && subscription.identity == identity
        && subscribers == old(subscribers) + [subscription]
    {
      Recall(Subscribing(identity));
      uses := uses + [Subscribing(identity)];
      if |subscribers| >= cap {
        return null;
      }
      subscription := new Subscription(identity);
      subscribers := subscribers + [subscription];
    }

    /** Removes the stream wherever it stands; a stream that already left is let be. */
    method Unsubscribe(subscription: Subscription)
      requires Valid()
      modifies this
      ensures Valid() && subscription !in subscribers
      ensures subscribers == Without(old(subscribers), subscription)
      ensures subscription in old(subscribers) ==> uses == old(uses) + [Unsubscribing(old(StreamOf(subscription)))]
      ensures subscription !in old(subscribers) ==> uses == old(uses)
    {
      WithoutKeeps(subscribers, subscription);
      if subscription !in subscribers {
        WithoutAbsent(subscribers, subscription);
      } else {
        ghost var stream := StreamOf(subscription);
        ghost var i :| 0 <= i < |subscribers| && subscribers[i] == subscription && History().open[i] == stream;
        Recall(Unsubscribing(stream));
        WithoutAt(subscribers, i);
        WithoutAt(History().open, i);
        uses := uses + [Unsubscribing(stream)];
      }
      subscribers := Without(subscribers, subscription);
    }

    /** One stream after another; whatever goes wrong with one is skipped, and publish never fails. */
    method Publish(event: BusEvent, answers: seq<AccessAnswer>)
      requires Valid() && |answers| == |subscribers|
      modifies this`uses, subscribers
      ensures Valid()
      ensures uses == old(uses) + [Publishing(event, ByStream(old(History()).open, answers))]
      ensures forall i | 0 <= i < |subscribers| ::
        subscribers[i].queue == Offered(queueBound, old(subscribers[i].queue), event, answers[i])
      ensures forall i | 0 <= i < |subscribers| ::
        subscribers[i].queue == Hears(queueBound, old(subscribers[i].queue), event, answers[i])
    {
      var snapshot := subscribers;
      for i := 0 to |snapshot|
        invariant subscribers == snapshot && uses == old(uses)
        invariant forall k | 0 <= k < i :: snapshot[k].queue == Offered(queueBound, old(snapshot[k].queue), event, answers[k])
        invariant forall k | i <= k < |snapshot| :: snapshot[k].queue == old(snapshot[k].queue)
      {
        var reachable := answers[i];
        if reachable.ReadFailed? {
          continue;
        }
        if reachable.repos.Some? && event.repo !in reachable.repos.value {
          continue;
        }
        if !Full(queueBound, snapshot[i].queue) {
          snapshot[i].queue := snapshot[i].queue + [event];
        }
      }
      forall i | 0 <= i < |subscribers| {
        OfferIsRaw(queueBound, old(subscribers[i].queue), event, answers[i]);
      }
      ghost var use := Publishing(event, ByStream(History().open, answers));
      Recall(use);
      AnswersByStream(History().open, answers);
      uses := uses + [use];
    }
  }

  // ---- any sequence of uses ----

  type StreamId = nat

  datatype Use =
    | Subscribing(identity: Option<IdentityId>)
    | Unsubscribing(stream: StreamId)
    | Publishing(event: BusEvent, answers: map<StreamId, AccessAnswer>)
    | Taking(stream: StreamId)

  datatype Stream = Stream(identity: Option<IdentityId>, taken: seq<BusEvent>, queue: seq<BusEvent>) {
    /** What the stream was given, read or not. */
    function Delivered(): seq<BusEvent> {
      taken + queue
    }
  }

  /** Every stream there ever was, and the open ones in the order publish walks them. */
  datatype Fanout = Fanout(streams: map<StreamId, Stream>, open: seq<StreamId>, next: StreamId)

  function AnswerFor(answers: map<StreamId, AccessAnswer>, stream: StreamId): AccessAnswer {
    if stream in answers then answers[stream] else ReadFailed
  }

  /** What each open stream's access re-read gave, by stream. */
  function ByStream(open: seq<StreamId>, answers: seq<AccessAnswer>): map<StreamId, AccessAnswer>
    requires |open| == |answers|
  {
    if open == [] then map[] else ByStream(open[1..], answers[1..])[open[0] := answers[0]]
  }

  lemma {:induction false} AnswersByStream(open: seq<StreamId>, answers: seq<AccessAnswer>)
    requires |open| == |answers| && Distinct(open)
    ensures forall i | 0 <= i < |open| :: AnswerFor(ByStream(open, answers), open[i]) == answers[i]
    ensures forall stream :: stream in ByStream(open, answers) <==> stream in open
  {
    if open == [] {
    } else {
      AnswersByStream(open[1..], answers[1..]);
      forall i | 0 <= i < |open|
        ensures AnswerFor(ByStream(open, answers), open[i]) == answers[i]
      {
        if i > 0 {
          assert open[1..][i - 1] == open[i] && open[i] != open[0];
        }
      }
    }
  }

  function Used(cap: nat, bound: int, bus: Fanout, use: Use): Fanout {
    match use
    case Subscribing(identity) =>
      if |bus.open| >= cap then bus
      else Fanout(bus.streams[bus.next := Stream(identity, [], [])], bus.open + [bus.next], bus.next + 1)
    case Unsubscribing(stream) => bus.(open := Without(bus.open, stream))
    case Publishing(event, answers) =>
      bus.(streams := map s | s in bus.streams ::
        if s in bus.open
        then bus.streams[s].(queue := Offered(bound, bus.streams[s].queue, event, AnswerFor(answers, s)))
        else bus.streams[s])
    case Taking(stream) =>
      if stream !in bus.streams || stream !in bus.open || bus.streams[stream].queue == [] then bus
      else
        var s := bus.streams[stream];
        bus.(streams := bus.streams[stream := s.(taken := s.taken + [s.queue[0]], queue := s.queue[1..])])
  }

  function AfterUses(cap: nat, bound: int, uses: seq<Use>): Fanout {
    if uses == [] then Fanout(map[], [], 0)
    else Used(cap, bound, AfterUses(cap, bound, uses[..|uses| - 1]), uses[|uses| - 1])
  }

  /** The events published while a stream was open that it could see at that moment, in order. */
  function Visible(cap: nat, bound: int, uses: seq<Use>, stream: StreamId): seq<BusEvent> {
    if uses == [] then []
    else
      var before, last := uses[..|uses| - 1], uses[|uses| - 1];
      Visible(cap, bound, before, stream)
      + (if last.Publishing? && stream in AfterUses(cap, bound, before).open && MaySee(AnswerFor(last.answers, stream), last.event)
         then [last.event] else [])
  }

  /** `part` is what is left of `whole` after some of its items are dropped. */
  predicate InOrder(part: seq<BusEvent>, whole: seq<BusEvent>)
    decreases |whole|
  {
    if part == [] then true
    else if whole == [] then false
    else
      || (part[|part| - 1] == whole[|whole| - 1] && InOrder(part[..|part| - 1], whole[..|whole| - 1]))
      || InOrder(part, whole[..|whole| - 1])
  }

  predicate Bounded(cap: nat, bound: int, bus: Fanout) {
    && |bus.open| <= cap
    && Distinct(bus.open)
    && (forall s | s in bus.open :: s in bus.streams)
    && (forall s | s in bus.streams :: s < bus.next)
    && (bound > 0 ==> forall s | s in bus.streams :: |bus.streams[s].queue| <= bound)
  }

  /** The cap and the queue bounds hold after any uses whatever. */
  lemma {:induction false} AlwaysBounded(cap: nat, bound: int, uses: seq<Use>)
    ensures Bounded(cap, bound, AfterUses(cap, bound, uses))
  {
    if uses == [] {
    } else {
      AlwaysBounded(cap, bound, uses[..|uses| - 1]);
      var bus, last := AfterUses(cap, bound, uses[..|uses| - 1]), uses[|uses| - 1];
      assert bus.next !in bus.open;
      if last.Unsubscribing? {
        WithoutKeeps(bus.open, last.stream);
      }
    }
  }

  lemma InOrderAppend(part: seq<BusEvent>, whole: seq<BusEvent>, event: BusEvent)
    requires InOrder(part, whole)
    ensures InOrder(part, whole + [event])
    ensures InOrder(part + [event], whole + [event])
  {
  }

  lemma UnknownStreamSawNothing(cap: nat, bound: int, uses: seq<Use>, stream: StreamId)
    requires stream >= AfterUses(cap, bound, uses).next
    ensures Visible(cap, bound, uses, stream) == []
    decreases |uses|
  {
    if uses != [] {
      var before := uses[..|uses| - 1];
      UnknownStreamSawNothing(cap, bound, before, stream);
      AlwaysBounded(cap, bound, before);
    }
  }

  /** One use gives a stream at most the event being published, at the end. */
  lemma DeliveryStep(cap: nat, bound: int, bus: Fanout, use: Use, stream: StreamId)
    requires stream in bus.streams && bus.next !in bus.streams
    ensures stream in Used(cap, bound, bus, use).streams
    ensures var before, after := bus.streams[stream], Used(cap, bound, bus, use).streams[stream];
            if use.Publishing? && stream in bus.open && MaySee(AnswerFor(use.answers, stream), use.event) && !Full(bound, before.queue)
            then after.Delivered() == before.Delivered() + [use.event]
            else after.Delivered() == before.Delivered()
  {
  }

  /** What a stream received and has queued is an in-order part of what it could see while open. */
  lemma {:induction false} DeliveryIsInOrder(cap: nat, bound: int, uses: seq<Use>, stream: StreamId)
    requires stream in AfterUses(cap, bound, uses).streams
    ensures InOrder(AfterUses(cap, bound, uses).streams[stream].Delivered(), Visible(cap, bound, uses, stream))
  {
    var before, last := uses[..|uses| - 1], uses[|uses| - 1];
    var bus := AfterUses(cap, bound, before);
    AlwaysBounded(cap, bound, before);
    if stream in bus.streams {
      DeliveryIsInOrder(cap, bound, before, stream);
      DeliveryStep(cap, bound, bus, last, stream);
      var seen := Visible(cap, bound, before, stream);
      if last.Publishing? {
        InOrderAppend(bus.streams[stream].Delivered(), seen, last.event);
      }
      assert seen + [] == seen;
    }
  }

  /** The visible events published while the stream's queue was full. */
  function Drops(cap: nat, bound: int, uses: seq<Use>, stream: StreamId): nat {
    if uses == [] then 0
    else
      var before, last := uses[..|uses| - 1], uses[|uses| - 1];
      var bus := AfterUses(cap, bound, before);
      Drops(cap, bound, before, stream)
      + (if last.Publishing? && stream in bus.open && MaySee(AnswerFor(last.answers, stream), last.event)
           && stream in bus.streams && Full(bound, bus.streams[stream].queue)
         then 1 else 0)
  }

  /** A full queue is the only way to miss a visible event: what was given and what was dropped add up. */
  lemma {:induction false} OnlyFullQueuesDrop(cap: nat, bound: int, uses: seq<Use>, stream: StreamId)
    requires stream in AfterUses(cap, bound, uses).streams
    ensures |AfterUses(cap, bound, uses).streams[stream].Delivered()| + Drops(cap, bound, uses, stream)
         == |Visible(cap, bound, uses, stream)|
  {
    var before, last := uses[..|uses| - 1], uses[|uses| - 1];
    var bus := AfterUses(cap, bound, before);
    AlwaysBounded(cap, bound, before);
    if stream in bus.streams {
      OnlyFullQueuesDrop(cap, bound, before, stream);
      DeliveryStep(cap, bound, bus, last, stream);
    } else {
      UnknownStreamSawNothing(cap, bound, before, stream);
      UnknownStreamMissedNothing(cap, bound, before, stream);
    }
  }

  lemma UnknownStreamMissedNothing(cap: nat, bound: int, uses: seq<Use>, stream: StreamId)
    requires stream >= AfterUses(cap, bound, uses).next
    ensures Drops(cap, bound, uses, stream) == 0
    decreases |uses|
  {
    if uses != [] {
      UnknownStreamMissedNothing(cap, bound, uses[..|uses| - 1], stream);
      AlwaysBounded(cap, bound, uses[..|uses| - 1]);
    }
  }

  /** A full queue keeps what it has and loses the event being published, the newest. */
  lemma NewestIsDropped(bound: int, queue: seq<BusEvent>, event: BusEvent, answer: AccessAnswer)
    requires MaySee(answer, event)
    ensures Offered(bound, queue, event, answer) == queue <==> Full(bound, queue)
  {
  }

  // ---- who may hear what, from the answers themselves ----

  /** The publish found the stream open, and its access re-read right then allowed the event's repo. */
  predicate AllowedAt(cap: nat, bound: int, uses: seq<Use>, k: nat, stream: StreamId, event: BusEvent) {
    && k < |uses| && uses[k].Publishing? && uses[k].event == event
    && stream in AfterUses(cap, bound, uses[..k]).open
    && stream in uses[k].answers
    && match uses[k].answers[stream]
       case ReadFailed => false
       case Scope(repos) => repos == None || event.repo in repos.value
  }

  /** Everything a stream ever received or has queued is an event it was allowed when that event was published. */
  lemma {:induction false} DeliveredWasAllowed(cap: nat, bound: int, uses: seq<Use>, stream: StreamId, i: nat) returns (k: nat)
    requires stream in AfterUses(cap, bound, uses).streams && i < |AfterUses(cap, bound, uses).streams[stream].Delivered()|
    ensures AllowedAt(cap, bound, uses, k, stream, AfterUses(cap, bound, uses).streams[stream].Delivered()[i])
  {
    var n := |uses| - 1;
    var before, last := uses[..n], uses[n];
    var bus := AfterUses(cap, bound, before);
    AlwaysBounded(cap, bound, before);
    DeliveryStep(cap, bound, bus, last, stream);
    if i < |bus.streams[stream].Delivered()| {
      k := DeliveredWasAllowed(cap, bound, before, stream, i);
      assert before[..k] == uses[..k];
    } else {
      k := n;
    }
  }

  /** A publish is queued for an open stream if and only if its answer allows the repo and there is room; nothing else changes a queue. */
  lemma PublishIsDecided(cap: nat, bound: int, bus: Fanout, event: BusEvent, answers: map<StreamId, AccessAnswer>, stream: StreamId)
    requires stream in bus.streams && stream in answers
    ensures var before, after := bus.streams[stream].queue, Used(cap, bound, bus, Publishing(event, answers)).streams[stream].queue;
            var room := bound <= 0 || |before| < bound;
            after == (match answers[stream]
                      case ReadFailed => before
                      case Scope(repos) =>
                        if stream in bus.open && room && (repos == None || event.repo in repos.value) then before + [event] else before)
  {
  }

  /** A stream may join while there are fewer than the cap, at the end of the walk and with nothing queued; leaving takes it off the walk. */
  lemma JoiningAndLeaving(cap: nat, bound: int, bus: Fanout, identity: Option<IdentityId>, stream: StreamId)
    requires Distinct(bus.open)
    ensures var joined := Used(cap, bound, bus, Subscribing(identity));
            if |bus.open| < cap then
              && joined.open == bus.open + [bus.next] && joined.next == bus.next + 1
              && joined.streams == bus.streams[bus.next := Stream(identity, [], [])]
            else joined == bus
    ensures var left := Used(cap, bound, bus, Unsubscribing(stream));
            && stream !in left.open && left.streams == bus.streams
            && forall other | other != stream :: other in left.open <==> other in bus.open
  {
    WithoutKeeps(bus.open, stream);
  }

  // ---- one stream cannot touch another ----

  /** Two histories that ask the same of one stream, whatever they ask of the others. */
  predicate SameFor(left: seq<Use>, right: seq<Use>, stream: StreamId) {
    && |left| == |right|
    && forall i | 0 <= i < |left| :: SameUse(left[i], right[i], stream)
  }

  predicate SameUse(left: Use, right: Use, stream: StreamId) {
    || left == right
    || (left.Publishing? && right.Publishing? && left.event == right.event
        && AnswerFor(left.answers, stream) == AnswerFor(right.answers, stream))
    || (left.Taking? && right.Taking? && left.stream != stream && right.stream != stream)
  }

  predicate SameStream(left: Fanout, right: Fanout, stream: StreamId) {
    && left.open == right.open && left.next == right.next
    && (stream in left.streams <==> stream in right.streams)
    && (stream in left.streams ==> left.streams[stream] == right.streams[stream])
  }

  lemma UseIsIsolated(cap: nat, bound: int, l: Fanout, r: Fanout, left: Use, right: Use, stream: StreamId)
    requires SameStream(l, r, stream) && SameUse(left, right, stream)
    ensures SameStream(Used(cap, bound, l, left), Used(cap, bound, r, right), stream)
  {
  }

  /** Streams that stall, fill or fail change nothing about what another stream is given. */
  lemma {:induction false} StreamsAreIsolated(cap: nat, bound: int, left: seq<Use>, right: seq<Use>, stream: StreamId)
    requires SameFor(left, right, stream)
    ensures SameStream(AfterUses(cap, bound, left), AfterUses(cap, bound, right), stream)
  {
    if left == [] {
    } else {
      var n := |left| - 1;
      StreamsAreIsolated(cap, bound, left[..n], right[..n], stream);
      UseIsIsolated(cap, bound, AfterUses(cap, bound, left[..n]), AfterUses(cap, bound, right[..n]), left[n], right[n], stream);
    }
  }
}
