/**
 Publishes that overlap. A publish walks the subscribers it found when it started and waits on a read for
 each, so others can start, and reach a stream first, in between. Alone it is the one use of the bus that
 `EventBus` describes; overlapping, exactly when a stream hears in the order of the publishes is proved.
 */
module PublishOverlap {
  import opened Models
  import opened Dispatch
  import opened EventBus

  /** Publishes are numbered in the order they start. */
  type PublishId = nat

  /** A publish under way: its event, and the streams it has still to offer it to. */
  datatype Publication = Publication(event: BusEvent, rest: seq<StreamId>)

  datatype Airing = Airing(bus: Fanout, publishes: seq<Publication>)

  datatype Act = Quiet(use: Use) | Starting(event: BusEvent) | Offering(publish: PublishId, answer: AccessAnswer)

  predicate Offers(air: Airing, act: Act) {
    act.Offering? && act.publish < |air.publishes| && air.publishes[act.publish].rest != []
  }

  function OfferedTo(bound: int, bus: Fanout, stream: StreamId, event: BusEvent, answer: AccessAnswer): Fanout {
    if stream !in bus.streams then bus
    else
      var s := bus.streams[stream];
      bus.(streams := bus.streams[stream := s.(queue := Offered(bound, s.queue, event, answer))])
  }

  function Acted(cap: nat, bound: int, air: Airing, act: Act): Airing {
    match act
    case Quiet(use) => if use.Publishing? then air else air.(bus := Used(cap, bound, air.bus, use))
    case Starting(event) => air.(publishes := air.publishes + [Publication(event, air.bus.open)])
    case Offering(publish, answer) =>
      if !Offers(air, act) then air
      else
        var p := air.publishes[publish];
        Airing(OfferedTo(bound, air.bus, p.rest[0], p.event, answer), air.publishes[publish := p.(rest := p.rest[1..])])
  }

  function Aired(cap: nat, bound: int, air: Airing, acts: seq<Act>): Airing {
    if acts == [] then air
    else Acted(cap, bound, Aired(cap, bound, air, acts[..|acts| - 1]), acts[|acts| - 1])
  }

  /** The act puts its publish's event into this stream's queue. */
  predicate Lands(bound: int, air: Airing, act: Act, stream: StreamId) {
    && Offers(air, act)
    && air.publishes[act.publish].rest[0] == stream && stream in air.bus.streams
    && MaySee(act.answer, air.publishes[act.publish].event) && !Full(bound, air.bus.streams[stream].queue)
  }

  /** The publishes whose event a stream was given, in the order it was given them. */
  function Given(cap: nat, bound: int, air: Airing, acts: seq<Act>, stream: StreamId): seq<PublishId> {
    if acts == [] then []
    else
      var before, last := acts[..|acts| - 1], acts[|acts| - 1];
      Given(cap, bound, air, before, stream)
      + (if Lands(bound, Aired(cap, bound, air, before), last, stream) then [last.publish] else [])
  }

  const SILENT := Airing(Fanout(map[], [], 0), [])

  // ---- what every sequence of acts keeps ----

  predicate WellAired(cap: nat, bound: int, air: Airing) {
    && Bounded(cap, bound, air.bus)
    && forall p | 0 <= p < |air.publishes| ::
         Distinct(air.publishes[p].rest) && forall s | s in air.publishes[p].rest :: s in air.bus.streams
  }

  lemma ActKeeps(cap: nat, bound: int, air: Airing, act: Act)
    requires WellAired(cap, bound, air)
    ensures WellAired(cap, bound, Acted(cap, bound, air, act))
    ensures air.bus.streams.Keys <= Acted(cap, bound, air, act).bus.streams.Keys
  {
    assert air.bus.next !in air.bus.open;
    if act.Quiet? && act.use.Unsubscribing? {
      WithoutKeeps(air.bus.open, act.use.stream);
    }
  }

  /** The cap and the queue bounds hold however publishes overlap. */
  lemma {:induction false} OverlapStaysBounded(cap: nat, bound: int, air: Airing, acts: seq<Act>)
    requires WellAired(cap, bound, air)
    ensures WellAired(cap, bound, Aired(cap, bound, air, acts))
    ensures air.bus.streams.Keys <= Aired(cap, bound, air, acts).bus.streams.Keys
  {
    if acts == [] {
    } else {
      var before := acts[..|acts| - 1];
      OverlapStaysBounded(cap, bound, air, before);
      ActKeeps(cap, bound, Aired(cap, bound, air, before), acts[|acts| - 1]);
    }
  }

  function EventsOf(publishes: seq<Publication>, ids: seq<PublishId>): seq<BusEvent>
    requires forall i | 0 <= i < |ids| :: ids[i] < |publishes|
  {
    seq(|ids|, i requires 0 <= i < |ids| => publishes[ids[i]].event)
  }

  /** What a stream received and has queued is exactly the events of the publishes it was given, once each, in that order. */
  lemma {:induction false} DeliveredIsGiven(cap: nat, bound: int, acts: seq<Act>, stream: StreamId)
    ensures var air, given := Aired(cap, bound, SILENT, acts), Given(cap, bound, SILENT, acts, stream);
            && (forall i | 0 <= i < |given| :: given[i] < |air.publishes|)
            && (stream in air.bus.streams ==> air.bus.streams[stream].Delivered() == EventsOf(air.publishes, given))
            && (stream !in air.bus.streams ==> given == [])
            && (forall i, p | 0 <= i < |given| && Ahead(air, p, stream) :: given[i] != p)
            && (forall i, k | 0 <= i < k < |given| :: given[i] != given[k])
  {
    if acts == [] {
    } else {
      var before, last := acts[..|acts| - 1], acts[|acts| - 1];
      var air := Aired(cap, bound, SILENT, before);
      DeliveredIsGiven(cap, bound, before, stream);
      OverlapStaysBounded(cap, bound, SILENT, before);
      DeliveryAct(cap, bound, air, last, stream);
    }
  }

  lemma DeliveryAct(cap: nat, bound: int, air: Airing, act: Act, stream: StreamId)
    requires WellAired(cap, bound, air)
    ensures var after := Acted(cap, bound, air, act);
            && |air.publishes| <= |after.publishes|
            && (forall p | 0 <= p < |air.publishes| :: after.publishes[p].event == air.publishes[p].event)
            && (stream in air.bus.streams ==>
                  && stream in after.bus.streams
                  && after.bus.streams[stream].Delivered()
                     == air.bus.streams[stream].Delivered()
                        + (if Lands(bound, air, act, stream) then [air.publishes[act.publish].event] else []))
            && (stream !in air.bus.streams && stream in after.bus.streams ==> after.bus.streams[stream].Delivered() == [])
            && (forall p | Ahead(after, p, stream) :: p == |air.publishes| || Ahead(air, p, stream))
            && (Lands(bound, air, act, stream) ==> Ahead(air, act.publish, stream) && !Ahead(after, act.publish, stream))
  {
    if act.Quiet? {
      if stream in air.bus.streams && !act.use.Publishing? {
        DeliveryStep(cap, bound, air.bus, act.use, stream);
      }
    } else if Offers(air, act) {
      var p := air.publishes[act.publish];
      assert p.rest == [p.rest[0]] + p.rest[1..];
      if Lands(bound, air, act, stream) {
        var s := air.bus.streams[stream];
        assert s.taken + (s.queue + [p.event]) == s.Delivered() + [p.event];
        assert forall k | 0 <= k < |p.rest[1..]| :: p.rest[1..][k] == p.rest[k + 1] != p.rest[0];
      }
    }
  }

  // ---- who may hear what ----

  /** This act offered the event of a publish to a stream, with an answer that allows its repo. */
  predicate AllowedBy(act: Act, p: PublishId, event: BusEvent) {
    && act.Offering? && act.publish == p
    && match act.answer
       case ReadFailed => false
       case Scope(repos) => repos == None || event.repo in repos.value
  }

  /** However publishes overlap, a stream is given a publish only at an offer whose own re-read allowed the event's repo. */
  lemma {:induction false} GivenWasAllowed(cap: nat, bound: int, acts: seq<Act>, stream: StreamId, i: nat) returns (k: nat)
    requires i < |Given(cap, bound, SILENT, acts, stream)|
    ensures k < |acts| && Given(cap, bound, SILENT, acts, stream)[i] < |Aired(cap, bound, SILENT, acts[..k]).publishes|
    ensures var p := Given(cap, bound, SILENT, acts, stream)[i];
            && AllowedBy(acts[k], p, Aired(cap, bound, SILENT, acts[..k]).publishes[p].event)
            && stream in Aired(cap, bound, SILENT, acts[..k]).publishes[p].rest
  {
    var n := |acts| - 1;
    var before := acts[..n];
    if i < |Given(cap, bound, SILENT, before, stream)| {
      k := GivenWasAllowed(cap, bound, before, stream, i);
      assert before[..k] == acts[..k];
    } else {
      k := n;
    }
  }

  /** A publish waits for exactly the streams open when it starts, and keeps its event. */
  lemma {:induction false} PublishWaitsForTheOpen(cap: nat, bound: int, acts: seq<Act>, p: PublishId, stream: StreamId) returns (k: nat)
    requires p < |Aired(cap, bound, SILENT, acts).publishes|
    ensures k < |acts| && acts[k].Starting? && acts[k].event == Aired(cap, bound, SILENT, acts).publishes[p].event
    ensures stream in Aired(cap, bound, SILENT, acts).publishes[p].rest ==> stream in Aired(cap, bound, SILENT, acts[..k]).bus.open
    ensures |Aired(cap, bound, SILENT, acts[..k]).publishes| == p
  {
    var n := |acts| - 1;
    var before := acts[..n];
    var air := Aired(cap, bound, SILENT, before);
    if p < |air.publishes| {
      k := PublishWaitsForTheOpen(cap, bound, before, p, stream);
      assert before[..k] == acts[..k];
    } else {
      k := n;
    }
  }

  lemma {:induction false} EventStays(cap: nat, bound: int, acts: seq<Act>, k: nat, p: PublishId)
    requires k <= |acts| && p < |Aired(cap, bound, SILENT, acts[..k]).publishes|
    ensures p < |Aired(cap, bound, SILENT, acts).publishes|
    ensures Aired(cap, bound, SILENT, acts).publishes[p].event == Aired(cap, bound, SILENT, acts[..k]).publishes[p].event
  {
    if k == |acts| {
      assert acts[..k] == acts;
    } else {
      var before := acts[..|acts| - 1];
      assert before[..k] == acts[..k];
      EventStays(cap, bound, before, k, p);
    }
  }

  /**
   Everything a stream ever received or has queued, however publishes overlapped, is the event of a publish
   that started while the stream was open, and was allowed by the re-read made for that stream.
   */
  lemma OverlapDeliveredWasAllowed(cap: nat, bound: int, acts: seq<Act>, stream: StreamId, i: nat) returns (started: nat, offered: nat)
    requires stream in Aired(cap, bound, SILENT, acts).bus.streams
    requires i < |Aired(cap, bound, SILENT, acts).bus.streams[stream].Delivered()|
    ensures var event := Aired(cap, bound, SILENT, acts).bus.streams[stream].Delivered()[i];
            && started < offered < |acts|
            && acts[started] == Starting(event) && stream in Aired(cap, bound, SILENT, acts[..started]).bus.open
            && AllowedBy(acts[offered], |Aired(cap, bound, SILENT, acts[..started]).publishes|, event)
  {
    DeliveredIsGiven(cap, bound, acts, stream);
    var p := Given(cap, bound, SILENT, acts, stream)[i];
    offered := GivenWasAllowed(cap, bound, acts, stream, i);
    EventStays(cap, bound, acts, offered, p);
    started := PublishWaitsForTheOpen(cap, bound, acts[..offered], p, stream);
    assert acts[..offered][..started] == acts[..started];
  }

  /** An offer is queued if and only if its answer allows the repo and there is room. */
  lemma OfferIsDecided(cap: nat, bound: int, air: Airing, p: PublishId, answer: AccessAnswer, stream: StreamId)
    requires p < |air.publishes| && air.publishes[p].rest != [] && air.publishes[p].rest[0] == stream && stream in air.bus.streams
    ensures var before, after := air.bus.streams[stream].queue, Acted(cap, bound, air, Offering(p, answer)).bus.streams[stream].queue;
            var event := air.publishes[p].event;
            after == (match answer
                      case ReadFailed => before
                      case Scope(repos) =>
                        if (bound <= 0 || |before| < bound) && (repos == None || event.repo in repos.value) then before + [event] else before)
  {
  }

  // ---- alone ----

  function OffersOf(publish: PublishId, answers: seq<AccessAnswer>): seq<Act> {
    seq(|answers|, i requires 0 <= i < |answers| => Offering(publish, answers[i]))
  }

  /** The last publish has reached its first streams, with these answers, and nothing else has changed. */
  ghost predicate HasReached(bound: int, air: Airing, after: Airing, answers: seq<AccessAnswer>)
    requires air.publishes != [] && |answers| <= |air.publishes[|air.publishes| - 1].rest|
  {
    var p := |air.publishes| - 1;
    var publication := air.publishes[p];
    && after.publishes == air.publishes[p := publication.(rest := publication.rest[|answers|..])]
    && after.bus == air.bus.(streams := after.bus.streams)
    && after.bus.streams.Keys == air.bus.streams.Keys
    && (forall s | s in air.bus.streams && s !in publication.rest[..|answers|] :: after.bus.streams[s] == air.bus.streams[s])
    && (forall i | 0 <= i < |answers| ::
          var s := publication.rest[i];
          && s in air.bus.streams
          && after.bus.streams[s] == air.bus.streams[s].(queue := Offered(bound, air.bus.streams[s].queue, publication.event, answers[i])))
  }

  lemma {:induction false} Reached(cap: nat, bound: int, air: Airing, answers: seq<AccessAnswer>)
    requires WellAired(cap, bound, air) && air.publishes != []
    requires |answers| <= |air.publishes[|air.publishes| - 1].rest|
    ensures HasReached(bound, air, Aired(cap, bound, air, OffersOf(|air.publishes| - 1, answers)), answers)
  {
    var p := |air.publishes| - 1;
    if answers == [] {
      assert air.publishes[p := air.publishes[p]] == air.publishes;
    } else {
      var n := |answers| - 1;
      Reached(cap, bound, air, answers[..n]);
      assert OffersOf(p, answers)[..n] == OffersOf(p, answers[..n]);
      NextReached(cap, bound, air, Aired(cap, bound, air, OffersOf(p, answers[..n])), answers);
    }
  }

  lemma NextReached(cap: nat, bound: int, air: Airing, middle: Airing, answers: seq<AccessAnswer>)
    requires WellAired(cap, bound, air) && air.publishes != [] && answers != []
    requires |answers| <= |air.publishes[|air.publishes| - 1].rest|
    requires HasReached(bound, air, middle, answers[..|answers| - 1])
    ensures HasReached(bound, air, Acted(cap, bound, middle, Offering(|air.publishes| - 1, answers[|answers| - 1])), answers)
  {
    var n, rest := |answers| - 1, air.publishes[|air.publishes| - 1].rest;
    assert rest[n..][0] == rest[n] && rest[n..][1..] == rest[n + 1..];
    assert rest[..n + 1] == rest[..n] + [rest[n]];
    assert rest[n] !in rest[..n];
  }

  /** A publish nothing comes between is the one use of the bus: every open stream offered the event at once. */
  lemma AloneIsPublishing(cap: nat, bound: int, air: Airing, event: BusEvent, answers: seq<AccessAnswer>)
    requires WellAired(cap, bound, air) && |answers| == |air.bus.open|
    ensures var after := Aired(cap, bound, Acted(cap, bound, air, Starting(event)), OffersOf(|air.publishes|, answers));
            && after.bus == Used(cap, bound, air.bus, Publishing(event, ByStream(air.bus.open, answers)))
            && after.publishes == air.publishes + [Publication(event, [])]
  {
    var started := Acted(cap, bound, air, Starting(event));
    ActKeeps(cap, bound, air, Starting(event));
    Reached(cap, bound, started, answers);
    assert started.publishes[|air.publishes|] == Publication(event, air.bus.open);
    assert air.bus.open[..|answers|] == air.bus.open && air.bus.open[|answers|..] == [];
    OfferedToAll(cap, bound, air.bus, event, answers, Aired(cap, bound, started, OffersOf(|air.publishes|, answers)).bus.streams);
  }

  lemma OfferedToAll(cap: nat, bound: int, bus: Fanout, event: BusEvent, answers: seq<AccessAnswer>, streams: map<StreamId, Stream>)
    requires Distinct(bus.open) && |answers| == |bus.open| && streams.Keys == bus.streams.Keys
    requires forall s | s in bus.streams && s !in bus.open :: streams[s] == bus.streams[s]
    requires forall i | 0 <= i < |answers| ::
      var s := bus.open[i];
      s in bus.streams && streams[s] == bus.streams[s].(queue := Offered(bound, bus.streams[s].queue, event, answers[i]))
    ensures bus.(streams := streams) == Used(cap, bound, bus, Publishing(event, ByStream(bus.open, answers)))
  {
    AnswersByStream(bus.open, answers);
    var published := Used(cap, bound, bus, Publishing(event, ByStream(bus.open, answers)));
    forall s | s in bus.streams
      ensures streams[s] == published.streams[s]
    {
      if s in bus.open {
        var i :| 0 <= i < |bus.open| && bus.open[i] == s;
      }
    }
    assert streams == published.streams;
  }

  // ---- order ----

  predicate InStartOrder(ids: seq<PublishId>) {
    forall i, k | 0 <= i < k < |ids| :: ids[i] < ids[k]
  }

  /** The publish is under way and has this stream still to reach. */
  predicate Ahead(air: Airing, p: PublishId, stream: StreamId) {
    p < |air.publishes| && stream in air.publishes[p].rest
  }

  ghost predicate AtMostOneAhead(air: Airing, stream: StreamId) {
    forall p, q | Ahead(air, p, stream) && Ahead(air, q, stream) :: p == q
  }

  /** In order so far, and nothing older is still to come. */
  ghost predicate OrderedSoFar(air: Airing, given: seq<PublishId>, stream: StreamId) {
    InStartOrder(given) && forall i, p | 0 <= i < |given| && Ahead(air, p, stream) :: given[i] < p
  }

  predicate OffersOnly(acts: seq<Act>) {
    forall act | act in acts :: act.Offering?
  }

  /** An offer can only bring the stream the one publish it still waits for. */
  lemma OfferKeepsOrder(cap: nat, bound: int, air: Airing, given: seq<PublishId>, act: Act, stream: StreamId)
    requires WellAired(cap, bound, air) && act.Offering?
    requires OrderedSoFar(air, given, stream) && AtMostOneAhead(air, stream)
    ensures var after := Acted(cap, bound, air, act);
            OrderedSoFar(after, given + (if Lands(bound, air, act, stream) then [act.publish] else []), stream)
            && AtMostOneAhead(after, stream)
  {
    DeliveryAct(cap, bound, air, act, stream);
  }

  lemma {:induction false} OffersKeepOrder(cap: nat, bound: int, air: Airing, given: seq<PublishId>, more: seq<Act>, stream: StreamId)
    requires WellAired(cap, bound, air) && OffersOnly(more)
    requires OrderedSoFar(air, given, stream) && AtMostOneAhead(air, stream)
    ensures var after := Aired(cap, bound, air, more);
            OrderedSoFar(after, given + Given(cap, bound, air, more, stream), stream) && AtMostOneAhead(after, stream)
  {
    if more == [] {
      assert given + [] == given;
    } else {
      var before, last := more[..|more| - 1], more[|more| - 1];
      OffersKeepOrder(cap, bound, air, given, before, stream);
      OverlapStaysBounded(cap, bound, air, before);
      var earlier := given + Given(cap, bound, air, before, stream);
      OfferKeepsOrder(cap, bound, Aired(cap, bound, air, before), earlier, last, stream);
      assert given + Given(cap, bound, air, more, stream)
          == earlier + (if Lands(bound, Aired(cap, bound, air, before), last, stream) then [last.publish] else []);
    }
  }

  lemma {:induction false} Concat(cap: nat, bound: int, air: Airing, first: seq<Act>, second: seq<Act>, stream: StreamId)
    ensures Aired(cap, bound, air, first + second) == Aired(cap, bound, Aired(cap, bound, air, first), second)
    ensures Given(cap, bound, air, first + second, stream)
         == Given(cap, bound, air, first, stream) + Given(cap, bound, Aired(cap, bound, air, first), second, stream)
  {
    if second == [] {
      assert first + second == first;
    } else {
      var before := second[..|second| - 1];
      assert (first + second)[..|first + second| - 1] == first + before;
      Concat(cap, bound, air, first, before, stream);
    }
  }

  predicate Room(bound: int, air: Airing, stream: StreamId, n: nat) {
    stream in air.bus.streams && (bound <= 0 || |air.bus.streams[stream].queue| + n <= bound)
  }

  /** A publish under way can be the next to reach a stream that is ahead of it, touching no other publish. */
  lemma {:induction false} CanReachNext(cap: nat, bound: int, air: Airing, p: PublishId, stream: StreamId, n: nat) returns (more: seq<Act>)
    requires WellAired(cap, bound, air) && Ahead(air, p, stream) && Room(bound, air, stream, n + 1)
    ensures OffersOnly(more) && Given(cap, bound, air, more, stream) == [p]
    ensures var after := Aired(cap, bound, air, more);
            && WellAired(cap, bound, after) && Room(bound, after, stream, n)
            && |after.publishes| == |air.publishes|
            && forall q | 0 <= q < |air.publishes| && q != p :: after.publishes[q] == air.publishes[q]
    decreases |air.publishes[p].rest|
  {
    var arrives := air.publishes[p].rest[0] == stream;
    var act := Offering(p, if arrives then Scope(None) else ReadFailed);
    var next := Acted(cap, bound, air, act);
    OneAct(cap, bound, air, act, stream);
    ActKeeps(cap, bound, air, act);
    if arrives {
      more := [act];
    } else {
      assert stream in air.publishes[p].rest[1..];
      var rest := CanReachNext(cap, bound, next, p, stream, n);
      Concat(cap, bound, air, [act], rest, stream);
      more := [act] + rest;
    }
  }

  lemma OneAct(cap: nat, bound: int, air: Airing, act: Act, stream: StreamId)
    ensures Aired(cap, bound, air, [act]) == Acted(cap, bound, air, act)
    ensures Given(cap, bound, air, [act], stream) == if Lands(bound, air, act, stream) then [act.publish] else []
  {
    assert [act][..0] == [];
    assert Aired(cap, bound, air, []) == air && Given(cap, bound, air, [], stream) == [];
  }

  /**
   A stream that has heard in order goes on hearing in order however the publishes under way proceed, if and
   only if at most one of them has it still to reach.
   */
  lemma OrderIsExact(cap: nat, bound: int, air: Airing, given: seq<PublishId>, stream: StreamId)
    requires WellAired(cap, bound, air) && OrderedSoFar(air, given, stream) && Room(bound, air, stream, 2)
    ensures (forall more | OffersOnly(more) :: InStartOrder(given + Given(cap, bound, air, more, stream)))
       <==> AtMostOneAhead(air, stream)
  {
    if AtMostOneAhead(air, stream) {
      forall more | OffersOnly(more)
        ensures InStartOrder(given + Given(cap, bound, air, more, stream))
      {
        OffersKeepOrder(cap, bound, air, given, more, stream);
      }
    } else {
      var p, q :| Ahead(air, p, stream) && Ahead(air, q, stream) && p < q;
      var more := LaterComesFirst(cap, bound, air, p, q, stream);
      var all := given + Given(cap, bound, air, more, stream);
      assert all[|given|] == q && all[|given| + 1] == p;
    }
  }

  lemma LaterComesFirst(cap: nat, bound: int, air: Airing, p: PublishId, q: PublishId, stream: StreamId) returns (more: seq<Act>)
    requires WellAired(cap, bound, air) && Ahead(air, p, stream) && Ahead(air, q, stream) && p != q && Room(bound, air, stream, 2)
    ensures OffersOnly(more) && Given(cap, bound, air, more, stream) == [q, p]
  {
    var first := CanReachNext(cap, bound, air, q, stream, 1);
    var second := CanReachNext(cap, bound, Aired(cap, bound, air, first), p, stream, 0);
    Concat(cap, bound, air, first, second, stream);
    more := first + second;
  }

  /** No publish starts while another still has a stream to reach. */
  predicate Serial(cap: nat, bound: int, acts: seq<Act>) {
    if acts == [] then true
    else
      var before, last := acts[..|acts| - 1], acts[|acts| - 1];
      && Serial(cap, bound, before)
      && (last.Starting? ==>
            var air := Aired(cap, bound, SILENT, before);
            forall p | 0 <= p < |air.publishes| :: air.publishes[p].rest == [])
  }

  /** Publishes that do not overlap reach every stream in the order they start, whatever else happens. */
  lemma {:induction false} SerialArrivesInOrder(cap: nat, bound: int, acts: seq<Act>, stream: StreamId)
    requires Serial(cap, bound, acts)
    ensures var air := Aired(cap, bound, SILENT, acts);
            OrderedSoFar(air, Given(cap, bound, SILENT, acts, stream), stream) && AtMostOneAhead(air, stream)
  {
    if acts == [] {
    } else {
      var before, last := acts[..|acts| - 1], acts[|acts| - 1];
      var air := Aired(cap, bound, SILENT, before);
      SerialArrivesInOrder(cap, bound, before, stream);
      OverlapStaysBounded(cap, bound, SILENT, before);
      DeliveredIsGiven(cap, bound, before, stream);
      DeliveryAct(cap, bound, air, last, stream);
      if last.Offering? {
        OfferKeepsOrder(cap, bound, air, Given(cap, bound, SILENT, before, stream), last, stream);
      }
    }
  }
}
