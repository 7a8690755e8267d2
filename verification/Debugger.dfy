/** The debugger page: requests and responses arrive as events, in any order, and are paired by id. */
module Debugger {
  import opened Prelude
  import opened Decimal
  import opened RequestIds

  /** `head` stands for the method and URL or the status, and the headers. */
  datatype Content = Content(head: string, body: string)

  datatype Reply = Reply(requestId: string, content: Content)

  datatype Event = RequestEvent(id: string, content: Content) | ResponseEvent(reply: Reply)

  datatype Card = Card(id: string, content: Content, response: Option<Reply>)

  datatype Page = Page(requests: seq<Card>, unmatched: seq<Reply>)

  const EMPTY_PAGE := Page([], [])

  /** The position of the first request with this id, or the number of requests. */
  function FindRequest(requests: seq<Card>, id: string): (k: nat)
    ensures k <= |requests|
    ensures k < |requests| ==> requests[k].id == id
    ensures forall i :: 0 <= i < k ==> requests[i].id != id
  {
    if requests == [] || requests[0].id == id then 0 else 1 + FindRequest(requests[1..], id)
  }

  /** The position of the first unmatched response to this id, or the number of them. */
  function FindResponse(unmatched: seq<Reply>, id: string): (k: nat)
    ensures k <= |unmatched|
    ensures k < |unmatched| ==> unmatched[k].requestId == id
    ensures forall i :: 0 <= i < k ==> unmatched[i].requestId != id
  {
    if unmatched == [] || unmatched[0].requestId == id then 0 else 1 + FindResponse(unmatched[1..], id)
  }

  function HandleResponse(page: Page, reply: Reply): Page {
    var k := FindRequest(page.requests, reply.requestId);
    if k < |page.requests| then
      page.(requests := page.requests[k := page.requests[k].(response := Some(reply))])
    else page.(unmatched := page.unmatched + [reply])
  }

  function Handle(page: Page, e: Event): Page {
    match e
    case ResponseEvent(reply) => HandleResponse(page, reply)
    case RequestEvent(id, content) =>
      var shown := page.(requests := page.requests + [Card(id, content, None)]);
      var k := FindResponse(page.unmatched, id);
      if k < |page.unmatched| then HandleResponse(shown, page.unmatched[k]) else shown
  }

  function HandleAll(events: seq<Event>): Page {
    if events == [] then EMPTY_PAGE else Handle(HandleAll(events[..|events| - 1]), events[|events| - 1])
  }

  /** The page script's state and event handler. */
  class Inspector {
    var requests: seq<Card>
    var unmatched: seq<Reply>

    constructor ()
      ensures Contents() == EMPTY_PAGE
    {
      requests, unmatched := [], [];
    }

    function Contents(): Page
      reads this
    {
      Page(requests, unmatched)
    }

    method HandleEvent(e: Event)
      modifies this
      ensures Contents() == Handle(old(Contents()), e)
      decreases if e.RequestEvent? then 1 else 0
    {
      if e.ResponseEvent? {
        var k := LookForRequest(e.reply.requestId);
        if k < |requests| {
          requests := requests[k := requests[k].(response := Some(e.reply))];
        } else {
          unmatched := unmatched + [e.reply];
        }
      } else {
        requests := requests + [Card(e.id, e.content, None)];
        var k := LookForResponse(e.id);
        if k < |unmatched| {
          HandleEvent(ResponseEvent(unmatched[k]));
        }
      }
    }

    method LookForRequest(id: string) returns (k: nat)
      ensures k == FindRequest(requests, id)
    {
      k := 0;
      while k < |requests| && requests[k].id != id
        invariant k <= |requests|
        invariant FindRequest(requests, id) == k + FindRequest(requests[k..], id)
      {
        assert requests[k..][1..] == requests[k + 1..];
        k := k + 1;
      }
    }

    method LookForResponse(id: string) returns (k: nat)
      ensures k == FindResponse(unmatched, id)
    {
      k := 0;
      while k < |unmatched| && unmatched[k].requestId != id
        invariant k <= |unmatched|
        invariant FindResponse(unmatched, id) == k + FindResponse(unmatched[k..], id)
      {
        assert unmatched[k..][1..] == unmatched[k + 1..];
        k := k + 1;
      }
    }
  }

  // ---- where the events come from ----

  /** One message as net/http parses it; `length` is the declared Content-Length, 0 when there is none. */
  datatype Message = Message(head: string, length: int, body: string)

  /** What one call to the parser gives. */
  datatype Parse = Parsed(message: Message) | ParseError

  /** How many messages come before the first error. The connection ends after the last outcome. */
  function Readable(outcomes: seq<Parse>): (n: nat)
    ensures n <= |outcomes|
    ensures forall k :: 0 <= k < n ==> outcomes[k].Parsed?
    ensures n < |outcomes| ==> outcomes[n].ParseError?
  {
    if outcomes == [] || outcomes[0].ParseError? then 0 else 1 + Readable(outcomes[1..])
  }

  /** The head is kept, and the body exactly when its declared length is from 1 to 65535. */
  predicate Tells(c: Content, m: Message) {
    c.head == m.head && c.body == (if 1 <= m.length <= 65535 then m.body else "")
  }

  function EventId(e: Event): string {
    match e
    case RequestEvent(id, _) => id
    case ResponseEvent(reply) => reply.requestId
  }

  function EventContent(e: Event): Content {
    match e
    case RequestEvent(_, content) => content
    case ResponseEvent(reply) => reply.content
  }

  /** The event carries the id of the k-th exchange on the connection and tells the message. */
  predicate Reports(e: Event, connection: string, k: nat, m: Message) {
    EventId(e) == connection + "000" + Itoa(k) && Tells(EventContent(e), m)
  }

  lemma ReportsIntro(e: Event, connection: string, k: nat, m: Message)
    requires EventId(e) == connection + "000" + Itoa(k) && Tells(EventContent(e), m)
    ensures Reports(e, connection, k, m)
  {
  }

  method ParseRequests(connection: string, outcomes: seq<Parse>) returns (events: seq<Event>)
    ensures |events| == Readable(outcomes)
    ensures forall k :: 0 <= k < |events| ==> events[k].RequestEvent? && Reports(events[k], connection, k, outcomes[k].message)
  {
    hide Reports;
    events := [];
    var i := 0;
    while i < |outcomes|
      invariant |events| == i <= Readable(outcomes)
      invariant Readable(outcomes) == i + Readable(outcomes[i..])
      invariant forall k :: 0 <= k < i ==>
        events[k].RequestEvent? && Reports(events[k], connection, k, outcomes[k].message)
    {
      if outcomes[i].ParseError? { break; }
      var message := outcomes[i].message;
      var content := Content(message.head, "");
      if message.length > 0 && message.length < 65536 {
        content := content.(body := message.body);
      }
      var event := RequestEvent(connection + "000" + Itoa(i), content);
      assert Reports(event, connection, i, message) by {
        ReportsIntro(event, connection, i, message);
      }
      events := events + [event];
      assert outcomes[i..][1..] == outcomes[i + 1..];
      i := i + 1;
    }
  }

  method ParseResponses(connection: string, outcomes: seq<Parse>) returns (events: seq<Event>)
    ensures |events| == Readable(outcomes)
    ensures forall k :: 0 <= k < |events| ==> events[k].ResponseEvent? && Reports(events[k], connection, k, outcomes[k].message)
  {
    hide Reports;
    events := [];
    var i := 0;
    while i < |outcomes|
      invariant |events| == i <= Readable(outcomes)
      invariant Readable(outcomes) == i + Readable(outcomes[i..])
      invariant forall k :: 0 <= k < i ==>
        events[k].ResponseEvent? && Reports(events[k], connection, k, outcomes[k].message)
    {
      if outcomes[i].ParseError? { break; }
      var message := outcomes[i].message;
      var content := Content(message.head, "");
      if message.length > 0 && message.length < 65536 {
        content := content.(body := message.body);
      }
      var event := ResponseEvent(Reply(connection + "000" + Itoa(i), content));
      assert Reports(event, connection, i, message) by {
        ReportsIntro(event, connection, i, message);
      }
      events := events + [event];
      assert outcomes[i..][1..] == outcomes[i + 1..];
      i := i + 1;
    }
  }

  // ---- pairing ----

  /** No two requests and no two responses share an id. */
  predicate UniqueIds(events: seq<Event>) {
    forall i, j :: 0 <= i < j < |events| && events[i].RequestEvent? == events[j].RequestEvent? ==>
      EventId(events[i]) != EventId(events[j])
  }

  /** The page agrees with the events seen, whatever their order: every request is shown once; it
      shows a response if and only if that response has arrived; and the responses still without
      a request are kept. */
  ghost predicate Paired(page: Page, events: seq<Event>) {
    Listed(page.requests, events) && Answered(page.requests, events) && Kept(page, events)
  }

  /** Every request is on a card, and every card has an id of its own. */
  ghost predicate Listed(cards: seq<Card>, events: seq<Event>) {
    && (forall c :: c in cards ==> RequestEvent(c.id, c.content) in events)
    && (forall id, content :: RequestEvent(id, content) in events ==>
          exists c :: c in cards && c.id == id && c.content == content)
    && (forall i, j :: 0 <= i < j < |cards| ==> cards[i].id != cards[j].id)
  }

  /** A card shows a response exactly when that response has arrived. */
  ghost predicate Answered(cards: seq<Card>, events: seq<Event>) {
    forall c, r :: c in cards ==>
      (c.response == Some(r) <==> (ResponseEvent(r) in events && r.requestId == c.id))
  }

  /** The responses that no card waits for are kept, and only responses that have arrived. */
  ghost predicate Kept(page: Page, events: seq<Event>) {
    && (forall r :: r in page.unmatched ==> ResponseEvent(r) in events)
    && (forall r :: ResponseEvent(r) in events && (forall c :: c in page.requests ==> c.id != r.requestId) ==>
          r in page.unmatched)
  }

  lemma ResponsePaired(page: Page, events: seq<Event>, reply: Reply)
    requires Paired(page, events)
    requires forall e :: e in events && e.ResponseEvent? ==> e.reply.requestId != reply.requestId
    ensures Paired(HandleResponse(page, reply), events + [ResponseEvent(reply)])
  {
    var k := FindRequest(page.requests, reply.requestId);
    if k < |page.requests| {
      ResponseAttached(page, events, reply, k);
    } else {
      assert forall c :: c in page.requests ==> c.id != reply.requestId;
    }
  }

  lemma ResponseAttached(page: Page, events: seq<Event>, reply: Reply, k: nat)
    requires Paired(page, events)
    requires forall e :: e in events && e.ResponseEvent? ==> e.reply.requestId != reply.requestId
    requires k < |page.requests| && page.requests[k].id == reply.requestId
    ensures Paired(page.(requests := page.requests[k := page.requests[k].(response := Some(reply))]),
                   events + [ResponseEvent(reply)])
  {
    var answered := page.requests[k].(response := Some(reply));
    var cards, all := page.requests[k := answered], events + [ResponseEvent(reply)];
    CardsAfterAnswer(page.requests, k, answered);
    assert page.requests[k] in page.requests;
    forall id, content | RequestEvent(id, content) in all
      ensures exists c :: c in cards && c.id == id && c.content == content
    {
      var c :| c in page.requests && c.id == id && c.content == content;
      if c.id == reply.requestId { assert answered in cards; } else { assert c in cards; }
    }
    forall r | ResponseEvent(r) in all && (forall c :: c in cards ==> c.id != r.requestId)
      ensures r in page.unmatched
    {
      forall c | c in page.requests ensures c.id != r.requestId {
        if c.id == reply.requestId { assert answered in cards; } else { assert c in cards; }
      }
    }
  }

  lemma CardsAfterAnswer(cards: seq<Card>, k: nat, answered: Card)
    requires k < |cards| && answered.id == cards[k].id
    requires forall i, j :: 0 <= i < j < |cards| ==> cards[i].id != cards[j].id
    ensures forall c :: c in cards[k := answered] <==> (c == answered || (c in cards && c.id != cards[k].id))
    ensures forall c :: c in cards && c.id == cards[k].id ==> c == cards[k]
  {
    var next := cards[k := answered];
    forall c ensures c in next <==> (c == answered || (c in cards && c.id != cards[k].id)) {
      if c in next {
        var i :| 0 <= i < |next| && next[i] == c;
        assert i == k || cards[i] == c;
      }
      if c == answered { assert next[k] == c; }
      if c in cards && c.id != cards[k].id {
        var i :| 0 <= i < |cards| && cards[i] == c;
        assert next[i] == c;
      }
    }
  }

  lemma RequestShown(page: Page, events: seq<Event>, id: string, content: Content)
    requires Paired(page, events)
    requires forall e :: e in events && e.RequestEvent? ==> e.id != id
    requires forall e, f :: (e in events && f in events && e.ResponseEvent? && f.ResponseEvent?
               && e.reply.requestId == f.reply.requestId) ==> e == f
    ensures Paired(Handle(page, RequestEvent(id, content)), events + [RequestEvent(id, content)])
  {
    var card := Card(id, content, None);
    var shown := page.(requests := page.requests + [card]);
    var all := events + [RequestEvent(id, content)];
    var next := Handle(page, RequestEvent(id, content));
    var k := FindResponse(page.unmatched, id);
    assert forall c :: c in page.requests ==> c.id != id;
    assert forall c :: c in shown.requests <==> c in page.requests || c == card;
    if k < |page.unmatched| {
      var reply := page.unmatched[k];
      assert reply in page.unmatched;
      var n := FindRequest(shown.requests, id);
      assert shown.requests[|page.requests|].id == id;
      assert forall i :: 0 <= i < |page.requests| ==> shown.requests[i] in page.requests;
      assert n == |page.requests|;
      var full := card.(response := Some(reply));
      assert next.requests == page.requests + [full];
      assert forall c :: c in next.requests <==> c in page.requests || c == full;
      AddCard(page, events, full);
    } else {
      assert next == shown;
      assert forall r :: r in page.unmatched ==> r.requestId != id;
      AddCard(page, events, card);
    }
  }

  lemma AddCard(page: Page, events: seq<Event>, card: Card)
    requires Paired(page, events)
    requires forall e :: e in events && e.RequestEvent? ==> e.id != card.id
    requires forall r :: ResponseEvent(r) in events && r.requestId == card.id ==> card.response == Some(r)
    requires card.response.Some? ==>
      card.response.value.requestId == card.id && ResponseEvent(card.response.value) in events
    ensures Paired(page.(requests := page.requests + [card]), events + [RequestEvent(card.id, card.content)])
  {
    hide Listed;
    var next, all := page.(requests := page.requests + [card]), events + [RequestEvent(card.id, card.content)];
    ListCard(page.requests, events, card);
    assert forall c :: c in next.requests <==> c in page.requests || c == card;
    assert forall r :: ResponseEvent(r) in all <==> ResponseEvent(r) in events;
  }

  lemma ListCard(cards: seq<Card>, events: seq<Event>, card: Card)
    requires Listed(cards, events)
    requires forall e :: e in events && e.RequestEvent? ==> e.id != card.id
    ensures Listed(cards + [card], events + [RequestEvent(card.id, card.content)])
  {
    var next, all := cards + [card], events + [RequestEvent(card.id, card.content)];
    assert next[|cards|] == card;
    assert forall c :: c in next <==> c in cards || c == card;
    forall i, j | 0 <= i < j < |next| ensures next[i].id != next[j].id {
      assert cards[i] in cards;
    }
  }

  /** After any events with unique ids, every request whose response has arrived is paired with it,
      before or after, and no other request shows a response. */
  lemma {:induction false} PairsArrivals(events: seq<Event>)
    requires UniqueIds(events)
    ensures Paired(HandleAll(events), events)
  {
    if events != [] {
      var last := |events| - 1;
      var prefix, e := events[..last], events[last];
      assert events == prefix + [e];
      assert UniqueIds(prefix) by {
        assert forall i :: 0 <= i < |prefix| ==> prefix[i] == events[i];
      }
      PairsArrivals(prefix);
      FreshLast(events);
      hide Paired;
      hide UniqueIds;
      match e
      case ResponseEvent(reply) => ResponsePaired(HandleAll(prefix), prefix, reply);
      case RequestEvent(id, content) => RequestShown(HandleAll(prefix), prefix, id, content);
    }
  }

  /** What unique ids say of the last event and of those before it. */
  lemma FreshLast(events: seq<Event>)
    requires UniqueIds(events) && events != []
    ensures var prefix, e := events[..|events| - 1], events[|events| - 1];
      && (forall f :: f in prefix && f.RequestEvent? == e.RequestEvent? ==> EventId(f) != EventId(e))
      && (forall f, g :: (f in prefix && g in prefix && f.ResponseEvent? && g.ResponseEvent?
            && f.reply.requestId == g.reply.requestId) ==> f == g)
  {
    var prefix, e := events[..|events| - 1], events[|events| - 1];
    forall f | f in prefix && f.RequestEvent? == e.RequestEvent? ensures EventId(f) != EventId(e) {
      var i :| 0 <= i < |prefix| && prefix[i] == f;
      assert events[i] == f;
    }
    forall f, g | f in prefix && g in prefix && f.ResponseEvent? && g.ResponseEvent?
      && f.reply.requestId == g.reply.requestId
      ensures f == g
    {
      var i :| 0 <= i < |prefix| && prefix[i] == f;
      var j :| 0 <= j < |prefix| && prefix[j] == g;
      assert events[i] == f && events[j] == g;
    }
  }

  /** The pairing on the page: which request shows which response. */
  function Shown(page: Page): set<Card> {
    set c | c in page.requests
  }

  /** The order of arrival does not matter: every permutation of the same events ends with the
      same pairing. */
  lemma PairingIsOrderIndependent(events: seq<Event>, shuffled: seq<Event>)
    requires UniqueIds(events) && multiset(events) == multiset(shuffled)
    ensures Shown(HandleAll(events)) == Shown(HandleAll(shuffled))
  {
    PermutationUnique(events, shuffled);
    PairsArrivals(events);
    PairsArrivals(shuffled);
    SameEvents(events, shuffled);
    ShownSubset(HandleAll(events), events, HandleAll(shuffled), shuffled);
    ShownSubset(HandleAll(shuffled), shuffled, HandleAll(events), events);
  }

  lemma SameEvents(events: seq<Event>, shuffled: seq<Event>)
    requires multiset(events) == multiset(shuffled)
    ensures forall e :: e in events <==> e in shuffled
  {
    forall e ensures e in events <==> e in shuffled {
      assert e in events <==> e in multiset(events);
      assert e in shuffled <==> e in multiset(shuffled);
    }
  }

  lemma ShownSubset(page: Page, events: seq<Event>, other: Page, shuffled: seq<Event>)
    requires Paired(page, events) && Paired(other, shuffled)
    requires forall e :: e in events <==> e in shuffled
    ensures Shown(page) <= Shown(other)
  {
    forall c | c in page.requests ensures c in other.requests {
      var d :| d in other.requests && d.id == c.id && d.content == c.content;
      assert c.response == d.response;
    }
  }

  lemma PermutationUnique(events: seq<Event>, shuffled: seq<Event>)
    requires UniqueIds(events) && multiset(events) == multiset(shuffled)
    ensures UniqueIds(shuffled)
  {
    SameEvents(events, shuffled);
    forall i, j | 0 <= i < j < |shuffled| && shuffled[i].RequestEvent? == shuffled[j].RequestEvent?
      ensures EventId(shuffled[i]) != EventId(shuffled[j])
    {
      var e, f := shuffled[i], shuffled[j];
      if e == f {
        TwiceCounts(shuffled, i, j);
        OnceCounts(events, e);
        assert false;
      } else {
        assert e in events && f in events;
        var k :| 0 <= k < |events| && events[k] == e;
        var l :| 0 <= l < |events| && events[l] == f;
      }
    }
  }

  lemma TwiceCounts(s: seq<Event>, i: nat, j: nat)
    requires i < j < |s| && s[i] == s[j]
    ensures multiset(s)[s[i]] >= 2
  {
    var a, b := s[..j], s[j..];
    assert s == a + b;
    assert a[i] == s[i] && b[0] == s[j];
    assert s[i] in multiset(a) && s[i] in multiset(b);
  }

  lemma {:induction false} OnceCounts(events: seq<Event>, e: Event)
    requires UniqueIds(events)
    ensures multiset(events)[e] <= 1
  {
    if events != [] {
      var last := |events| - 1;
      var prefix := events[..last];
      assert events == prefix + [events[last]];
      assert forall i :: 0 <= i < |prefix| ==> prefix[i] == events[i];
      OnceCounts(prefix, e);
      assert forall f :: f in prefix ==> f != events[last] by { FreshLast(events); }
    }
  }

  /** Traffic on client ports from 7 up has unique ids: the i-th event is the exchange numbered
      `counter[i]` on port `port[i]`, and no request or response of an exchange is seen twice. */
  lemma TrafficHasUniqueIds(events: seq<Event>, port: seq<nat>, counter: seq<nat>)
    requires |port| == |counter| == |events|
    requires forall i :: 0 <= i < |events| ==> 7 <= port[i] <= 65535 && EventId(events[i]) == Id(port[i], counter[i])
    requires forall i, j :: 0 <= i < j < |events| && events[i].RequestEvent? == events[j].RequestEvent? ==>
      port[i] != port[j] || counter[i] != counter[j]
    ensures UniqueIds(events)
  {
    hide Id;
    forall i, j | 0 <= i < j < |events| && events[i].RequestEvent? == events[j].RequestEvent?
      ensures EventId(events[i]) != EventId(events[j])
    {
      if EventId(events[i]) == EventId(events[j]) {
        IdsAreUnique(port[i], counter[i], port[j], counter[j]);
      }
    }
  }

  /** Uniqueness is needed: with two responses to one id the order decides which is shown. */
  lemma DuplicateIdsMakeOrderMatter(id: string, content: Content, a: Content, b: Content)
    requires a != b
    ensures var request, first, second :=
        RequestEvent(id, content), ResponseEvent(Reply(id, a)), ResponseEvent(Reply(id, b));
      && HandleAll([request, first, second]).requests == [Card(id, content, Some(Reply(id, b)))]
      && HandleAll([first, second, request]).requests == [Card(id, content, Some(Reply(id, a)))]
  {
    var request, first, second :=
      RequestEvent(id, content), ResponseEvent(Reply(id, a)), ResponseEvent(Reply(id, b));
    assert [request, first, second][..2] == [request, first];
    assert [request, first][..1] == [request];
    assert [request][..0] == [];
    assert HandleAll([request]).requests == [Card(id, content, None)];
    assert HandleAll([request, first]).requests == [Card(id, content, Some(Reply(id, a)))];
    assert [first, second, request][..2] == [first, second];
    assert [first, second][..1] == [first];
    assert [first][..0] == [];
    assert HandleAll([first]) == Page([], [Reply(id, a)]);
    assert HandleAll([first, second]) == Page([], [Reply(id, a), Reply(id, b)]);
  }
}
