/** The per-item offset paging loop (api_wrapper.py lines 61-98): requests are
    sent page after page while the last page came back full. The search server
    is an oracle; waiting on a throttled answer is not modelled. */
module Paging {
  import opened Json
  import opened Requests

  /** What the server answers: the HTTP status, the body's `count` (read only
      on success), and whether the answer carries an `X-Status-Reason` header. */
  datatype Response = Response(status: int, count: int, hasStatusReason: bool)

  /** The server: its answer to the attempt-th sending (0 for the first) of a request. */
  type Server = (Request, nat) -> Response

  const TooManyRequests: int := 429
  const Forbidden: int := 403

  /** The requests actually posted for one page and the answer kept. */
  datatype Exchange = Exchange(sent: seq<Request>, final: Response)

  /** Post a request; on 429 post the identical request once more and keep
      that second answer whatever it is (lines 78-83). */
  function Send(server: Server, req: Request): (x: Exchange)
    ensures |x.sent| == 1 || |x.sent| == 2
    ensures forall i :: 0 <= i < |x.sent| ==> x.sent[i] == req
    ensures |x.sent| == 2 <==> server(req, 0).status == TooManyRequests
    ensures x.final == server(req, |x.sent| - 1)
  {
    var first := server(req, 0);
    if first.status == TooManyRequests then Exchange([req, req], server(req, 1))
    else Exchange([req], first)
  }

  /** How a page's answer is handled (lines 86-98). */
  datatype Outcome =
    | Fetched(count: int)      // any status outside 400..499 and below 500: the body's count
    | Rejected(status: int)    // a 4xx: reported, count stays 0
    | Failed(status: int)      // 500 and above: reported, count stays 0
    | Raised                   // a 4xx other than 403 with no X-Status-Reason: KeyError, the run stops

  function Classify(r: Response): (o: Outcome)
    ensures o.Fetched? <==> r.status < 400
    ensures o.Fetched? ==> o.count == r.count
    ensures o.Raised? <==> 400 <= r.status <= 499 && r.status != Forbidden && !r.hasStatusReason
    ensures o.Rejected? <==> 400 <= r.status <= 499 && (r.status == Forbidden || r.hasStatusReason)
    ensures o.Failed? <==> r.status >= 500
    ensures (o.Rejected? || o.Failed?) ==> o.status == r.status
  {
    if 400 <= r.status <= 499 then
      if r.status != Forbidden && !r.hasStatusReason then Raised else Rejected(r.status)
    else if r.status >= 500 then Failed(r.status)
    else Fetched(r.count)
  }

  /** The loop condition `count == per_page` after a page: only a successful full page continues. */
  predicate Continues(o: Outcome) {
    o.Fetched? && o.count == PerPage
  }

  /** The query section's settings that every request of an item shares. */
  datatype Setup = Setup(inputType: string, criteria: seq<Value>, fields: seq<string>)

  datatype PageEvent = PageEvent(page: nat, exchange: Exchange, outcome: Outcome)

  /** One pass of the loop body for the page-th page of an item. */
  function Fetch(server: Server, setup: Setup, item: string, page: nat): (ev: PageEvent)
    requires page >= 1
    ensures ev.page == page
    ensures |ev.exchange.sent| >= 1
    ensures ev.exchange.sent[0].item == item && ev.exchange.sent[0].offset == (page - 1) * PerPage
    ensures ev.outcome == Classify(ev.exchange.final)
  {
    var x := Send(server, PageRequest(setup.inputType, item, setup.criteria, setup.fields, page));
    PageEvent(page, x, Classify(x.final))
  }

  /** How an item's paging ended: normally, by an exception that stops the
      whole run, or because the model's page bound was reached first. */
  datatype End = Finished | Aborted | OutOfFuel

  datatype ItemPaging = ItemPaging(events: seq<PageEvent>, end: End)

  /** Pages of one item from `page` on, at most `fuel` of them. */
  function PagesFrom(server: Server, setup: Setup, item: string, page: nat, fuel: nat): (r: ItemPaging)
    requires page >= 1
    ensures |r.events| <= fuel
    ensures fuel > 0 ==> |r.events| > 0
    ensures r.end == OutOfFuel ==> |r.events| == fuel
    decreases fuel
  {
    if fuel == 0 then ItemPaging([], OutOfFuel)
    else
      var ev := Fetch(server, setup, item, page);
      if ev.outcome.Raised? then ItemPaging([ev], Aborted)
      else if Continues(ev.outcome) then
        var rest := PagesFrom(server, setup, item, page + 1, fuel - 1);
        ItemPaging([ev] + rest.events, rest.end)
      else ItemPaging([ev], Finished)
  }

  /** The i-th page of the paging is the loop body run for page `page + i`. */
  lemma {:induction false} PagedAt(server: Server, setup: Setup, item: string, page: nat, fuel: nat, i: nat)
    requires page >= 1
    requires i < |PagesFrom(server, setup, item, page, fuel).events|
    ensures PagesFrom(server, setup, item, page, fuel).events[i] == Fetch(server, setup, item, page + i)
    decreases i
  {
    var ev := Fetch(server, setup, item, page);
    if i > 0 {
      var rest := PagesFrom(server, setup, item, page + 1, fuel - 1);
      assert PagesFrom(server, setup, item, page, fuel).events == [ev] + rest.events;
      PagedAt(server, setup, item, page + 1, fuel - 1, i - 1);
      assert (page + 1) + (i - 1) == page + i;
    }
  }

  lemma PagedInOrder(server: Server, setup: Setup, item: string, page: nat, fuel: nat)
    requires page >= 1
    ensures var r := PagesFrom(server, setup, item, page, fuel);
      forall i :: 0 <= i < |r.events| ==> r.events[i] == Fetch(server, setup, item, page + i)
  {
    forall i | 0 <= i < |PagesFrom(server, setup, item, page, fuel).events|
      ensures PagesFrom(server, setup, item, page, fuel).events[i] == Fetch(server, setup, item, page + i)
    {
      PagedAt(server, setup, item, page, fuel, i);
    }
  }

  /** Every page but the last came back a full success; paging that ends
      normally ends on a page that does not continue and did not raise, an
      abort ends on the page that raised, and reaching the bound means every
      page was full. */
  lemma {:induction false} PagingEnds(server: Server, setup: Setup, item: string, page: nat, fuel: nat)
    requires page >= 1
    ensures var r := PagesFrom(server, setup, item, page, fuel);
      && (forall i :: 0 <= i < |r.events| - 1 ==> Continues(r.events[i].outcome))
      && (r.end == Finished ==>
            |r.events| > 0 && !Continues(r.events[|r.events| - 1].outcome) && !r.events[|r.events| - 1].outcome.Raised?)
      && (r.end == Aborted ==> |r.events| > 0 && r.events[|r.events| - 1].outcome.Raised?)
      && (r.end == OutOfFuel ==> forall i :: 0 <= i < |r.events| ==> Continues(r.events[i].outcome))
    decreases fuel
  {
    if fuel > 0 {
      var ev := Fetch(server, setup, item, page);
      if !ev.outcome.Raised? && Continues(ev.outcome) {
        var rest := PagesFrom(server, setup, item, page + 1, fuel - 1);
        PagingEnds(server, setup, item, page + 1, fuel - 1);
        var r := PagesFrom(server, setup, item, page, fuel);
        assert r.events == [ev] + rest.events;
        assert forall i :: 1 <= i < |r.events| ==> r.events[i] == rest.events[i - 1];
      }
    }
  }

  /** The loop in closed form: both facts above, and reaching the bound means
      exactly `fuel` pages were fetched. */
  lemma PagingShape(server: Server, setup: Setup, item: string, page: nat, fuel: nat)
    requires page >= 1
    ensures var r := PagesFrom(server, setup, item, page, fuel);
      && (forall i :: 0 <= i < |r.events| ==> r.events[i] == Fetch(server, setup, item, page + i))
      && (forall i :: 0 <= i < |r.events| - 1 ==> Continues(r.events[i].outcome))
      && (r.end == Finished ==>
            |r.events| > 0 && !Continues(r.events[|r.events| - 1].outcome) && !r.events[|r.events| - 1].outcome.Raised?)
      && (r.end == Aborted ==> |r.events| > 0 && r.events[|r.events| - 1].outcome.Raised?)
      && (r.end == OutOfFuel ==>
            |r.events| == fuel && forall i :: 0 <= i < |r.events| ==> Continues(r.events[i].outcome))
  {
    PagedInOrder(server, setup, item, page, fuel);
    PagingEnds(server, setup, item, page, fuel);
  }

  /** All pages of one item: `page = 1`, `count = per_page`, then the while loop. */
  function PageItem(server: Server, setup: Setup, item: string, fuel: nat): ItemPaging {
    PagesFrom(server, setup, item, 1, fuel)
  }

  /** The page-th page is the last one the loop asks for. */
  predicate StopsAt(server: Server, setup: Setup, item: string, page: nat)
    requires page >= 1
  {
    !Continues(Fetch(server, setup, item, page).outcome)
  }

  /** Every request of an item is the same filter and fields with a window of
      1000 records; the k-th (from 0) starts at k * 1000, so each request's
      offset is the previous one's plus 1000, and each page is sent at most
      twice, both times unchanged. */
  lemma RequestsOfItem(server: Server, setup: Setup, item: string, fuel: nat)
    ensures var evs := PageItem(server, setup, item, fuel).events;
      forall k :: 0 <= k < |evs| ==>
        && 1 <= |evs[k].exchange.sent| <= 2
        && forall j :: 0 <= j < |evs[k].exchange.sent| ==>
             evs[k].exchange.sent[j] ==
               Request(setup.inputType, item, setup.criteria, setup.fields, PerPage, k * PerPage)
  {
    PagingShape(server, setup, item, 1, fuel);
  }

  /** Paging goes on exactly until the first page that does not continue:
      if the server stops answering full pages at the (page + k)-th page,
      the item is done after k + 1 pages whenever the bound allows that many. */
  lemma {:induction false} PagingStopsAtFirstShortPage(server: Server, setup: Setup, item: string, page: nat, k: nat, fuel: nat)
    requires page >= 1
    requires StopsAt(server, setup, item, page + k)
    requires forall p :: page <= p < page + k ==> !StopsAt(server, setup, item, p)
    requires fuel > k
    ensures PagesFrom(server, setup, item, page, fuel).end != OutOfFuel
    ensures |PagesFrom(server, setup, item, page, fuel).events| == k + 1
    decreases k
  {
    if k > 0 {
      assert !StopsAt(server, setup, item, page);
      PagingStopsAtFirstShortPage(server, setup, item, page + 1, k - 1, fuel - 1);
    }
  }

  /** The page bound only cuts paging short: once paging ends within a bound,
      any larger bound gives the same pages. */
  lemma {:induction false} FuelIrrelevant(server: Server, setup: Setup, item: string, page: nat, fuel: nat, more: nat)
    requires page >= 1
    requires PagesFrom(server, setup, item, page, fuel).end != OutOfFuel
    requires more >= fuel
    ensures PagesFrom(server, setup, item, page, more) == PagesFrom(server, setup, item, page, fuel)
    decreases fuel
  {
    assert fuel > 0;
    var ev := Fetch(server, setup, item, page);
    if !ev.outcome.Raised? && Continues(ev.outcome) {
      FuelIrrelevant(server, setup, item, page + 1, fuel - 1, more - 1);
    }
  }

  /** An error answer (4xx with its reason, or 5xx) ends the item's paging
      normally, after that page. */
  lemma ErrorEndsItem(server: Server, setup: Setup, item: string, page: nat, fuel: nat)
    requires page >= 1
    requires fuel >= 1
    requires Fetch(server, setup, item, page).outcome.Rejected? || Fetch(server, setup, item, page).outcome.Failed?
    ensures PagesFrom(server, setup, item, page, fuel) == ItemPaging([Fetch(server, setup, item, page)], Finished)
  {
  }

  /** A request throttled twice is not sent a third time: the second 429 is a
      client error that ends the item's paging, reported when the answer
      carries X-Status-Reason and raising KeyError (which stops the run)
      when it does not. */
  lemma ThrottledTwice(server: Server, setup: Setup, item: string, page: nat)
    requires page >= 1
    requires var req := PageRequest(setup.inputType, item, setup.criteria, setup.fields, page);
      server(req, 0).status == TooManyRequests && server(req, 1).status == TooManyRequests
    ensures Fetch(server, setup, item, page).outcome ==
      var req := PageRequest(setup.inputType, item, setup.criteria, setup.fields, page);
      if server(req, 1).hasStatusReason then Rejected(TooManyRequests) else Raised
    ensures |Fetch(server, setup, item, page).exchange.sent| == 2
    ensures StopsAt(server, setup, item, page)
  {
  }

  /** A server holding 2500 matches for every item answers full pages at
      offsets 0 and 1000 and 500 records at offset 2000. */
  function TwentyFiveHundred(req: Request, attempt: nat): Response {
    var left := 2500 - req.offset;
    Response(200, if left <= 0 then 0 else if left < req.size then left else req.size, false)
  }

  /** Such an item is fetched in exactly three requests, the last with count 500. */
  lemma ThreePagesForTwentyFiveHundred(setup: Setup, item: string, fuel: nat)
    requires fuel >= 3
    ensures var p := PageItem(TwentyFiveHundred, setup, item, fuel);
      && p.end == Finished
      && |p.events| == 3
      && p.events[2].outcome == Fetched(500)
      && p.events[2].exchange.sent == [PageRequest(setup.inputType, item, setup.criteria, setup.fields, 3)]
  {
    var s: Server := TwentyFiveHundred;
    assert !StopsAt(s, setup, item, 1);
    assert !StopsAt(s, setup, item, 2);
    assert StopsAt(s, setup, item, 3);
    PagingStopsAtFirstShortPage(s, setup, item, 1, 2, fuel);
    PagingShape(s, setup, item, 1, fuel);
  }
}
