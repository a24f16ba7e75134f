/** One query section end to end (api_wrapper.py lines 31-118): resolve the
    sort, page every worklist item, save each non-empty successful page under
    a consecutive index, and reshape the saved pages only when there is one. */
module Query {
  import opened Wrappers
  import opened Json
  import opened Sorting
  import opened Requests
  import opened Paging
  import Decimal

  /** A parsed query section: its name, the field the worklist values bind to,
      the requested fields, the `sort` option (None when absent or not JSON),
      and the `criteria*` fragments in option order. */
  datatype Section = Section(
    name: string,
    inputType: string,
    fields: seq<string>,
    sort: Option<Value>,
    criteria: seq<Value>)

  function SetupOf(section: Section): Setup {
    Setup(section.inputType, section.criteria, section.fields)
  }

  // ---------------------------------------------------------------------------
  // The loop over the worklist (lines 61-98).

  datatype QueryLog = QueryLog(events: seq<PageEvent>, end: End)

  /** Items are paged one after the other. A failed page only ends its own
      item; an exception (or the page bound) ends the loop. */
  function PageAll(server: Server, setup: Setup, items: seq<string>, fuel: nat): (r: QueryLog)
    ensures |r.events| <= |items| * fuel
    ensures |items| > 0 && r.end == Finished ==> |r.events| >= |items|
  {
    if |items| == 0 then QueryLog([], Finished)
    else
      var p := PageItem(server, setup, items[0], fuel);
      var others := |items[1..]|;
      assert |items| * fuel == fuel + others * fuel;
      assert 0 <= others * fuel;
      if p.end != Finished then QueryLog(p.events, p.end)
      else
        var rest := PageAll(server, setup, items[1..], fuel);
        QueryLog(p.events + rest.events, rest.end)
  }

  /** Reference: each item's pages, as if it were paged on its own, one item after another. */
  function EachItem(server: Server, setup: Setup, items: seq<string>, fuel: nat): seq<PageEvent>
  {
    if |items| == 0 then [] else PageItem(server, setup, items[0], fuel).events + EachItem(server, setup, items[1..], fuel)
  }

  /** The loop gets through the whole worklist exactly when every item's paging
      ends normally, and then its pages are each item's own pages in turn:
      a client or server error on one item leaves the others untouched. */
  lemma {:induction false} ItemsAreIndependent(server: Server, setup: Setup, items: seq<string>, fuel: nat)
    ensures PageAll(server, setup, items, fuel).end == Finished <==>
      forall i :: 0 <= i < |items| ==> PageItem(server, setup, items[i], fuel).end == Finished
    ensures PageAll(server, setup, items, fuel).end == Finished ==>
      PageAll(server, setup, items, fuel).events == EachItem(server, setup, items, fuel)
  {
    if |items| > 0 {
      ItemsAreIndependent(server, setup, items[1..], fuel);
      assert forall i :: 1 <= i < |items| ==> items[i] == items[1..][i - 1];
    }
  }

  /** A loop that stops early stops at the first item whose paging does not end
      normally: its pages are each earlier item's own pages in turn, followed
      by that item's pages, and the loop ends the way that item's paging did. */
  lemma {:induction false} StoppedAtFirstUnfinished(server: Server, setup: Setup, items: seq<string>, fuel: nat, k: nat)
    requires k < |items|
    requires forall j :: 0 <= j < k ==> PageItem(server, setup, items[j], fuel).end == Finished
    requires PageItem(server, setup, items[k], fuel).end != Finished
    ensures PageAll(server, setup, items, fuel).end == PageItem(server, setup, items[k], fuel).end
    ensures PageAll(server, setup, items, fuel).events ==
      EachItem(server, setup, items[..k], fuel) + PageItem(server, setup, items[k], fuel).events
    decreases k
  {
    var p := PageItem(server, setup, items[0], fuel);
    if k == 0 {
      assert EachItem(server, setup, items[..0], fuel) == [];
    } else {
      var tail := items[1..];
      assert tail[k - 1] == items[k];
      forall j | 0 <= j < k - 1
        ensures PageItem(server, setup, tail[j], fuel).end == Finished
      {
        assert tail[j] == items[j + 1];
      }
      StoppedAtFirstUnfinished(server, setup, tail, fuel, k - 1);
      assert items[..k][0] == items[0] && items[..k][1..] == tail[..k - 1];
      assert EachItem(server, setup, items[..k], fuel) == p.events + EachItem(server, setup, tail[..k - 1], fuel);
    }
  }

  // ---------------------------------------------------------------------------
  // Result bookkeeping (lines 55 and 99-104).

  /** A page is written to a file when it succeeded with a non-zero count. */
  predicate Saved(ev: PageEvent) {
    ev.outcome.Fetched? && ev.outcome.count != 0
  }

  /** Reference: the saved pages, in the order they arrived. */
  function SavedEvents(evs: seq<PageEvent>): seq<PageEvent>
  {
    if |evs| == 0 then []
    else if Saved(evs[0]) then [evs[0]] + SavedEvents(evs[1..])
    else SavedEvents(evs[1..])
  }

  lemma {:induction false} SavedEventsAppend(a: seq<PageEvent>, b: seq<PageEvent>)
    ensures SavedEvents(a + b) == SavedEvents(a) + SavedEvents(b)
  {
    if |a| == 0 {
      assert a + b == b;
    } else {
      assert (a + b)[0] == a[0];
      assert (a + b)[1..] == a[1..] + b;
      SavedEventsAppend(a[1..], b);
    }
  }

  /** The page file `{name}_{index}.json` and the page it holds. */
  datatype PageFile = PageFile(index: nat, event: PageEvent)

  /** The written files so far and the `results_found` counter. */
  datatype Tally = Tally(files: seq<PageFile>, resultsFound: nat)

  /** The bookkeeping for one page: a saved page is written under the current
      counter, which then goes up by one; any other page changes nothing. */
  function Count(t: Tally, ev: PageEvent): (r: Tally)
    ensures r.resultsFound == t.resultsFound + (if Saved(ev) then 1 else 0)
    ensures r.resultsFound - |r.files| == t.resultsFound - |t.files|
    ensures |r.files| <= |t.files| + 1
    ensures |r.files| >= |t.files| && r.files[..|t.files|] == t.files
    ensures |r.files| > |t.files| <==> Saved(ev)
    ensures Saved(ev) ==> r.files[|t.files|] == PageFile(t.resultsFound, ev)
  {
    if Saved(ev) then Tally(t.files + [PageFile(t.resultsFound, ev)], t.resultsFound + 1) else t
  }

  /** The counter folded over a run's pages: files already written stay, and
      each saved page gets the next counter value, in arrival order. */
  function Record(evs: seq<PageEvent>, t: Tally): (r: Tally)
    ensures r.resultsFound == t.resultsFound + |SavedEvents(evs)|
    ensures |r.files| == |t.files| + |SavedEvents(evs)|
    ensures r.files[..|t.files|] == t.files
    ensures forall i :: 0 <= i < |SavedEvents(evs)| ==>
      r.files[|t.files| + i] == PageFile(t.resultsFound + i, SavedEvents(evs)[i])
  {
    if |evs| == 0 then t
    else
      var r := Record(evs[1..], Count(t, evs[0]));
      assert r.files[..|t.files|] == t.files by {
        assert r.files[..|t.files|] == r.files[..|Count(t, evs[0]).files|][..|t.files|];
      }
      r
  }

  /** Starting from nothing, the written files are numbered 0, 1, 2, ...,
      there are `results_found` of them, and they hold exactly the saved pages. */
  lemma {:induction false} FilesNumberedFromZero(evs: seq<PageEvent>)
    ensures var t := Record(evs, Tally([], 0));
      && t.resultsFound == |t.files| == |SavedEvents(evs)|
      && forall i :: 0 <= i < |t.files| ==> t.files[i].index == i && t.files[i].event == SavedEvents(evs)[i]
  {
    var t0 := Tally([], 0);
    var t := Record(evs, t0);
    var saved := SavedEvents(evs);
    assert |t0.files| == 0 && t0.resultsFound == 0;
    forall i | 0 <= i < |t.files|
      ensures t.files[i].index == i && t.files[i].event == saved[i]
    {
      assert t.files[|t0.files| + i] == PageFile(t0.resultsFound + i, saved[i]);
    }
  }

  /** Every file a run writes holds a successful non-empty page. */
  lemma {:induction false} SavedEventsAreSaved(evs: seq<PageEvent>)
    ensures forall i :: 0 <= i < |SavedEvents(evs)| ==> Saved(SavedEvents(evs)[i])
  {
    if |evs| > 0 {
      SavedEventsAreSaved(evs[1..]);
    }
  }

  /** The name of the index-th page file of a query. */
  function FileName(name: string, index: nat): (f: string)
    ensures |f| > |name| + 1 + 5
    ensures f[..|name| + 1] == name + "_" && f[|f| - 5..] == ".json"
    ensures var digits := f[|name| + 1..|f| - 5];
      (forall i :: 0 <= i < |digits| ==> Decimal.IsDigit(digits[i])) && Decimal.Parse(digits) == index
  {
    var digits := Decimal.Digits(index);
    var f := name + "_" + digits + ".json";
    assert f[|name| + 1..|f| - 5] == digits;
    Decimal.ParseDigits(index);
    f
  }

  /** Distinct indices give distinct file names, so no saved page overwrites another. */
  lemma FileNamesDistinct(name: string, i: nat, j: nat)
    ensures FileName(name, i) == FileName(name, j) <==> i == j
  {
  }

  // ---------------------------------------------------------------------------
  // The end of a query (lines 106-118).

  /** Either the query is reported empty, or the saved pages are merged and the
      table is sorted by the resolved keys with pandas' `ascending` flags. */
  datatype Report =
    | NoResults
    | Reshape(pages: nat, columns: seq<string>, sortBy: seq<string>, ascending: seq<bool>)

  function Finish(resultsFound: nat, fields: seq<string>, spec: SortSpec): Report
  {
    if resultsFound == 0 then NoResults
    else Reshape(resultsFound, fields, spec.fields, AscendingFlags(spec.directions))
  }

  /** A section that got through its worklist ends with a report; one stopped
      by an exception (or by the page bound) keeps the files it wrote. */
  datatype QueryRun =
    | Completed(files: seq<PageFile>, report: Report)
    | Stopped(files: seq<PageFile>, end: End)

  /** One query section over the given worklist. None: `fields` is empty, so
      sort resolution raises IndexError before any request is sent. */
  function RunQuery(section: Section, items: seq<string>, server: Server, fuel: nat): (r: Option<QueryRun>)
    ensures r.Some? <==> |section.fields| > 0
    ensures r.Some? ==>
      var saved := SavedEvents(PageAll(server, SetupOf(section), items, fuel).events);
      && |r.value.files| == |saved|
      && forall i :: 0 <= i < |r.value.files| ==>
           r.value.files[i] == PageFile(i, saved[i]) && Saved(r.value.files[i].event)
    ensures r.Some? ==>
      (r.value.Completed? <==> PageAll(server, SetupOf(section), items, fuel).end == Finished)
    ensures r.Some? && r.value.Stopped? ==> r.value.end == PageAll(server, SetupOf(section), items, fuel).end
    ensures r.Some? && r.value.Completed? ==> (r.value.report.Reshape? <==> |r.value.files| > 0)
    ensures r.Some? && r.value.Completed? && r.value.report.Reshape? ==>
      && r.value.report.pages == |r.value.files|
      && r.value.report.columns == section.fields
      && |r.value.report.sortBy| == |r.value.report.ascending| >= 1
      && (forall i :: 0 <= i < |r.value.report.sortBy| ==> r.value.report.sortBy[i] in section.fields)
      && r.value.report.sortBy == Resolve(section.fields, section.sort).value.fields
      && r.value.report.ascending == AscendingFlags(Resolve(section.fields, section.sort).value.directions)
  {
    var spec :- Resolve(section.fields, section.sort);
    var log := PageAll(server, SetupOf(section), items, fuel);
    var t := Record(log.events, Tally([], 0));
    FilesNumberedFromZero(log.events);
    SavedEventsAreSaved(log.events);
    if log.end == Finished then Some(Completed(t.files, Finish(t.resultsFound, section.fields, spec)))
    else Some(Stopped(t.files, log.end))
  }

  /** Reference count: each item's saved pages, summed over the worklist. */
  function SavedPerItem(server: Server, setup: Setup, items: seq<string>, fuel: nat): nat
  {
    if |items| == 0 then 0
    else |SavedEvents(PageItem(server, setup, items[0], fuel).events)| + SavedPerItem(server, setup, items[1..], fuel)
  }

  lemma {:induction false} SavedEventsOfEachItem(server: Server, setup: Setup, items: seq<string>, fuel: nat)
    ensures |SavedEvents(EachItem(server, setup, items, fuel))| == SavedPerItem(server, setup, items, fuel)
  {
    if |items| > 0 {
      SavedEventsAppend(PageItem(server, setup, items[0], fuel).events, EachItem(server, setup, items[1..], fuel));
      SavedEventsOfEachItem(server, setup, items[1..], fuel);
    }
  }

  /** A completed query writes as many files as its items have saved pages in total. */
  lemma CompletedFileCount(section: Section, items: seq<string>, server: Server, fuel: nat)
    requires RunQuery(section, items, server, fuel).Some?
    requires RunQuery(section, items, server, fuel).value.Completed?
    ensures |RunQuery(section, items, server, fuel).value.files| == SavedPerItem(server, SetupOf(section), items, fuel)
  {
    var log := PageAll(server, SetupOf(section), items, fuel);
    ItemsAreIndependent(server, SetupOf(section), items, fuel);
    FilesNumberedFromZero(log.events);
    SavedEventsOfEachItem(server, SetupOf(section), items, fuel);
  }

  /** A server that matches nothing answers every first page with count 0. */
  function NothingFound(req: Request, attempt: nat): Response {
    Response(200, 0, false)
  }

  /** Then every item takes one request, nothing is written, and the query is
      reported as having no results. */
  lemma {:induction false} NothingFoundReportsNoResults(section: Section, items: seq<string>, fuel: nat)
    requires |section.fields| > 0
    requires fuel >= 1
    ensures RunQuery(section, items, NothingFound, fuel) == Some(Completed([], NoResults))
  {
    NoPagesSaved(SetupOf(section), items, fuel);
  }

  lemma {:induction false} NoPagesSaved(setup: Setup, items: seq<string>, fuel: nat)
    requires fuel >= 1
    ensures PageAll(NothingFound, setup, items, fuel).end == Finished
    ensures SavedEvents(PageAll(NothingFound, setup, items, fuel).events) == []
  {
    if |items| > 0 {
      var p := PageItem(NothingFound, setup, items[0], fuel);
      assert p.events == [Fetch(NothingFound, setup, items[0], 1)];
      NoPagesSaved(setup, items[1..], fuel);
      SavedEventsAppend(p.events, PageAll(NothingFound, setup, items[1..], fuel).events);
    }
  }
}
