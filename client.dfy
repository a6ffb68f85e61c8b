/**
 * The state of the `App` component (frontend/src/App.js) and the handlers
 * that change it. Each `useState` hook is a field; each `await` splits an
 * async handler into a start step, which issues the request, and a settle
 * step, which receives its outcome.
 */
module Client {
  import opened Wire
  import opened Filters
  import opened View

  /** How an awaited `axios.get` ends: with the response body, or by throwing. */
  datatype Outcome<T> = Success(body: T) | Failure

  /** axios resolves with the body of a 200 response and rejects on an error status (the backend's are all 500). */
  function Deliver<T>(resp: Response<T>): (o: Outcome<T>)
    ensures o.Success? <==> resp.Ok?
    ensures o.Success? ==> o.body == resp.body
  {
    match resp
    case Ok(body) => Success(body)
    case Error(_, _) => Failure
  }

  /** An HTTP GET the component issues. */
  datatype Request = DataRequest(url: string, params: Entries) | SummaryRequest(url: string)

  class App {
    /** `config.apiUrl`, chosen outside the component. */
    const apiUrl: string

    var filters: Entries
    var data: seq<Record>
    var summary: Option<Summary>
    var loading: bool
    var selectedPoint: Selection
    /** The GET requests issued so far, oldest first. */
    var requests: seq<Request>

    ghost predicate Valid()
      reads this
    {
      DistinctKeys(filters) && Keys(filters) == FilterKeys
    }

    /** The request `fetchData` issues for the filters `f`. */
    function DataQuery(f: Entries): Request
      reads this
    {
      DataRequest(apiUrl + "/api/data", QueryOf(f))
    }

    function SummaryQuery(): Request
      reads this
    {
      SummaryRequest(apiUrl + "/api/summary")
    }

    /** Mounting: the initial state, then the effect's first run. */
    constructor (apiUrl: string)
      ensures Valid() && this.apiUrl == apiUrl
      ensures filters == InitialFilters && Keys(filters) == FilterKeys
      ensures data == [] && summary == None && selectedPoint == Null && loading
      ensures requests == [DataRequest(apiUrl + "/api/data", []), SummaryRequest(apiUrl + "/api/summary")]
    {
      this.apiUrl := apiUrl;
      filters := InitialFilters;
      data := [];
      summary := None;
      loading := true;
      selectedPoint := Null;
      requests := [];
      new;
      assert Keys(InitialFilters) == FilterKeys;
      BlankFiltersSendNothing(InitialFilters);
      RunEffect();
    }

    /**
     * The effect body, run after every render in which `fetchData` changed,
     * i.e. after every change of `filters`: a data fetch and a summary fetch.
     */
    method RunEffect()
      requires Valid()
      modifies this
      ensures Valid()
      ensures loading
      ensures requests == old(requests) + [DataQuery(filters), SummaryQuery()]
      ensures filters == old(filters) && data == old(data) && summary == old(summary)
      ensures selectedPoint == old(selectedPoint)
    {
      FetchDataStart();
      FetchSummaryStart();
    }

    /** `fetchData` up to its `await`: raise the loading flag and send the non-empty filters. */
    method FetchDataStart()
      requires Valid()
      modifies this
      ensures Valid()
      ensures loading
      ensures requests == old(requests) + [DataQuery(filters)]
      ensures filters == old(filters) && data == old(data) && summary == old(summary)
      ensures selectedPoint == old(selectedPoint)
    {
      loading := true;
      var params := BuildParams(filters);
      requests := requests + [DataRequest(apiUrl + "/api/data", params)];
    }

    /**
     * `fetchData` after its `await`: a response replaces `data` wholesale, a
     * failure leaves it; either way the `finally` clears the loading flag.
     */
    method FetchDataSettle(outcome: Outcome<seq<Record>>)
      requires Valid()
      modifies this
      ensures Valid()
      ensures !loading
      ensures data == if outcome.Success? then outcome.body else old(data)
      ensures filters == old(filters) && summary == old(summary)
      ensures selectedPoint == old(selectedPoint) && requests == old(requests)
    {
      if outcome.Success? {
        data := outcome.body;
      }
      loading := false;
    }

    /** `fetchSummary` up to its `await`. */
    method FetchSummaryStart()
      requires Valid()
      modifies this
      ensures Valid()
      ensures requests == old(requests) + [SummaryQuery()]
      ensures filters == old(filters) && data == old(data) && summary == old(summary)
      ensures loading == old(loading) && selectedPoint == old(selectedPoint)
    {
      requests := requests + [SummaryRequest(apiUrl + "/api/summary")];
    }

    /** `fetchSummary` after its `await`: a response replaces `summary`, a failure leaves it. */
    method FetchSummarySettle(outcome: Outcome<Summary>)
      requires Valid()
      modifies this
      ensures Valid()
      ensures summary == if outcome.Success? then Some(outcome.body) else old(summary)
      ensures filters == old(filters) && data == old(data) && loading == old(loading)
      ensures selectedPoint == old(selectedPoint) && requests == old(requests)
    {
      if outcome.Success? {
        summary := Some(outcome.body);
      }
    }

    /**
     * `handleFilterChange`: merge one field into `filters`; the new `filters`
     * makes a new `fetchData`, so the effect runs again and re-issues both fetches.
     */
    method HandleFilterChange(name: string, value: string)
      requires Valid()
      requires name in InputNames
      modifies this
      ensures Valid()
      ensures filters == SetField(old(filters), name, value)
      ensures forall k :: k != name ==> Lookup(filters, k) == Lookup(old(filters), k)
      ensures Lookup(filters, name) == Some(value)
      ensures loading
      ensures requests == old(requests) + [DataQuery(filters), SummaryQuery()]
      ensures data == old(data) && summary == old(summary) && selectedPoint == old(selectedPoint)
    {
      SetFieldDistinct(filters, name, value);
      InputKeepsKeys(filters, name, value);
      forall k {
        SetFieldLookup(filters, name, value, k);
      }
      filters := SetField(filters, name, value);
      RunEffect();
    }

    /**
     * `handlePointClick`: with no element under the cursor nothing changes;
     * otherwise the first element's index picks `data[index]`, which is
     * `undefined`, and the modal stays closed, when the index is out of range.
     */
    method HandlePointClick(elements: seq<int>)
      requires Valid()
      modifies this
      ensures Valid()
      ensures selectedPoint == if |elements| > 0 then Resolve(data, elements[0]) else old(selectedPoint)
      ensures |elements| > 0 ==> (ModalOpen() <==> 0 <= elements[0] < |data|)
      ensures filters == old(filters) && data == old(data) && summary == old(summary)
      ensures loading == old(loading) && requests == old(requests)
    {
      if |elements| > 0 {
        var index := elements[0];
        selectedPoint := Resolve(data, index);
      }
    }

    /** `handleCloseModal`: the selection is cleared, so the modal closes. */
    method HandleCloseModal()
      requires Valid()
      modifies this
      ensures Valid()
      ensures selectedPoint == Null && !ModalOpen()
      ensures filters == old(filters) && data == old(data) && summary == old(summary)
      ensures loading == old(loading) && requests == old(requests)
    {
      selectedPoint := Null;
    }

    /** The modal's `open` prop. */
    predicate ModalOpen()
      reads this
    {
      IsOpen(selectedPoint)
    }

    /** The dataset handed to the scatter plot. */
    function ChartData(): (points: seq<Point>)
      reads this
      ensures |points| == |data|
    {
      ChartPoints(data)
    }

    /** The tooltip for the point at `dataIndex`, read from the current `data`. */
    function TooltipLabel(dataIndex: int, numText: real -> string): (lines: seq<string>)
      reads this
      requires 0 <= dataIndex < |data|
      ensures lines == Label(Resolve(data, dataIndex).record, numText)
    {
      var point := data[dataIndex];
      Label(point, numText)
    }
  }

  /** Two records arrive, the second point is clicked, then the modal is closed. */
  method SelectAndClose(first: Record, second: Record)
  {
    var app := new App("http://localhost:5000");
    app.FetchDataSettle(Success([first, second]));
    assert !app.loading;
    app.HandlePointClick([1]);
    assert app.ModalOpen() && app.selectedPoint == Picked(second);
    app.HandlePointClick([]);
    assert app.selectedPoint == Picked(second);
    app.HandlePointClick([2]);
    assert app.selectedPoint == Undefined && !app.ModalOpen();
    app.HandlePointClick([0]);
    assert app.selectedPoint == Picked(first);
    app.HandleCloseModal();
    assert !app.ModalOpen();
  }

  /** A filter change re-issues the summary fetch along with the data fetch. */
  method FilterChangeRefetchesSummary()
  {
    var app := new App("http://localhost:5000");
    app.HandleFilterChange("pitcher", "Jones");
    assert |app.requests| == 4;
    assert app.requests[3] == SummaryRequest("http://localhost:5000/api/summary");
  }
}
