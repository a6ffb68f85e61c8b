/**
 * What follows from putting the client (frontend/src/App.js) and the backend
 * (backend/app.py) together: the query the client builds is read by the
 * handler, and the handler's answer settles the client's fetch.
 */
module Integration {
  import opened Wire
  import opened Filters
  import opened View
  import opened Backend
  import opened Client

  /** No filter entry uses one of the snake_case names the handler reads its bounds from. */
  predicate CamelCaseOnly(f: Entries) {
    forall kv :: kv in f ==> kv.0 !in BoundKeys
  }

  /** The client's filters never carry a numeric bound the handler reads. */
  lemma BoundsNeverArrive(f: Entries, toFloat: string -> Option<real>)
    requires CamelCaseOnly(f)
    ensures ReadParams(QueryOf(f), toFloat).minExitSpeed == None
    ensures ReadParams(QueryOf(f), toFloat).maxExitSpeed == None
    ensures ReadParams(QueryOf(f), toFloat).minLaunchAngle == None
    ensures ReadParams(QueryOf(f), toFloat).maxLaunchAngle == None
  {
    var q := QueryOf(f);
    forall k | k in BoundKeys ensures Lookup(q, k) == None {
      if Lookup(q, k).Some? {
        QueryExactly(f, (k, Lookup(q, k).value));
      }
    }
  }

  /**
   * The numeric filters typed into the page never change the records the
   * backend returns: two filter states that agree on batter and pitcher get
   * the same answer, whatever their bounds.
   */
  lemma BoundsNeverConstrain(df: seq<Row>, f: Entries, g: Entries, toFloat: string -> Option<real>,
                              regexError: string -> Option<string>)
    requires DistinctKeys(f) && DistinctKeys(g)
    requires CamelCaseOnly(f) && CamelCaseOnly(g)
    requires Lookup(f, "batter") == Lookup(g, "batter")
    requires Lookup(f, "pitcher") == Lookup(g, "pitcher")
    ensures DataResponse(df, QueryOf(f), toFloat, regexError) == DataResponse(df, QueryOf(g), toFloat, regexError)
  {
    BoundsNeverArrive(f, toFloat);
    BoundsNeverArrive(g, toFloat);
    QueryByKey(f, "batter");
    QueryByKey(g, "batter");
    QueryByKey(f, "pitcher");
    QueryByKey(g, "pitcher");
    assert ReadParams(QueryOf(f), toFloat) == ReadParams(QueryOf(g), toFloat);
  }

  /** The filter object's declared keys are all camelCase. */
  lemma DeclaredKeysAreCamelCase(f: Entries)
    requires Keys(f) == FilterKeys
    ensures CamelCaseOnly(f)
  {
    forall kv | kv in f ensures kv.0 !in BoundKeys {
      var i :| 0 <= i < |f| && f[i] == kv;
      assert Keys(f)[i] == kv.0;
    }
  }

  /**
   * A filter state that agrees with a blank one on batter and pitcher, and
   * that like it holds only camelCase keys, gets the whole dataset back.
   */
  lemma AgreeingWithBlankReturnsEverything(df: seq<Row>, f: Entries, blank: Entries, toFloat: string -> Option<real>,
                                            regexError: string -> Option<string>)
    requires df != []
    requires DistinctKeys(f) && DistinctKeys(blank)
    requires CamelCaseOnly(f) && CamelCaseOnly(blank)
    requires Lookup(f, "batter") == Lookup(blank, "batter")
    requires Lookup(f, "pitcher") == Lookup(blank, "pitcher")
    requires QueryOf(blank) == []
    ensures DataResponse(df, QueryOf(f), toFloat, regexError) == Ok(ProjectAll(df))
  {
    BoundsNeverConstrain(df, f, blank, toFloat, regexError);
    NoArgumentsSelectAll(df, toFloat);
  }

  /** A change from the minimum or maximum exit speed field keeps a fresh page's keys camelCase. */
  lemma TypedBoundStaysCamelCase(name: string, value: string)
    requires name == "minExitSpeed" || name == "maxExitSpeed"
    ensures CamelCaseOnly(SetField(InitialFilters, name, value))
  {
    assert Keys(InitialFilters) == FilterKeys;
    InputKeepsKeys(InitialFilters, name, value);
    DeclaredKeysAreCamelCase(SetField(InitialFilters, name, value));
  }

  /** A change from the minimum or maximum exit speed field keeps a fresh page's keys distinct. */
  lemma TypedBoundKeepsKeysDistinct(name: string, value: string)
    requires name == "minExitSpeed" || name == "maxExitSpeed"
    ensures DistinctKeys(SetField(InitialFilters, name, value))
  {
    InitialFiltersAreCamelCase();
    SetFieldDistinct(InitialFilters, name, value);
  }

  /** A fresh page's filters have distinct camelCase keys. */
  lemma InitialFiltersAreCamelCase()
    ensures CamelCaseOnly(InitialFilters) && DistinctKeys(InitialFilters)
  {
    assert Keys(InitialFilters) == FilterKeys;
    DeclaredKeysAreCamelCase(InitialFilters);
  }

  /** A fresh page's filters send no parameter. */
  lemma InitialFiltersSendNothing()
    ensures QueryOf(InitialFilters) == []
  {
    BlankFiltersSendNothing(InitialFilters);
  }

  /**
   * Typing a bound into the minimum or maximum exit speed field of a fresh
   * page returns the whole dataset, a ball slower than the minimum included.
   */
  lemma TypedBoundReturnsEverything(df: seq<Row>, name: string, value: string, toFloat: string -> Option<real>,
                                    regexError: string -> Option<string>)
    requires name == "minExitSpeed" || name == "maxExitSpeed"
    requires df != []
    ensures DataResponse(df, QueryOf(SetField(InitialFilters, name, value)), toFloat, regexError) == Ok(ProjectAll(df))
  {
    TypedBoundStaysCamelCase(name, value);
    TypedBoundKeepsKeysDistinct(name, value);
    InitialFiltersAreCamelCase();
    InitialFiltersSendNothing();
    SetFieldLookup(InitialFilters, name, value, "batter");
    SetFieldLookup(InitialFilters, name, value, "pitcher");
    AgreeingWithBlankReturnsEverything(df, SetField(InitialFilters, name, value), InitialFilters, toFloat, regexError);
  }

  /** With no dataset loaded, both fetches of the client fail. */
  lemma EmptyDatasetFailsBothFetches(args: Entries, toFloat: string -> Option<real>, regexError: string -> Option<string>)
    ensures Deliver(DataResponse([], args, toFloat, regexError)) == Failure
    ensures Deliver(SummaryResponse([])) == Failure
  {
  }

  /** A record shown in the modal embeds a video exactly when its row has a non-empty link. */
  lemma VideoShownForLinkedRows(row: Row)
    ensures ShowsVideo(Picked(Project(row))) <==> row.videoLink.Some? && row.videoLink.value != ""
  {
    assert Column(Project(row), VideoLink) == Fill(Cell(row, VideoLink));
  }

  /**
   * The plotted points of a `/api/data` answer: point i shows row i's launch
   * angle and exit speed, and a missing cell is plotted as the empty string.
   */
  lemma PlottedRowsKeepTheirPlace(rows: seq<Row>, i: int)
    requires 0 <= i < |rows|
    ensures |ChartPoints(ProjectAll(rows))| == |rows|
    ensures ChartPoints(ProjectAll(rows))[i] == Point(Fill(Cell(rows[i], LaunchAngle)), Fill(Cell(rows[i], ExitSpeed)))
  {
    var r := ProjectAll(rows)[i];
    assert r == Project(rows[i]);
    assert Column(r, LaunchAngle) == Fill(Cell(rows[i], LaunchAngle));
    assert Column(r, ExitSpeed) == Fill(Cell(rows[i], ExitSpeed));
  }

  /**
   * On a running page the typed bounds never change the records returned:
   * any filter object with the declared, distinct keys that agrees with the page's
   * filters on batter and pitcher gets the same `/api/data` answer.
   */
  lemma RunningPageBoundsNeverConstrain(app: App, g: Entries, df: seq<Row>, toFloat: string -> Option<real>,
                                        regexError: string -> Option<string>)
    requires app.Valid() && Keys(g) == FilterKeys && DistinctKeys(g)
    requires Lookup(g, "batter") == Lookup(app.filters, "batter")
    requires Lookup(g, "pitcher") == Lookup(app.filters, "pitcher")
    ensures DataResponse(df, QueryOf(app.filters), toFloat, regexError) == DataResponse(df, QueryOf(g), toFloat, regexError)
  {
    var f := app.filters;
    DeclaredKeysAreCamelCase(f);
    DeclaredKeysAreCamelCase(g);
    BoundsNeverConstrain(df, f, g, toFloat, regexError);
  }

  /**
   * One full data fetch against the backend: the client sends its filters,
   * the handler answers, the client settles. A successful answer replaces
   * `data` with the selected rows; an error leaves `data` as it was.
   */
  method FetchFromBackend(app: App, df: seq<Row>, toFloat: string -> Option<real>,
                          regexError: string -> Option<string>)
    requires app.Valid()
    modifies app
    ensures app.Valid() && !app.loading
    ensures app.data == match DataResponse(df, QueryOf(app.filters), toFloat, regexError)
                        case Ok(rows) => rows
                        case Error(_, _) => old(app.data)
    ensures df != [] && Lookup(app.filters, "batter") == Some("") && Lookup(app.filters, "pitcher") == Some("")
            ==> app.data == ProjectAll(Selected(df, QueryOf(app.filters), toFloat))
    ensures app.filters == old(app.filters) && app.summary == old(app.summary)
    ensures app.selectedPoint == old(app.selectedPoint)
    ensures app.requests == old(app.requests) + [app.DataQuery(app.filters)]
  {
    app.FetchDataStart();
    var sent := app.requests[|app.requests| - 1];
    var resp := GetData(df, sent.params, toFloat, regexError);
    app.FetchDataSettle(Deliver(resp));
    QueryByKey(app.filters, "batter");
    QueryByKey(app.filters, "pitcher");
  }
}
