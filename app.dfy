/** The page of src/App.tsx: the `journeys`, `loading` and `error` state around
    one call of the journey search, and which view it shows. */
module Shell {
  import opened Types
  import opened Results
  import opened Form
  import JourneySearch

  const FetchFailed := "An error occurred while fetching the journeys."

  /** How one call of the journey search ends: its journeys, or a rejection. */
  datatype Fetch = Fetched(results: seq<Journey>) | Rejected

  /** What the page shows below the form. */
  datatype Screen = Loader | ResultsPanel(view: ResultsView)

  /** The page shows the loader while loading, and otherwise the results component
      given the current journeys and error. */
  function ScreenOf(journeys: seq<Journey>, loading: bool, error: Option<string>): (s: Screen)
    ensures s.Loader? <==> loading
    ensures !loading ==> s.view == Render(journeys, error)
    ensures !loading ==> (s.view.ErrorText? <==> Truthy(error))
    ensures !loading && !Truthy(error) ==> (s.view.NoResults? <==> journeys == [])
    ensures !loading && s.view.Table? ==> |s.view.rows| == |journeys|
  {
    if loading then Loader else ResultsPanel(Render(journeys, error))
  }

  class App {
    var journeys: seq<Journey>
    var loading: bool
    var error: Option<string>
    /** Every request the journey search has been called with, in order. */
    ghost var searches: seq<JourneyParameters>

    /** The first render: no journeys, not loading, no error. */
    constructor ()
      ensures journeys == [] && !loading && error == None && searches == []
    {
      journeys, loading, error := [], false, None;
      searches := [];
    }

    function Screen(): Screen
      reads this
    {
      ScreenOf(journeys, loading, error)
    }

    /** The start of `handleSearchSubmit`: loading, and no error. */
    method StartSearch()
      modifies this`loading, this`error
      ensures loading && error == None
    {
      loading := true;
      error := None;
    }

    /** The end of `handleSearchSubmit`: the journeys found replace the old ones, or
        a rejection sets the generic message and keeps them; loading stops either way. */
    method FinishSearch(outcome: Fetch)
      modifies this`journeys, this`error, this`loading
      ensures !loading
      ensures outcome.Fetched? ==> journeys == outcome.results && error == old(error)
      ensures outcome.Rejected? ==> journeys == old(journeys) && error == Some(FetchFailed)
    {
      match outcome {
        case Fetched(results) =>
          journeys := results;
        case Rejected =>
          error := Some(FetchFailed);
      }
      loading := false;
    }

    /** `handleSearchSubmit`: the journey search, `search`, is called once with the
        submitted request, while the page shows the loader. */
    method HandleSearchSubmit(parameters: JourneyParameters, search: JourneyParameters -> Fetch)
      modifies this
      ensures searches == old(searches) + [parameters]
      ensures !loading
      ensures search(parameters).Fetched? ==>
                journeys == search(parameters).results && error == None
      ensures search(parameters).Rejected? ==>
                journeys == old(journeys) && error == Some(FetchFailed)
    {
      StartSearch();
      assert Screen() == Loader;
      var outcome := search(parameters);
      searches := searches + [parameters];
      FinishSearch(outcome);
    }

    /** The search service the page uses: `searchJourneys` over `dataset`, which
        always resolves. */
    static function Service(dataset: seq<Journey>): JourneyParameters -> Fetch
    {
      p => Fetched(JourneySearch.SearchJourneys(dataset, p))
    }

    /** The form's submit button, wired to `handleSearchSubmit` with `searchJourneys`
        as the service: a search runs exactly when the form passes every field rule,
        and then shows what the filter finds for the form's request. */
    method SubmitForm(form: SearchForm, ctx: DateContext, dataset: seq<Journey>)
      modifies this
      ensures FieldErrors(form.Raw(), ctx) == NoErrors ==>
        && searches == old(searches) + [RequestOf(form.Raw(), ctx)]
        && journeys == JourneySearch.SearchJourneys(dataset, RequestOf(form.Raw(), ctx))
        && error == None && !loading
      ensures FieldErrors(form.Raw(), ctx) != NoErrors ==>
        && searches == old(searches) && journeys == old(journeys)
        && error == old(error) && loading == old(loading)
    {
      var request := form.Submit(ctx);
      if request.Some? {
        HandleSearchSubmit(request.value, Service(dataset));
      }
    }

    /** The first commit of the page: the form's auto-submit, wired the same way. */
    method MountForm(form: SearchForm, ctx: DateContext, dataset: seq<Journey>)
      requires form.Valid()
      modifies this, form`errors, form`mounted
      ensures form.Valid() && form.mounted
      ensures !old(form.mounted) && AutoSubmits(form.initial) ==>
        && searches == old(searches) + [RequestOf(form.initial, ctx)]
        && journeys == JourneySearch.SearchJourneys(dataset, RequestOf(form.initial, ctx))
        && error == None && !loading
      ensures old(form.mounted) || !AutoSubmits(form.initial) ==>
        && searches == old(searches) && journeys == old(journeys)
        && error == old(error) && loading == old(loading)
    {
      var request := form.Mount(ctx);
      if request.Some? {
        HandleSearchSubmit(request.value, Service(dataset));
      }
    }
  }

  /** A deep link with every value filled in is searched for on the first commit,
      once: mounting again searches no more. */
  method DeepLinkScenario(ctx: DateContext, dataset: seq<Journey>)
  {
    var link := RawForm(Some("Enschede"), Some("Hengelo"), Some("2024-05-01"), Some(2));
    var form := new SearchForm(link);
    var app := new App();
    app.MountForm(form, ctx, dataset);
    assert app.searches == [JourneyParameters("Enschede", "Hengelo", ctx.parse("2024-05-01"), 2)];
    assert app.Screen() == ResultsPanel(Render(app.journeys, None));
    app.MountForm(form, ctx, dataset);
    assert |app.searches| == 1;
  }

  /** A rejected search shows the generic message, behind the results component's
      prefix, and keeps the journeys found before. */
  method RejectedSearchScenario(parameters: JourneyParameters, earlier: seq<Journey>)
  {
    var app := new App();
    app.HandleSearchSubmit(parameters, _ => Fetched(earlier));
    app.HandleSearchSubmit(parameters, _ => Rejected);
    assert app.journeys == earlier;
    assert app.Screen() == ResultsPanel(ErrorText(ErrorPrefix + FetchFailed));
  }
}
