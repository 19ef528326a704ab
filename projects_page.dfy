/**
  The projects page: a category filter, the fetch the filter triggers, the
  loading and error flags that fetch sets, and what the page renders from
  them. Fetches are asynchronous, so several may be in flight at once; each
  settles (successfully or not) as a separate event, in any order.
*/
module ProjectsPage {
  import opened Options
  import opened Content
  import opened Cards

  /** The filter buttons: every project, or one category. */
  datatype Filter = All | Only(category: Category)

  const LoadFailure: string := "Failed to load projects"

  /** The service call a filter selects. */
  function Query(data: PortfolioData, f: Filter): (r: seq<Project>)
    ensures Subsequence(r, data.projects)
    ensures f.All? ==> r == data.projects
    ensures f.Only? ==> forall p :: p in r <==> p in data.projects && p.category == f.category
    ensures f.Only? ==> forall p :: multiset(r)[p] == if p.category == f.category then multiset(data.projects)[p] else 0
  {
    if f == All then
      SubsequenceReflexive(data.projects);
      GetProjects(data)
    else GetProjectsByCategory(data, f.category)
  }

  /** The component's state hooks, plus the filters of the fetches still in flight. */
  datatype PageState = PageState(
    projects: seq<Project>,
    loading: bool,
    error: Option<string>,
    filter: Filter,
    pending: seq<Filter>)

  /** First render, then the effect: loading is set and a fetch of every project starts. */
  function Mounted(): (s: PageState)
    ensures s.loading && s.error == None && s.projects == [] && s.filter == All && s.pending == [All]
  {
    PageState([], true, None, All, [All])
  }

  /**
    A filter button: setting the same filter again does not re-run the effect;
    a different one starts a new fetch and raises the loading flag.
  */
  function Choose(s: PageState, f: Filter): (r: PageState)
    ensures r.filter == f && r.projects == s.projects && r.error == s.error
    ensures f == s.filter ==> r == s
    ensures f != s.filter ==> r.loading && r.pending == s.pending + [f]
  {
    if f == s.filter then s
    else s.(filter := f, loading := true, pending := s.pending + [f])
  }

  /**
    The i-th fetch in flight settles. On success its result replaces the list;
    on failure the list stays and the error message is set. Either way the
    `finally` clause clears the loading flag.
  */
  function Settle(data: PortfolioData, s: PageState, i: nat, failed: bool): (r: PageState)
    requires i < |s.pending|
    ensures !r.loading && r.filter == s.filter
    ensures r.pending == s.pending[..i] + s.pending[i + 1..]
    ensures multiset(r.pending) + multiset{s.pending[i]} == multiset(s.pending)
    ensures failed ==> r.projects == s.projects && r.error == Some(LoadFailure)
    ensures !failed ==> r.projects == Query(data, s.pending[i]) && r.error == s.error
  {
    assert s.pending == s.pending[..i] + [s.pending[i]] + s.pending[i + 1..];
    var rest := s.pending[..i] + s.pending[i + 1..];
    if failed then s.(error := Some(LoadFailure), loading := false, pending := rest)
    else s.(projects := Query(data, s.pending[i]), loading := false, pending := rest)
  }

  /** What the page renders. */
  datatype PageView = LoadingView | ErrorView(message: string) | ListView(cards: seq<CardView>)

  /** Loading wins over the error, and the error over the list; an empty message is falsy. */
  function View(s: PageState): (v: PageView)
    ensures v == LoadingView <==> s.loading
    ensures v.ErrorView? <==> !s.loading && s.error.Some? && s.error.value != ""
    ensures v.ErrorView? ==> v.message == s.error.value
    ensures v.ListView? ==>
      && |v.cards| == |s.projects|
      && forall k :: 0 <= k < |s.projects| ==> v.cards[k] == PageCard(s.projects[k])
  {
    if s.loading then LoadingView
    else if s.error.Some? && s.error.value != "" then ErrorView(s.error.value)
    else ListView(seq(|s.projects|, k requires 0 <= k < |s.projects| => PageCard(s.projects[k])))
  }

  // --------------------------------------------------------- event traces

  /** What can happen to the page: a click on a filter button, or a fetch settling. */
  datatype Event = Pick(f: Filter) | Finish(i: nat, failed: bool)

  /**
    One event. The filter buttons exist only in the list view, so a click
    while loading or while the error is shown does nothing; a settle event
    naming no fetch in flight changes nothing either.
  */
  function Step(data: PortfolioData, s: PageState, e: Event): (r: PageState)
    ensures e.Pick? && !View(s).ListView? ==> r == s
    ensures e.Finish? && e.i >= |s.pending| ==> r == s
    ensures r.filter != s.filter ==>
      && e.Pick? && View(s).ListView? && r.filter == e.f
      && r.loading && r.pending == s.pending + [e.f]
    ensures e.Finish? ==> r.filter == s.filter && |r.pending| <= |s.pending|
  {
    match e
    case Pick(f) => if View(s).ListView? then Choose(s, f) else s
    case Finish(i, failed) => if i < |s.pending| then Settle(data, s, i, failed) else s
  }

  function Run(data: PortfolioData, s: PageState, events: seq<Event>): PageState
    decreases |events|
  {
    if events == [] then s else Run(data, Step(data, s, events[0]), events[1..])
  }

  /** Running two traces one after the other is running their concatenation. */
  lemma {:induction false} RunAppend(data: PortfolioData, s: PageState, a: seq<Event>, b: seq<Event>)
    ensures Run(data, s, a + b) == Run(data, Run(data, s, a), b)
    decreases |a|
  {
    if a == [] {
      assert a + b == b;
    } else {
      assert (a + b)[0] == a[0] && (a + b)[1..] == a[1..] + b;
      RunAppend(data, Step(data, s, a[0]), a[1..], b);
    }
  }

  /**
    What holds on every reachable page: at most one fetch is in flight, for
    the current filter, exactly while loading; the only error is the load
    failure, and it is only ever shown settled; a settled page without error
    holds exactly the projects of its filter.
  */
  ghost predicate Consistent(data: PortfolioData, s: PageState) {
    && s.pending == (if s.loading then [s.filter] else [])
    && (s.error == None || s.error == Some(LoadFailure))
    && (s.error != None ==> !s.loading)
    && (!s.loading && s.error == None ==> s.projects == Query(data, s.filter))
  }

  lemma StepKeepsConsistent(data: PortfolioData, s: PageState, e: Event)
    requires Consistent(data, s)
    ensures Consistent(data, Step(data, s, e))
  {
    if e.Finish? && e.i < |s.pending| {
      assert s.pending[..e.i] + s.pending[e.i + 1..] == [];
    }
  }

  lemma {:induction false} RunKeepsConsistent(data: PortfolioData, s: PageState, events: seq<Event>)
    requires Consistent(data, s)
    ensures Consistent(data, Run(data, s, events))
    decreases |events|
  {
    if events != [] {
      StepKeepsConsistent(data, s, events[0]);
      RunKeepsConsistent(data, Step(data, s, events[0]), events[1..]);
    }
  }

  /**
    Whatever happens after mounting, the list shown is never stale: it holds
    the cards of exactly the projects the selected filter asks for; and the
    only message ever shown is the load failure.
  */
  lemma ListMatchesFilter(data: PortfolioData, events: seq<Event>)
    ensures var s := Run(data, Mounted(), events);
      && |s.pending| <= 1
      && (View(s).ListView? ==> View(s) == ListView(seq(|Query(data, s.filter)|,
            k requires 0 <= k < |Query(data, s.filter)| => PageCard(Query(data, s.filter)[k]))))
      && (View(s).ErrorView? ==> View(s).message == LoadFailure)
  {
    RunKeepsConsistent(data, Mounted(), events);
  }

  /**
    A failed load is final: the error view has no filter buttons, nothing is
    in flight, so no later event changes the page.
  */
  lemma {:induction false} ErrorIsFinal(data: PortfolioData, s: PageState, events: seq<Event>)
    requires Consistent(data, s) && s.error == Some(LoadFailure)
    ensures Run(data, s, events) == s
    ensures View(Run(data, s, events)) == ErrorView(LoadFailure)
    decreases |events|
  {
    if events != [] {
      assert Step(data, s, events[0]) == s;
      ErrorIsFinal(data, s, events[1..]);
    }
  }

  /** A click on a different category starts exactly one fetch, which on success lists that category. */
  lemma PickThenSettle(data: PortfolioData, s: PageState, c: Category)
    requires Consistent(data, s) && View(s).ListView? && s.filter != Only(c)
    ensures var picked := Step(data, s, Pick(Only(c)));
      && picked.loading && picked.pending == [Only(c)] && View(picked) == LoadingView
      && var done := Step(data, picked, Finish(0, false));
      && !done.loading && done.pending == [] && done.filter == Only(c)
      && done.projects == Query(data, Only(c))
      && (forall p :: p in done.projects <==> p in data.projects && p.category == c)
      && (forall p :: multiset(done.projects)[p] == if p.category == c then multiset(data.projects)[p] else 0)
  {
  }

  // ---------------------------------------------------------- the component

  class Page {
    const data: PortfolioData
    var projects: seq<Project>
    var loading: bool
    var error: Option<string>
    var filter: Filter
    var pending: seq<Filter>

    function State(): PageState
      reads this
    {
      PageState(projects, loading, error, filter, pending)
    }

    constructor Mount(data: PortfolioData)
      ensures this.data == data && State() == Mounted()
    {
      this.data := data;
      projects := [];
      loading := true;
      error := None;
      filter := All;
      pending := [All];
    }

    /** `setFilter` from a button; the effect runs only if the value changed. */
    method SetFilter(f: Filter)
      modifies this
      ensures State() == Choose(old(State()), f)
    {
      if f != filter {
        filter := f;
        loading := true;
        pending := pending + [f];
      }
    }

    /** `fetchProjects` resumes after its await: try, catch, finally. */
    method FetchSettled(i: nat, failed: bool)
      requires i < |pending|
      modifies this
      ensures State() == Settle(data, old(State()), i, failed)
    {
      var requested := pending[i];
      if !failed {
        projects := Query(data, requested);
      } else {
        error := Some(LoadFailure);
      }
      loading := false;
      pending := pending[..i] + pending[i + 1..];
    }
  }
}
