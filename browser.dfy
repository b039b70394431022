/** The mutable state one page of the prototype works on, and the handlers that change it:
    start-up, `loadView`, `setActiveLink`, the two chart initialisers, login and logout. */
module Browser {
  import opened Wrappers
  import opened Session
  import opened Nav
  import opened Router

  /** Identity of a DOM element (a chart canvas); injecting new markup makes new elements. */
  type ElementId = nat

  /** The two chart initialisers, by the canvas id they look up. */
  datatype ChartKind = ProgressChart | ProgresoChart

  /** One `new Chart(ctx, ...)` call: which initialiser built it, on which element. */
  datatype Chart = Chart(kind: ChartKind, host: ElementId)

  /** The chart guard `!ctx || ctx._bmChartInstance`, negated: the element exists and carries
      no chart yet. */
  predicate MayBuildChart(ctx: Option<ElementId>, marked: set<ElementId>) {
    ctx.Some? && ctx.value !in marked
  }

  class Page {
    /** `window.localStorage`. */
    var store: Store
    /** `#view-container`'s content. */
    var container: Content
    /** The sidebar's nav links, in document order. */
    var links: seq<NavLink>
    /** The elements carrying a `_bmChartInstance`. */
    var marked: set<ElementId>
    /** Every chart constructed so far, in order. */
    var charts: seq<Chart>
    /** The last value assigned to `location.href`; None while none was assigned. */
    var location: Option<string>
    /** Whether `#loginForm` carries the `was-validated` class. */
    var formValidated: bool
    /** Whether the `hashchange` handler is installed. */
    var listening: bool

    /** A freshly loaded page: the store the browser kept, the sidebar and container as the
        page's markup has them, no chart, no navigation, no handler. */
    constructor (store0: Store, links0: seq<NavLink>, content0: Content)
      ensures store == store0 && links == links0 && container == content0
      ensures marked == {} && charts == [] && location == None
      ensures !formValidated && !listening
    {
      store := store0;
      links := links0;
      container := content0;
      marked := {};
      charts := [];
      location := None;
      formValidated := false;
      listening := false;
    }

    /** `setActiveLink(view)`: remove `active` from every link, then add it to the first link
        whose `data-view` is `view`, if there is one. */
    method SetActiveLink(view: string)
      modifies this`links
      ensures links == Highlighted(old(links), view)
    {
      var i := 0;
      while i < |links|
        invariant 0 <= i <= |links| == |old(links)|
        invariant forall k :: 0 <= k < i ==> links[k] == old(links)[k].(active := false)
        invariant forall k :: i <= k < |links| ==> links[k] == old(links)[k]
      {
        links := links[i := links[i].(active := false)];
        i := i + 1;
      }
      var j := 0;
      while j < |links| && links[j].view != Some(view)
        invariant 0 <= j <= |links|
        invariant forall k :: 0 <= k < j ==> links[k].view != Some(view)
      {
        j := j + 1;
      }
      if j < |links| {
        links := links[j := links[j].(active := true)];
      }
      ghost var h := Highlighted(old(links), view);
      forall k | 0 <= k < |links| ensures links[k] == h[k] {
        assert links[k].active <==> IsFirstWith(old(links), view, k);
      }
    }

    /** `initProgressChart()`: build a chart on the `progressChart` canvas unless it is missing
        or already carries one; a built chart marks its canvas. */
    method InitProgressChart(ctx: Option<ElementId>) returns (built: bool)
      modifies this`marked, this`charts
      ensures built <==> MayBuildChart(ctx, old(marked))
      ensures marked == if built then old(marked) + {ctx.value} else old(marked)
      ensures charts == if built then old(charts) + [Chart(ProgressChart, ctx.value)] else old(charts)
    {
      built := false;
      if ctx.None? || ctx.value in marked {
        return;
      }
      charts := charts + [Chart(ProgressChart, ctx.value)];
      marked := marked + {ctx.value};
      built := true;
    }

    /** `initProgresoChart()`: the same guard on the `progresoChart` canvas. */
    method InitProgresoChart(ctx: Option<ElementId>) returns (built: bool)
      modifies this`marked, this`charts
      ensures built <==> MayBuildChart(ctx, old(marked))
      ensures marked == if built then old(marked) + {ctx.value} else old(marked)
      ensures charts == if built then old(charts) + [Chart(ProgresoChart, ctx.value)] else old(charts)
    {
      built := false;
      if ctx.None? || ctx.value in marked {
        return;
      }
      charts := charts + [Chart(ProgresoChart, ctx.value)];
      marked := marked + {ctx.value};
      built := true;
    }

    /** Two consecutive calls of a chart initialiser on the same element build at most one
        chart, and exactly one when the element is there and was not yet marked. */
    method InitProgressChartTwice(ctx: Option<ElementId>) returns (first: bool, second: bool)
      modifies this`marked, this`charts
      ensures !second
      ensures |charts| == |old(charts)| + (if MayBuildChart(ctx, old(marked)) then 1 else 0)
    {
      first := InitProgressChart(ctx);
      second := InitProgressChart(ctx);
    }

    /** The synchronous part of `loadView(name)`: a name outside the registry gets the warning
        and no fetch; a registered name gets the spinner and a fetch of its fragment path. */
    method BeginLoad(name: string) returns (request: Option<string>)
      modifies this`container
      ensures request == Lookup(name)
      ensures container == if name in ViewNames then Loading else Warning(name)
    {
      request := Lookup(name);
      if request.None? {
        container := Warning(name);
        return;
      }
      container := Loading;
    }

    /** The part of `loadView(name)` after the `await`: on success the fetched text replaces
        the container, the sidebar highlights `name`, `bm_last_view` becomes `name` and the
        view's hook runs (`initProgressChart` at once on `canvas`) or is handed back as pending;
        on failure the container shows the error naming the view and nothing else changes.
        The container is written whatever it shows meanwhile: a later load that finished
        first is overwritten. */
    method FinishLoad(name: string, outcome: Fetch, canvas: Option<ElementId>) returns (pending: Hook)
      requires name in ViewNames
      modifies this`container, this`links, this`store, this`marked, this`charts
      ensures container == LoadedContent(name, outcome)
      ensures store == StoreAfterLoad(old(store), name, outcome)
      ensures links == if outcome.Fetched? then Highlighted(old(links), name) else old(links)
      ensures outcome.Fetched? && name == DefaultView ==>
        marked == (if MayBuildChart(canvas, old(marked)) then old(marked) + {canvas.value} else old(marked))
        && charts == (if MayBuildChart(canvas, old(marked))
                      then old(charts) + [Chart(ProgressChart, canvas.value)] else old(charts))
      ensures !(outcome.Fetched? && name == DefaultView) ==> marked == old(marked) && charts == old(charts)
      ensures pending == if outcome.Fetched? && name != DefaultView then PostRender(name) else NoHook
    {
      pending := NoHook;
      match outcome
      case FetchFailed =>
        container := LoadError(name);
      case Fetched(html) =>
        container := Markup(html);
        SetActiveLink(name);
        store := store[LastViewKey := name];
        var hook := PostRender(name);
        if hook.DrawProgressChart? {
          var _ := InitProgressChart(canvas);
        } else {
          pending := hook;
        }
    }

    /** `loadView(name)` run to completion with the given fetch outcome. */
    method LoadView(name: string, outcome: Fetch, canvas: Option<ElementId>)
      returns (request: Option<string>, pending: Hook)
      modifies this`container, this`links, this`store, this`marked, this`charts
      ensures request == Lookup(name)
      ensures container == LoadedContent(name, outcome)
      ensures store == StoreAfterLoad(old(store), name, outcome)
      ensures links == if Rendered(name, outcome) then Highlighted(old(links), name) else old(links)
      ensures Rendered(name, outcome) && name == DefaultView ==>
        marked == (if MayBuildChart(canvas, old(marked)) then old(marked) + {canvas.value} else old(marked))
        && charts == (if MayBuildChart(canvas, old(marked))
                      then old(charts) + [Chart(ProgressChart, canvas.value)] else old(charts))
      ensures !(Rendered(name, outcome) && name == DefaultView) ==> marked == old(marked) && charts == old(charts)
      ensures pending == if Rendered(name, outcome) && name != DefaultView then PostRender(name) else NoHook
    {
      request := BeginLoad(name);
      pending := NoHook;
      if request.Some? {
        pending := FinishLoad(name, outcome, canvas);
      }
    }

    /** Two loads in flight at once, the later request answered first: the earlier response
        still lands last, so the container and `bm_last_view` show the view requested first. */
    method OverlappingLoads(first: string, second: string, firstText: string, secondText: string)
      requires first in ViewNames && second in ViewNames
      modifies this`container, this`links, this`store, this`marked, this`charts
      ensures container == Markup(firstText)
      ensures GetItem(store, LastViewKey) == Some(first)
    {
      var r1 := BeginLoad(first);
      var r2 := BeginLoad(second);
      var p2 := FinishLoad(second, Fetched(secondText), None);
      var p1 := FinishLoad(first, Fetched(firstText), None);
    }

    /** The DOMContentLoaded handler on the page at `path`, with the fragment `hash`. The login
        page and the landing page change nothing here; the application shell without the flag
        redirects to the login page and loads nothing; with the flag (and a `#view-container`),
        it mounts the router. */
    method Start(path: string, hash: string, hasContainer: bool, outcome: Fetch, canvas: Option<ElementId>)
      returns (request: Option<string>, pending: Hook)
      modifies this`container, this`links, this`store, this`marked, this`charts, this`location, this`listening
      ensures StartupAction(path, old(store)) == RedirectToLogin ==> location == Some("login.html")
      ensures StartupAction(path, old(store)) != RedirectToLogin ==> location == old(location)
      ensures StartupAction(path, old(store)) != MountApp || !hasContainer ==>
        request == None && pending == NoHook && container == old(container) && store == old(store)
        && links == old(links) && marked == old(marked) && charts == old(charts) && listening == old(listening)
      ensures StartupAction(path, old(store)) == MountApp && hasContainer ==>
        var v := InitialView(ViewFromHash(hash), GetItem(old(store), LastViewKey));
        listening && request == Lookup(v) && container == LoadedContent(v, outcome)
        && store == StoreAfterLoad(old(store), v, outcome) && links == Highlighted(old(links), v)
      ensures StartupAction(path, old(store)) == MountApp && hasContainer ==>
        var v := InitialView(ViewFromHash(hash), GetItem(old(store), LastViewKey));
        (Rendered(v, outcome) && v == DefaultView ==>
          marked == (if MayBuildChart(canvas, old(marked)) then old(marked) + {canvas.value} else old(marked))
          && charts == (if MayBuildChart(canvas, old(marked))
                        then old(charts) + [Chart(ProgressChart, canvas.value)] else old(charts)))
        && (!(Rendered(v, outcome) && v == DefaultView) ==> marked == old(marked) && charts == old(charts))
        && pending == if Rendered(v, outcome) && v != DefaultView then PostRender(v) else NoHook
    {
      request, pending := None, NoHook;
      var action := StartupAction(path, store);
      if action == RedirectToLogin {
        location := Some("login.html");
      } else if action == MountApp && hasContainer {
        var initial := InitialView(ViewFromHash(hash), GetItem(store, LastViewKey));
        request, pending := Mount(initial, outcome, canvas);
      }
    }

    /** The rest of the start-up on the application shell, once the initial view is chosen:
        highlight it, install the `hashchange` handler and load it. The sidebar ends
        highlighted for the initial view whatever the load's outcome. */
    method Mount(initial: string, outcome: Fetch, canvas: Option<ElementId>)
      returns (request: Option<string>, pending: Hook)
      modifies this`container, this`links, this`store, this`marked, this`charts, this`listening
      ensures listening && request == Lookup(initial) && container == LoadedContent(initial, outcome)
      ensures store == StoreAfterLoad(old(store), initial, outcome)
      ensures links == Highlighted(old(links), initial)
      ensures Rendered(initial, outcome) && initial == DefaultView ==>
        marked == (if MayBuildChart(canvas, old(marked)) then old(marked) + {canvas.value} else old(marked))
        && charts == (if MayBuildChart(canvas, old(marked))
                      then old(charts) + [Chart(ProgressChart, canvas.value)] else old(charts))
      ensures !(Rendered(initial, outcome) && initial == DefaultView) ==> marked == old(marked) && charts == old(charts)
      ensures pending == if Rendered(initial, outcome) && initial != DefaultView then PostRender(initial) else NoHook
    {
      SetActiveLink(initial);
      request, pending := LoadView(initial, outcome, canvas);
      HighlightedIdempotent(old(links), initial);
      listening := true;
    }

    /** The `hashchange` handler: load the fragment's view, or the default view; the stored
        last view is not consulted and the sidebar is not highlighted before the load. */
    method OnHashChange(hash: string, outcome: Fetch, canvas: Option<ElementId>)
      returns (request: Option<string>, pending: Hook)
      requires listening
      modifies this`container, this`links, this`store, this`marked, this`charts
      ensures var v := HashChangeView(ViewFromHash(hash));
        request == Lookup(v) && container == LoadedContent(v, outcome)
        && store == StoreAfterLoad(old(store), v, outcome)
        && links == if Rendered(v, outcome) then Highlighted(old(links), v) else old(links)
      ensures var v := HashChangeView(ViewFromHash(hash));
        (Rendered(v, outcome) && v == DefaultView ==>
          marked == (if MayBuildChart(canvas, old(marked)) then old(marked) + {canvas.value} else old(marked))
          && charts == (if MayBuildChart(canvas, old(marked))
                        then old(charts) + [Chart(ProgressChart, canvas.value)] else old(charts)))
        && (!(Rendered(v, outcome) && v == DefaultView) ==> marked == old(marked) && charts == old(charts))
        && pending == if Rendered(v, outcome) && v != DefaultView then PostRender(v) else NoHook
    {
      request, pending := LoadView(HashChangeView(ViewFromHash(hash)), outcome, canvas);
    }

    /** The login form's submit handler. An invalid form only gains `was-validated`; a valid one
        writes the flag and the default view and navigates to the application shell. */
    method SubmitLogin(formValid: bool)
      modifies this`store, this`location, this`formValidated
      ensures !formValid ==> formValidated && store == old(store) && location == old(location)
      ensures formValid ==>
        store == LoginStore(old(store)) && location == Some("app.html#inicio")
        && formValidated == old(formValidated)
    {
      if !formValid {
        formValidated := true;
        return;
      }
      store := store[LoggedInKey := "1"];
      store := store[LastViewKey := "inicio"];
      location := Some("app.html#inicio");
    }

    /** The logout button's click handler: both session keys are removed, whatever the prior
        state, and the browser goes to the landing page. */
    method Logout()
      modifies this`store, this`location
      ensures store == LogoutStore(old(store))
      ensures location == Some("index.html")
    {
      store := store - {LoggedInKey};
      store := store - {LastViewKey};
      location := Some("index.html");
    }
  }
}
