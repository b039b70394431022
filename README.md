# Bachillerato's Mind: session gate and view router, in Dafny

A model of the client-side logic of the "Bachillerato's Mind" study-dashboard prototype
(`static/js/main.js`). The prototype has no server. A flag in `localStorage` gates the
application shell. A hash router swaps fetched markup fragments into `#view-container`. The
sidebar highlights the current view. Two chart initialisers build at most one chart per canvas.

The model has six modules:

- `Wrappers`: `Option`, which stands for JavaScript's `null`.
- `JsString`: the ECMAScript built-ins the code uses: `endsWith`, `replace` with a
  one-character string pattern (first occurrence only), and `trim` with its exact set of
  white-space and line-terminator code points.
- `Session`: the two storage keys, page classification by path suffix, the start-up gate,
  and the store writes of the login and logout handlers.
- `Nav`: the sidebar links and what `setActiveLink` leaves in them (`Highlighted`).
- `Router`: `getViewFromHash`, the start-up and hash-change fallback chains, the seven-entry
  registry, the container content and stored last view a finished load leaves, and the
  post-render hook table.
- `Browser`: class `Page`, whose fields are the mutable state: the store, the container, the
  links, the per-element chart marker, the charts built, `location.href`, the login form's
  `was-validated` class and whether the `hashchange` handler is installed. Its methods are the
  handlers, and each is proved against the functions above.

The network is a parameter. Each load takes a `Fetch` outcome: `Fetched(text)`, or
`FetchFailed` for a status that is not ok or a thrown error. `loadView` is split at its `await`
into `BeginLoad` (warning, or spinner plus request) and `FinishLoad`. `LoadView` runs the two in
sequence. `OverlappingLoads` shows the accepted race: when a later request is answered first,
the earlier response still lands last and wins. Elements that the code looks up by id (chart
canvases) are `Option<ElementId>` parameters. Whether the form passes native validation is a
boolean parameter.

Where the code differs from what it evidently intends, the model follows the code, with one exception given last:

- The gate redirects whenever the stored flag is anything other than exactly `"1"`, not
  only when it is absent.
- At start-up `setActiveLink(initial)` runs before `loadView`, so the initial view's link is
  highlighted even when that load fails or the name is unknown. On `hashchange` nothing is
  highlighted before the load.
- JavaScript's `||` treats `""` as missing. A stored `bm_last_view` of `""` therefore falls
  back to `"inicio"`.
- The three page-suffix tests are mutually exclusive (`Session.SuffixFamiliesDisjoint`), so
  their order does not affect the result.
- Unrecognised-name detection is a truthiness test on a plain-object read. This differs from
  the registry's own keys (see Findings). This is the exception: the loads of class `Page`
  (`BeginLoad`, `LoadView`, `OnHashChange`, `Mount`) use the corrected own-key `Lookup`. The
  code as written appears only in `Router.ReadMapAsWritten` and `Router.FetchesAsWritten`.

## Model

| member | source | states |
|---|---|---|
| `JsString.Trim` | static/js/main.js:44 | `trim` keeps the slice after the leading white space, and only white space follows it. The result has no white space at either end. It is empty exactly when the input is all white space. |
| `JsString.RemoveFirstAt` | static/js/main.js:44 | `replace("#", "")` removes only the first `#`: the characters before it and after it, including any later `#`, stay in order. |
| `JsString.RemoveFirstAbsent` | static/js/main.js:44 | `replace("#", "")` leaves a string without `#` unchanged. |
| `JsString.TrimPadded` | static/js/main.js:44 | Trimming a trimmed string padded with white space on both sides gives back that string. |
| `Session.SuffixFamiliesDisjoint` | static/js/main.js:4-6 | No path ends in two of `app.html`, `login.html`, and `/` or `index.html`. |
| `Session.Classify` | static/js/main.js:4-15 | Login page iff the path ends in `login.html`. Landing iff it ends in `/` or `index.html`. Application shell iff it ends in `app.html`. |
| `Session.StartupAction` | static/js/main.js:4-25 | On the shell the router mounts iff `bm_logged_in` is exactly `"1"`; otherwise the page redirects to login. The login page installs only the form handler, and the landing page does nothing. |
| `Session.LoginStore` | static/js/main.js:290-291 | After login the flag is `"1"` and the last view is `"inicio"`. The key set gains exactly those two keys, and every other key keeps its value. |
| `Session.LogoutStore` | static/js/main.js:140-141 | After logout both session keys are absent, whatever they held, and every other key keeps its value. |
| `Session.LoginOpensApp` | static/js/main.js:18-22 | After a login the shell, under any directory prefix, mounts and does not redirect. |
| `Session.LogoutClosesApp` | static/js/main.js:18-22 | After a logout the shell redirects to the login page. |
| `Nav.Highlighted` | static/js/main.js:49-54 | After `setActiveLink(v)` the links keep their order and `data-view`. Link `i` is active iff it is the first link whose `data-view` is `v`. |
| `Nav.HighlightedSingle` | static/js/main.js:50-53 | After highlighting, at most one link is active. One is active exactly when some link carries the view. |
| `Nav.HighlightedIdempotent` | static/js/main.js:155-156 | Highlighting twice equals highlighting once, so the start-up highlight and the load's own highlight agree. |
| `Router.ViewFromHash` | static/js/main.js:43-47 | The result is null exactly when the fragment, minus its first `#`, is all white space. Otherwise it is non-empty with no white space at either end. |
| `Router.HashRoundTrip` | static/js/main.js:43-47 | `#` followed by a trimmed non-empty view, with any white-space padding, reads back as exactly that view. |
| `Router.InitialView` | static/js/main.js:152-154 | The start-up view is never empty. It is the fragment's view when there is one, else the stored last view when non-empty, else `"inicio"`. It is `"inicio"` only in those cases. |
| `Router.HashChangeView` | static/js/main.js:159-160 | The hash-change view is the fragment's view, else `"inicio"`. It is never empty. |
| `Router.HashChangeIgnoresStore` | static/js/main.js:152-161 | The hash-change choice is the start-up choice with nothing stored, and never reads the stored last view. |
| `Router.Lookup` | static/js/main.js:65-76 | Exactly the seven names (exact, case-sensitive) find a fragment path, and that path is a non-empty `views/….html` from the table. |
| `Router.LinkClickLoadsView` | static/js/main.js:131 | For every registered name, setting the fragment to that name makes the hash-change handler choose exactly that name. |
| `Router.ReadMapAsWritten` | static/js/main.js:75 | `map[viewName]` yields an own entry iff the name is registered, and an inherited member iff it is an `Object.prototype` property name. |
| `Router.PrototypeNamesFetchAsWritten` | static/js/main.js:75-83 | As written, every `Object.prototype` name passes the `!file` test and is fetched, although it is not a view and the own-key lookup finds nothing. |
| `Router.LookupAgreesAsWritten` | static/js/main.js:75-76 | Outside those inherited names, the code as written fetches exactly when the own-key lookup finds the name. |
| `Router.LoadedContent` | static/js/main.js:76-121 | After a load the container holds a warning iff the name is unregistered, an error iff the fetch of a registered name failed, and the fetched text iff it succeeded. Warnings and errors carry the name, and the spinner never remains. |
| `Router.StoreAfterLoad` | static/js/main.js:104 | `bm_last_view` becomes the name after a successful render. Otherwise the store is unchanged. No other key ever changes. |
| `Router.LastViewStaysRegistered` | static/js/main.js:104 | Loads, login and logout keep the stored last view absent or a registered name. |
| `Router.ResumeIsRegistered` | static/js/main.js:152-154 | If the store holds no foreign last view, a reload with an empty fragment resumes a registered view, never the warning. |
| `Router.SessionViews` | static/js/main.js:290-292 | After login the shell opened at `#inicio` shows `"inicio"`. After logout, a shell opened with no fragment falls back to `"inicio"`. |
| `Router.PostRender` | static/js/main.js:107-112 | Only `inicio` (progress chart now), `progreso` (progreso chart after 40 ms) and `chat` (scroll, then again after 80 ms) have a hook. |
| `Browser.Page.SetActiveLink` | static/js/main.js:49-54 | After the two loops the links equal `Highlighted` of the old links. |
| `Browser.Page.InitProgressChart` | static/js/main.js:165-196 | A chart is built iff the canvas exists and is unmarked. Building appends one chart and marks the canvas. Otherwise nothing changes. |
| `Browser.Page.InitProgresoChart` | static/js/main.js:198-273 | Same guard and effect for the `progresoChart` canvas. |
| `Browser.Page.InitProgressChartTwice` | static/js/main.js:166-167 | Of two consecutive calls on one element, the second builds nothing. Exactly one chart is built if the element exists and was unmarked, otherwise none. |
| `Browser.Page.BeginLoad` | static/js/main.js:75-97 | An unregistered name gets the warning and no request. A registered name gets the spinner and a request for its fragment path. |
| `Browser.Page.FinishLoad` | static/js/main.js:97-121 | Success: container, sidebar and `bm_last_view` as the specification functions give; the `inicio` chart is built under its guard; other hooks are returned as pending. Failure: only the container changes, to the error. |
| `Browser.Page.LoadView` | static/js/main.js:64-122 | The whole load: request is the lookup, container is `LoadedContent`, store is `StoreAfterLoad`, and links are highlighted iff the view rendered. |
| `Browser.Page.OverlappingLoads` | static/js/main.js:97-104 | With two loads in flight and the earlier one answered last, the container and `bm_last_view` show the earlier request. |
| `Browser.Page.Start` | static/js/main.js:1-33 | Redirect: only `location` changes, and nothing is requested. Mount: the initial view is highlighted and loaded, with the request, container, store, chart and pending-hook effects of `LoadView`, and the `hashchange` handler is installed. Other pages: nothing changes. |
| `Browser.Page.Mount` | static/js/main.js:155-162 | Once the initial view is chosen, it is highlighted whatever the load's outcome, and the `hashchange` handler is installed. The load has `LoadView`'s effects: request, container, store, the `inicio` chart only under its guard, charts untouched for every other view, and the pending hook. |
| `Browser.Page.OnHashChange` | static/js/main.js:159-162 | Loads the hash-change view with `LoadView`'s effects: request, container, store, highlight only after a render, the `inicio` chart only under its guard, charts untouched for every other view, and the pending hook. Nothing is highlighted beforehand. |
| `Browser.Page.SubmitLogin` | static/js/main.js:280-293 | An invalid form only gains `was-validated`: nothing is stored and there is no navigation. A valid form yields `LoginStore` and navigation to `app.html#inicio`. |
| `Browser.Page.Logout` | static/js/main.js:138-143 | The store becomes `LogoutStore` of the old store, and the page navigates to `index.html`. |

## Findings

| source | as written | input that shows it | evidently intended | confidence | as-written member | corrected member |
|---|---|---|---|---|---|---|
| static/js/main.js:75-83 | `const file = map[viewName]; if (!file)` reads a plain object literal, so inherited `Object.prototype` members count as truthy entries | fragment `#constructor` (also `#toString`, `#__proto__`, …): a fetch is issued for the stringified inherited value, and the user sees the load-error message instead of "Vista no reconocida" | only the seven own keys are views; every other name gets the warning and no fetch | high (not executed) | `Router.PrototypeNamesFetchAsWritten` | `Router.Lookup` |

## Left out

- Chart.js configuration, labels, datasets and styling: floating-point example data passed
  to a foreign library. Only the fact that a chart was built on an element is kept.
- `formatToday`: it depends on the clock and the `es-ES` locale.
- Real `fetch` / `res.text()` I/O: replaced by the `Fetch` outcome parameter. The markup
  strings are reduced to which variant they are and the name they carry.
- `setTimeout`, `requestAnimationFrame` and `scrollChatToBottom`: timing and layout. The
  `progreso` and `chat` hooks are returned as pending work. A caller runs the `progreso` one
  with `InitProgresoChart`.
- Overlapping loads in general: loads are sequential steps. One interleaving is shown by
  `OverlappingLoads`.
- Event wiring (`bindSidebar`, `addEventListener`, `DOMContentLoaded`), `preventDefault`,
  `stopPropagation`, the `bm-no-page-scroll` class, `console.error` and the today label.
  Handlers are methods invoked directly. A missing logout button or login form means the
  corresponding method is never invoked.
- CSS selector syntax in `querySelector`: names are compared by plain equality.
- `Browser.Page.Mount` / `Browser.Page.Start`: the name passed to `setActiveLink(initial)` comes
  unchecked from the fragment or the store. A name with a CSS escape (fragment `#\69nicio`)
  makes `querySelector` highlight the `inicio` link, while the load shows the warning; the
  model leaves no link active. A name containing `"` or a line break makes `querySelector`
  throw outside any `try`, which aborts start-up before `loadView(initial)` runs and before
  the `hashchange` handler is installed; the model always loads and installs it.
- `localStorage.setItem` throwing (storage disabled or full), and the browser's
  percent-encoding of characters in `location.hash`.
- `Browser.Page.BeginLoad` / `Browser.Page.LoadView` / `Browser.Page.OnHashChange` / `Browser.Page.Mount`:
  the loads use the corrected `Lookup`. For the twelve inherited names (`constructor`,
  `hasOwnProperty`, `isPrototypeOf`, `propertyIsEnumerable`, `toLocaleString`, `toString`,
  `valueOf`, `__proto__`, `__defineGetter__`, `__defineSetter__`, `__lookupGetter__`,
  `__lookupSetter__`) the code as written fetches the stringified inherited value. The model
  shows the warning and issues no request. The as-written behaviour is stated by
  `Router.PrototypeNamesFetchAsWritten`.
- `Browser.Page.FinishLoad` / `Browser.Page.LoadView`: `initProgressChart()` runs inside the
  `try`. If `new Chart(...)` throws (for example when Chart.js is not loaded), the `catch`
  replaces the just-rendered `inicio` markup with the load error. By then the sidebar is
  highlighted and `bm_last_view` is `"inicio"`. The model treats chart construction as unable
  to fail, so it never yields `LoadError("inicio")` together with an updated store.
