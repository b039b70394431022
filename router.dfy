/** The view router's pure logic: reading a view name from the URL fragment, choosing the view
    to show, the fixed registry of views, and what a finished load leaves in the container and
    in the store. */
module Router {
  import opened Wrappers
  import opened JsString
  import opened Session

  // ---------- the URL fragment ----------

  /** `getViewFromHash()`: drop the first `#`, trim, and return null for what is left empty.
      A view read from the fragment is never empty and never has white space at either end. */
  function ViewFromHash(hash: string): (v: Option<string>)
    ensures v == None <==> AllSpace(RemoveFirst(hash, '#'))
    ensures v.Some? ==> v.value != "" && IsTrimmed(v.value)
  {
    var raw := Trim(RemoveFirst(hash, '#'));
    if raw == "" then None else Some(raw)
  }

  /** Clicking a sidebar link sets `location.hash = view`, so the fragment reads `#` followed by
      the view; white space around the view is read away too. */
  lemma HashRoundTrip(a: string, view: string, b: string)
    requires view != "" && IsTrimmed(view) && AllSpace(a) && AllSpace(b)
    ensures ViewFromHash("#" + a + view + b) == Some(view)
  {
    var padded := a + view + b;
    assert "#" + a + view + b == "" + ['#'] + padded;
    RemoveFirstAt("", '#', padded);
    TrimPadded(a, view, b);
    assert Trim(RemoveFirst("#" + a + view + b, '#')) == view;
  }

  // ---------- choosing the view ----------

  /** JavaScript truthiness of a string-or-null: null and "" are both falsy. */
  predicate Truthy(o: Option<string>) {
    o.Some? && o.value != ""
  }

  /** `fromHash || last || "inicio"` at start-up: the fragment's view if there is one, else the
      stored last view if it is a non-empty string, else the default view. */
  function InitialView(fromHash: Option<string>, last: Option<string>): (v: string)
    ensures v != ""
    ensures Truthy(fromHash) ==> v == fromHash.value
    ensures !Truthy(fromHash) && Truthy(last) ==> v == last.value
    ensures v == DefaultView <==>
      (Truthy(fromHash) && fromHash.value == DefaultView)
      || (!Truthy(fromHash) && Truthy(last) && last.value == DefaultView)
      || (!Truthy(fromHash) && !Truthy(last))
  {
    if Truthy(fromHash) then fromHash.value
    else if Truthy(last) then last.value
    else DefaultView
  }

  /** `getViewFromHash() || "inicio"` on `hashchange`: the stored last view plays no part. */
  function HashChangeView(fromHash: Option<string>): (v: string)
    ensures v != ""
    ensures Truthy(fromHash) ==> v == fromHash.value
    ensures !Truthy(fromHash) ==> v == DefaultView
  {
    if Truthy(fromHash) then fromHash.value else DefaultView
  }

  /** The hash-change choice is the start-up choice with an empty store, and the two agree
      whenever the fragment names a view or nothing usable is stored. */
  lemma HashChangeIgnoresStore(fromHash: Option<string>, last: Option<string>)
    ensures HashChangeView(fromHash) == InitialView(fromHash, None)
    ensures Truthy(fromHash) || !Truthy(last) ==> HashChangeView(fromHash) == InitialView(fromHash, last)
    ensures !Truthy(fromHash) && Truthy(last) ==> InitialView(fromHash, last) == last.value
  {
  }

  // ---------- the registry ----------

  /** The seven view names, listed on their own. */
  const ViewNames: set<string> :=
    {"inicio", "horario", "progreso", "tests", "material", "chat", "logros"}

  /** The `map` object inside `loadView`: view name to fragment path. */
  const Registry: map<string, string> := map[
    "inicio" := "views/dashboard.html",
    "horario" := "views/calendario.html",
    "progreso" := "views/progreso.html",
    "tests" := "views/tests.html",
    "material" := "views/material.html",
    "chat" := "views/chat.html",
    "logros" := "views/logros.html"
  ]

  /** The registry lookup, as an own-key lookup: exactly the seven names (case-sensitive,
      exact) find a fragment path, and every path found is a non-empty `views/...html`. */
  function Lookup(name: string): (file: Option<string>)
    ensures file.Some? <==> name in ViewNames
    ensures file.Some? ==> file.value == Registry[name]
    ensures file.Some? ==> file.value != ""
  {
    RegistryKeys();
    if name in Registry then Some(Registry[name]) else None
  }

  /** The registry's keys are exactly the seven view names, and no path in it is empty. */
  lemma RegistryKeys()
    ensures Registry.Keys == ViewNames
    ensures forall name :: name in Registry ==> Registry[name] != ""
  {
  }

  /** Every registered view name can travel through the fragment: a sidebar click on it leads
      the hash-change handler back to exactly that name. */
  lemma LinkClickLoadsView(name: string)
    requires name in ViewNames
    ensures HashChangeView(ViewFromHash("#" + name)) == name
  {
    assert IsTrimmed(name);
    assert "#" + "" + name + "" == "#" + name;
    HashRoundTrip("", name, "");
  }

  // ---------- the registry read as written ----------

  /** Property names every plain JavaScript object inherits from `Object.prototype`
      (the ECMAScript properties of the Object prototype object, with the Annex B additions). */
  const ObjectPrototypeMembers: set<string> := {
    "constructor", "hasOwnProperty", "isPrototypeOf", "propertyIsEnumerable",
    "toLocaleString", "toString", "valueOf", "__proto__",
    "__defineGetter__", "__defineSetter__", "__lookupGetter__", "__lookupSetter__"
  }

  /** What the property read `map[viewName]` yields on the object literal. */
  datatype PropertyRead =
    | OwnValue(path: string)        // one of the seven entries
    | InheritedValue(member: string) // a function or object inherited from Object.prototype
    | Undefined

  /** `map[viewName]` as written: an own entry, else an inherited member, else `undefined`. */
  function ReadMapAsWritten(name: string): (r: PropertyRead)
    ensures r.OwnValue? <==> name in ViewNames
    ensures r.InheritedValue? <==> name in ObjectPrototypeMembers
  {
    if name in Registry then OwnValue(Registry[name])
    else if name in ObjectPrototypeMembers then InheritedValue(name)
    else Undefined
  }

  /** `if (!file) { ...warning...; return; }` as written: a fetch is issued for every truthy
      read. Functions and objects are truthy. */
  predicate FetchesAsWritten(name: string) {
    match ReadMapAsWritten(name)
    case OwnValue(path) => path != ""
    case InheritedValue(_) => true
    case Undefined => false
  }

  /** The discrepancy: a fragment such as `#constructor` names no view, yet the code as written
      goes on to fetch (the stringified inherited function) instead of showing the
      "unrecognised view" warning. The corrected `Lookup` finds nothing for these names. */
  lemma PrototypeNamesFetchAsWritten(name: string)
    requires name in ObjectPrototypeMembers
    ensures name !in ViewNames && FetchesAsWritten(name) && Lookup(name) == None
  {
  }

  /** Outside the inherited names, the corrected lookup and the code as written agree. */
  lemma LookupAgreesAsWritten(name: string)
    requires name !in ObjectPrototypeMembers
    ensures FetchesAsWritten(name) <==> Lookup(name).Some?
  {
  }

  // ---------- loading a view ----------

  /** What `fetch(file)` and `res.text()` produced: the text of an ok response, or a failure
      (a status that is not ok, a network error, or a body that could not be read). */
  datatype Fetch = Fetched(text: string) | FetchFailed

  /** The content of `#view-container`, abstracted to which markup it holds. */
  datatype Content =
    | Markup(html: string)     // markup written verbatim (a fetched fragment, or the shell's own)
    | Loading                  // the spinner card shown while the fetch is pending
    | Warning(view: string)    // "Vista no reconocida: <view>"
    | LoadError(view: string)  // "No se ha podido cargar <view>. (Prototipo)"

  /** The container once `loadView(name)` has finished: the warning for a name outside the
      registry, the fetched text on success, the error naming the view on failure. Never the
      spinner. */
  function LoadedContent(name: string, outcome: Fetch): (c: Content)
    ensures c.Warning? <==> name !in ViewNames
    ensures c.LoadError? <==> name in ViewNames && outcome.FetchFailed?
    ensures c.Markup? <==> name in ViewNames && outcome.Fetched?
    ensures c.Warning? || c.LoadError? ==> c.view == name
    ensures c.Markup? ==> c.html == outcome.text
  {
    if Lookup(name).None? then Warning(name)
    else match outcome
      case Fetched(text) => Markup(text)
      case FetchFailed => LoadError(name)
  }

  /** The view a load has rendered successfully, if any. */
  predicate Rendered(name: string, outcome: Fetch) {
    name in ViewNames && outcome.Fetched?
  }

  /** The store once `loadView(name)` has finished: `bm_last_view` becomes `name` after a
      successful render and nothing is written otherwise. */
  function StoreAfterLoad(s: Store, name: string, outcome: Fetch): (r: Store)
    ensures Rendered(name, outcome) ==> GetItem(r, LastViewKey) == Some(name)
    ensures !Rendered(name, outcome) ==> r == s
    ensures forall k :: k != LastViewKey ==> GetItem(r, k) == GetItem(s, k)
  {
    if Rendered(name, outcome) then s[LastViewKey := name] else s
  }

  /** The store holds, as last view, nothing or a registered name. */
  predicate LastViewRegistered(s: Store) {
    LastViewKey in s ==> s[LastViewKey] in ViewNames
  }

  /** Loads, logins and logouts keep the stored last view a registered name: only rendered
      views and the default view are ever written there. */
  lemma LastViewStaysRegistered(s: Store, name: string, outcome: Fetch)
    requires LastViewRegistered(s)
    ensures LastViewRegistered(StoreAfterLoad(s, name, outcome))
    ensures LastViewRegistered(LoginStore(s))
    ensures LastViewRegistered(LogoutStore(s))
  {
  }

  /** So a reload with an empty fragment resumes a registered view (never the warning), as long
      as nothing but this application wrote the store. */
  lemma ResumeIsRegistered(s: Store, hash: string)
    requires LastViewRegistered(s) && ViewFromHash(hash) == None
    ensures InitialView(ViewFromHash(hash), GetItem(s, LastViewKey)) in ViewNames
  {
  }

  /** After a login, the application shell opened at `#inicio` shows the default view; after a
      logout, a shell opened without a fragment would fall back to the default view too. */
  lemma SessionViews(s: Store, hash: string)
    requires ViewFromHash(hash) == None
    ensures InitialView(ViewFromHash("#" + DefaultView), GetItem(LoginStore(s), LastViewKey)) == DefaultView
    ensures InitialView(ViewFromHash(hash), GetItem(LogoutStore(s), LastViewKey)) == DefaultView
  {
    LinkClickLoadsView(DefaultView);
  }

  // ---------- post-render hooks ----------

  /** The work `loadView` starts after a successful render, by view name. */
  datatype Hook =
    | NoHook
    | DrawProgressChart                // `initProgressChart()` at once
    | DrawProgresoChart(delayMs: nat)  // `setTimeout(initProgresoChart, 40)`
    | ScrollChat(retryMs: nat)         // scroll the chat to its bottom, and again after 80 ms

  /** Only three views have a hook, each its own. */
  function PostRender(name: string): (h: Hook)
    ensures h != NoHook ==> name in ViewNames
    ensures h.DrawProgressChart? <==> name == DefaultView
    ensures h.DrawProgresoChart? <==> name == "progreso"
    ensures h.ScrollChat? <==> name == "chat"
    ensures h.DrawProgresoChart? ==> h.delayMs == 40
    ensures h.ScrollChat? ==> h.retryMs == 80
  {
    if name == "inicio" then DrawProgressChart
    else if name == "progreso" then DrawProgresoChart(40)
    else if name == "chat" then ScrollChat(80)
    else NoHook
  }
}
