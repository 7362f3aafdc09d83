/** The `isFullscreen` flag: how `toggleFullscreen` and the
    `fullscreenchange` handler update it, and why the handler keeps it in
    step with the platform. */
module Fullscreen {

  /** The platform call `toggleFullscreen` makes. */
  datatype Request = NoRequest | RequestEnter | RequestExit

  /** The call made for the platform's current fullscreen element: enter
      (on the chart container, when there is one) if there is none, exit
      otherwise. */
  function ToggleRequest(element: bool, hasContainer: bool): (r: Request)
    ensures r == RequestEnter <==> !element && hasContainer
    ensures r == RequestExit <==> element
    ensures r == NoRequest <==> !element && !hasContainer
  {
    if !element then (if hasContainer then RequestEnter else NoRequest) else RequestExit
  }

  /** The flag after `toggleFullscreen`: set exactly when entering is
      requested, cleared when exiting is, kept when nothing is requested
      (and set before the platform grants or refuses the request). */
  function AfterToggle(flag: bool, element: bool, hasContainer: bool): (f: bool)
    ensures ToggleRequest(element, hasContainer) == RequestEnter ==> f
    ensures ToggleRequest(element, hasContainer) == RequestExit ==> !f
    ensures ToggleRequest(element, hasContainer) == NoRequest ==> f == flag
  {
    if !element then (if hasContainer then true else flag) else false
  }

  /** The flag after the `fullscreenchange` handler: cleared when the
      platform reports no fullscreen element, kept otherwise. */
  function AfterChange(flag: bool, element: bool): (f: bool)
    ensures !element ==> !f
    ensures element ==> f == flag
  {
    if !element then false else flag
  }

  /** What happens on the page: the user presses the fullscreen button and
      the platform grants the request, the user presses it and the platform
      refuses the request, or the platform leaves fullscreen by itself (the
      Escape key). A refused request is a rejected `requestFullscreen`
      promise when there is no fullscreen element, and a rejected
      `exitFullscreen` promise when there is one. */
  datatype Event = Toggle | RefusedToggle | ExternalExit

  /** The platform's fullscreen element (present or not) and the flag. */
  datatype World = World(element: bool, flag: bool)

  /** Where a request leaves the platform's fullscreen element, assuming
      the platform honours every request. */
  function Honour(r: Request, element: bool): bool
  {
    match r
    case NoRequest => element
    case RequestEnter => true
    case RequestExit => false
  }

  /** One event on a platform that fires `fullscreenchange` whenever its
      fullscreen element changes. A refused request changes nothing on the
      platform and fires no event, but the flag was already set. */
  function Step(w: World, e: Event, hasContainer: bool): World
  {
    match e
    case Toggle =>
      var flag := AfterToggle(w.flag, w.element, hasContainer);
      var element := Honour(ToggleRequest(w.element, hasContainer), w.element);
      World(element, if element != w.element then AfterChange(flag, element) else flag)
    case RefusedToggle =>
      World(w.element, AfterToggle(w.flag, w.element, hasContainer))
    case ExternalExit =>
      if w.element then World(false, AfterChange(w.flag, false)) else w
  }

  function Run(w: World, events: seq<Event>, hasContainer: bool): World
    decreases |events|
  {
    if events == [] then w else Run(Step(w, events[0], hasContainer), events[1..], hasContainer)
  }

  /** No request in `events` is refused. */
  predicate Granted(events: seq<Event>)
  {
    forall i :: 0 <= i < |events| ==> events[i] != RefusedToggle
  }

  /** Starting in step (the flag starts `false` with no fullscreen
      element), the flag equals "there is a fullscreen element" after any
      sequence of granted toggles and external exits: entering with the
      button and leaving with Escape ends with the flag `false`, without a
      second toggle. */
  lemma {:induction false} FlagFollowsPlatform(w: World, events: seq<Event>, hasContainer: bool)
    requires w.flag == w.element
    requires Granted(events)
    ensures Run(w, events, hasContainer).flag == Run(w, events, hasContainer).element
    decreases |events|
  {
    if events != [] {
      assert events[0] != RefusedToggle;
      FlagFollowsPlatform(Step(w, events[0], hasContainer), events[1..], hasContainer);
    }
  }

  /** A refused request to enter leaves the flag set with no fullscreen
      element, and Escape presses cannot clear it: the flag stays out of
      step until a later toggle. */
  lemma {:induction false} RefusedEnterDesyncs(w: World, exits: nat, hasContainer: bool)
    requires !w.element && hasContainer
    ensures Run(w, [RefusedToggle] + Repeat(ExternalExit, exits), hasContainer) == World(false, true)
    decreases exits
  {
    var events := [RefusedToggle] + Repeat(ExternalExit, exits);
    assert events[1..] == Repeat(ExternalExit, exits);
    ExitsIgnoredWithoutElement(World(false, true), exits, hasContainer);
  }

  /** A refused request to exit clears the flag while the platform stays
      fullscreen; the next Escape press brings the two back in step, with
      the flag still `false`. */
  lemma RefusedExitDesyncs(w: World, hasContainer: bool)
    requires w.element
    ensures Run(w, [RefusedToggle], hasContainer) == World(true, false)
    ensures Run(w, [RefusedToggle, ExternalExit], hasContainer) == World(false, false)
  {
  }

  /** `n` copies of `e`. */
  function Repeat(e: Event, n: nat): (r: seq<Event>)
    ensures |r| == n
    ensures forall i :: 0 <= i < n ==> r[i] == e
  {
    if n == 0 then [] else [e] + Repeat(e, n - 1)
  }

  /** With no fullscreen element, external exits change nothing. */
  lemma {:induction false} ExitsIgnoredWithoutElement(w: World, n: nat, hasContainer: bool)
    requires !w.element
    ensures Run(w, Repeat(ExternalExit, n), hasContainer) == w
    decreases n
  {
    if n > 0 {
      var events := Repeat(ExternalExit, n);
      assert events[1..] == Repeat(ExternalExit, n - 1);
      ExitsIgnoredWithoutElement(w, n - 1, hasContainer);
    }
  }
}
