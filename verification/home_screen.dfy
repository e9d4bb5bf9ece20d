/** The home screen: two flags fed by the embedded browser's callbacks
    (`isLoading`, `canGoBack`), the reference to the embedded browser, and
    the handlers that answer events and issue commands. The events are
    modelled once as a pure transition function (`Step`), whose traces the
    lemmas below speak about, and once as the class `Screen`, whose methods
    update the fields in place and are proved to follow `Step`. */
module HomeScreen {
  import NavigationPolicy

  /** What the screen hands to its collaborators: commands to the embedded
      browser, the two alerts, and the system browser. */
  datatype Command =
    | GoBack
    | Reload
    | ConfirmPrompt(url: string)
    | ErrorAlert
    | OpenExternal(url: string)

  /** Callbacks from the embedded browser, the hardware back button, the
      buttons of the two alerts, and the reference to the embedded browser
      being set or cleared. */
  datatype Event =
    | LoadStart
    | LoadEnd
    | NavigationStateChange(reportedCanGoBack: bool)
    | HardwareBackPress
    | ShouldStartLoad(url: string)
    | LoadError
    | RetryChosen
    | OpenChosen(url: string)
    | HandleChanged(present: bool)

  datatype ScreenState = ScreenState(isLoading: bool, canGoBack: bool, hasHandle: bool)

  /** On mount: loading, no history, and no reference yet. */
  const Initial := ScreenState(true, false, false)

  datatype Reaction = Reaction(next: ScreenState, emitted: seq<Command>)

  /** The back press is consumed only when there is history and a browser to send it to. */
  predicate BackPressConsumed(s: ScreenState) {
    s.canGoBack && s.hasHandle
  }

  /** The reaction of the screen to one event. */
  function Step(s: ScreenState, e: Event): (r: Reaction)
    ensures !e.NavigationStateChange? ==> r.next.canGoBack == s.canGoBack
    ensures !(e.LoadStart? || e.LoadEnd?) ==> r.next.isLoading == s.isLoading
    ensures !e.HandleChanged? ==> r.next.hasHandle == s.hasHandle
    ensures |r.emitted| <= 1
    ensures GoBack in r.emitted <==> e.HardwareBackPress? && BackPressConsumed(s)
    ensures Reload in r.emitted <==> e.RetryChosen? && s.hasHandle
    ensures forall u :: ConfirmPrompt(u) in r.emitted <==>
              e == ShouldStartLoad(u) && NavigationPolicy.Decide(u, NavigationPolicy.OwnDomain).Deny?
  {
    match e
    case LoadStart => Reaction(s.(isLoading := true), [])
    case LoadEnd => Reaction(s.(isLoading := false), [])
    case NavigationStateChange(b) => Reaction(s.(canGoBack := b), [])
    case HardwareBackPress =>
      Reaction(s, if BackPressConsumed(s) then [GoBack] else [])
    case ShouldStartLoad(url) =>
      var decision := NavigationPolicy.Decide(url, NavigationPolicy.OwnDomain);
      Reaction(s, if decision.Deny? then [ConfirmPrompt(decision.confirmUrl)] else [])
    case LoadError => Reaction(s, [ErrorAlert])
    case RetryChosen => Reaction(s, if s.hasHandle then [Reload] else [])
    case OpenChosen(url) => Reaction(s, [OpenExternal(url)])
    case HandleChanged(present) => Reaction(s.(hasHandle := present), [])
  }

  /** The state after a trace of events and every command emitted on the way. */
  function Run(s: ScreenState, events: seq<Event>): Reaction
  {
    if events == [] then Reaction(s, [])
    else
      var before := Run(s, events[..|events| - 1]);
      var last := Step(before.next, events[|events| - 1]);
      Reaction(last.next, before.emitted + last.emitted)
  }

  /** The value reported by the latest navigation-state event, or `start`. */
  function LastReported(events: seq<Event>, start: bool): bool {
    if events == [] then start
    else if events[|events| - 1].NavigationStateChange? then events[|events| - 1].reportedCanGoBack
    else LastReported(events[..|events| - 1], start)
  }

  /** True after a load-start, false after a load-end, `start` before either. */
  function LastLoadPhase(events: seq<Event>, start: bool): bool {
    if events == [] then start
    else if events[|events| - 1].LoadStart? then true
    else if events[|events| - 1].LoadEnd? then false
    else LastLoadPhase(events[..|events| - 1], start)
  }

  /** `canGoBack` mirrors the latest navigation-state report; no other event touches it. */
  lemma {:induction false} CanGoBackMirrorsLastReport(s: ScreenState, events: seq<Event>)
    ensures Run(s, events).next.canGoBack == LastReported(events, s.canGoBack)
  {
    if events != [] {
      CanGoBackMirrorsLastReport(s, events[..|events| - 1]);
    }
  }

  /** `isLoading` follows the latest load-start or load-end; no other event touches it. */
  lemma {:induction false} IsLoadingFollowsLastLoadEvent(s: ScreenState, events: seq<Event>)
    ensures Run(s, events).next.isLoading == LastLoadPhase(events, s.isLoading)
  {
    if events != [] {
      IsLoadingFollowsLastLoadEvent(s, events[..|events| - 1]);
    }
  }

  /** From mount: no history until reported, loading until a load ends. */
  lemma InitialTraceFlags(events: seq<Event>)
    ensures Run(Initial, events).next.canGoBack == LastReported(events, false)
    ensures Run(Initial, events).next.isLoading == LastLoadPhase(events, true)
  {
    CanGoBackMirrorsLastReport(Initial, events);
    IsLoadingFollowsLastLoadEvent(Initial, events);
  }

  /** Commands to the embedded browser only come from the back button and
      the retry button, at most one per press; one confirmation prompt is
      raised for each refused load of a URL and none for a permitted one. */
  lemma {:induction false} CommandsAccountedFor(s: ScreenState, events: seq<Event>)
    ensures multiset(Run(s, events).emitted)[GoBack] <= multiset(events)[HardwareBackPress]
    ensures multiset(Run(s, events).emitted)[Reload] <= multiset(events)[RetryChosen]
    ensures forall u :: multiset(Run(s, events).emitted)[ConfirmPrompt(u)] ==
              if NavigationPolicy.Decide(u, NavigationPolicy.OwnDomain).Deny?
              then multiset(events)[ShouldStartLoad(u)] else 0
  {
    if events != [] {
      var init, e := events[..|events| - 1], events[|events| - 1];
      CommandsAccountedFor(s, init);
      assert events == init + [e];
    }
  }

  /** Extending a trace by one event runs one more step. */
  lemma RunSnoc(s: ScreenState, events: seq<Event>, e: Event)
    ensures Run(s, events + [e]) ==
            Reaction(Step(Run(s, events).next, e).next,
                     Run(s, events).emitted + Step(Run(s, events).next, e).emitted)
  {
    assert (events + [e])[..|events|] == events;
  }

  /** With the browser mounted, navigation reports false, true, false, each
      followed by a back press: the presses are consumed no, yes, no, and
      the middle one issues the only command. */
  lemma BackPressScenario()
    ensures var t1 := [HandleChanged(true), NavigationStateChange(false)];
            var t2 := t1 + [HardwareBackPress, NavigationStateChange(true)];
            var t3 := t2 + [HardwareBackPress, NavigationStateChange(false)];
            && !BackPressConsumed(Run(Initial, t1).next)
            && BackPressConsumed(Run(Initial, t2).next)
            && !BackPressConsumed(Run(Initial, t3).next)
            && Run(Initial, t3 + [HardwareBackPress]).emitted == [GoBack]
  {
    var t0 := [HandleChanged(true)];
    var t1 := [HandleChanged(true), NavigationStateChange(false)];
    var t1b := t1 + [HardwareBackPress];
    var t2 := t1 + [HardwareBackPress, NavigationStateChange(true)];
    var t2b := t2 + [HardwareBackPress];
    var t3 := t2 + [HardwareBackPress, NavigationStateChange(false)];
    RunSnoc(Initial, [], HandleChanged(true));
    assert Run(Initial, t0) == Reaction(ScreenState(true, false, true), []);
    RunSnoc(Initial, t0, NavigationStateChange(false));
    assert Run(Initial, t1) == Reaction(ScreenState(true, false, true), []);
    RunSnoc(Initial, t1, HardwareBackPress);
    assert Run(Initial, t1b) == Reaction(ScreenState(true, false, true), []);
    assert t2 == t1b + [NavigationStateChange(true)];
    RunSnoc(Initial, t1b, NavigationStateChange(true));
    assert Run(Initial, t2) == Reaction(ScreenState(true, true, true), []);
    RunSnoc(Initial, t2, HardwareBackPress);
    assert Run(Initial, t2b) == Reaction(ScreenState(true, true, true), [GoBack]);
    assert t3 == t2b + [NavigationStateChange(false)];
    RunSnoc(Initial, t2b, NavigationStateChange(false));
    assert Run(Initial, t3) == Reaction(ScreenState(true, false, true), [GoBack]);
    RunSnoc(Initial, t3, HardwareBackPress);
  }

  /** The screen as an object: the flags are fields the handlers overwrite,
      and `log` records, in order, every command and alert issued. */
  class Screen {
    var isLoading: bool
    var canGoBack: bool
    var hasHandle: bool
    ghost var log: seq<Command>

    function State(): ScreenState
      reads this
    {
      ScreenState(isLoading, canGoBack, hasHandle)
    }

    /** The state and log are those `Step` gives for `e` from `before`. */
    ghost predicate Follows(before: ScreenState, logBefore: seq<Command>, e: Event)
      reads this
    {
      var r := Step(before, e);
      State() == r.next && log == logBefore + r.emitted
    }

    constructor ()
      ensures State() == Initial && log == []
    {
      isLoading := true;
      canGoBack := false;
      hasHandle := false;
      log := [];
    }

    method OnLoadStart()
      modifies this
      ensures isLoading && canGoBack == old(canGoBack) && hasHandle == old(hasHandle)
      ensures log == old(log)
      ensures Follows(old(State()), old(log), LoadStart)
    {
      isLoading := true;
    }

    method OnLoadEnd()
      modifies this
      ensures !isLoading && canGoBack == old(canGoBack) && hasHandle == old(hasHandle)
      ensures log == old(log)
      ensures Follows(old(State()), old(log), LoadEnd)
    {
      isLoading := false;
    }

    method OnNavigationStateChange(reportedCanGoBack: bool)
      modifies this
      ensures canGoBack == reportedCanGoBack
      ensures isLoading == old(isLoading) && hasHandle == old(hasHandle)
      ensures log == old(log)
      ensures Follows(old(State()), old(log), NavigationStateChange(reportedCanGoBack))
    {
      canGoBack := reportedCanGoBack;
    }

    /** The reference to the embedded browser is set on mount and cleared on unmount. */
    method OnHandleChanged(present: bool)
      modifies this
      ensures hasHandle == present
      ensures isLoading == old(isLoading) && canGoBack == old(canGoBack)
      ensures log == old(log)
      ensures Follows(old(State()), old(log), HandleChanged(present))
    {
      hasHandle := present;
    }

    /** Hardware back: go back in the embedded browser and consume the press,
        or leave it to the platform. */
    method OnBackPress() returns (consumed: bool)
      modifies this
      ensures consumed <==> old(canGoBack) && old(hasHandle)
      ensures State() == old(State())
      ensures log == old(log) + (if consumed then [GoBack] else [])
      ensures Follows(old(State()), old(log), HardwareBackPress)
    {
      if canGoBack && hasHandle {
        log := log + [GoBack];
        return true;
      }
      return false;
    }

    /** Answer whether a load may go ahead in-app; a refused load raises one prompt. */
    method OnShouldStartLoadWithRequest(url: string) returns (allow: bool)
      modifies this
      ensures allow <==> NavigationPolicy.Decide(url, NavigationPolicy.OwnDomain).Permit?
      ensures State() == old(State())
      ensures log == old(log) + (if allow then [] else [ConfirmPrompt(url)])
      ensures Follows(old(State()), old(log), ShouldStartLoad(url))
    {
      var decision := NavigationPolicy.Decide(url, NavigationPolicy.OwnDomain);
      match decision
      case Permit =>
        allow := true;
      case Deny(confirmUrl) =>
        log := log + [ConfirmPrompt(confirmUrl)];
        allow := false;
    }

    /** "Abrir" on a raised prompt opens the URL as it was requested. */
    method OnOpenChosen(url: string)
      requires ConfirmPrompt(url) in log
      modifies this
      ensures State() == old(State())
      ensures log == old(log) + [OpenExternal(url)]
      ensures Follows(old(State()), old(log), OpenChosen(url))
    {
      log := log + [OpenExternal(url)];
    }

    /** A load failure raises the connection alert and nothing else. */
    method OnError()
      modifies this
      ensures State() == old(State())
      ensures log == old(log) + [ErrorAlert]
      ensures Follows(old(State()), old(log), LoadError)
    {
      log := log + [ErrorAlert];
    }

    /** "Reintentar" on the connection alert reloads the embedded browser, if it is there. */
    method OnRetryChosen()
      requires ErrorAlert in log
      modifies this
      ensures State() == old(State())
      ensures log == old(log) + (if hasHandle then [Reload] else [])
      ensures Follows(old(State()), old(log), RetryChosen)
    {
      if hasHandle {
        log := log + [Reload];
      }
    }
  }
}
