/**
 * The install lifecycle of the app: the install and reload buttons, the
 * captured `beforeinstallprompt` event, the window listeners, and the
 * registration of the service worker with its update hooks.
 *
 * The pure functions on `Controller` say what each handler does; the class
 * `PwaController` performs the same handlers on mutable fields. What the
 * host answers (standalone display mode, worker support, the registration
 * promise, the prompt's outcome, the worker's state) is an input.
 */
module Pwa {
  import opened Wrappers

  /** The window listeners `main` may add. */
  datatype WindowListener = BeforeInstallPrompt | AppInstalled

  /** How the promise of `beforeInstallPromptEvent.prompt()` settles. */
  datatype PromptResult = Accepted | Dismissed | Rejected

  /** The host at startup and for each registration. */
  datatype Host = Host(standalone: bool, workersSupported: bool, registrationSucceeds: bool)

  datatype Controller = Controller(
    installDisabled: bool,
    reloadDisabled: bool,
    capturedPrompt: Option<nat>,        // the captured event, by identity
    windowListeners: set<WindowListener>,
    registrations: nat,                 // calls of navigator.serviceWorker.register
    updateHook: bool,                   // REGISTRATION.onupdatefound is set
    stateListener: bool,                // a statechange listener is on the installing worker
    prompts: nat)                       // calls of prompt()

  /**
   * The page as loaded: both buttons disabled, nothing captured, nothing
   * registered. The buttons' initial `disabled` attribute belongs to the
   * page markup, which is not part of this model.
   */
  const LOADED := Controller(true, true, None, {}, 0, false, false, 0)

  /** The invariant of the controller: each enabled button has what its click needs. */
  ghost predicate Consistent(c: Controller) {
    (!c.installDisabled ==> c.capturedPrompt.Some?)
    && (!c.reloadDisabled ==> c.stateListener)
    && (c.stateListener ==> c.updateHook)
    && (c.updateHook ==> c.registrations > 0)
  }

  /** `registerServiceWorker()`: attempt a registration where workers exist; a failure is only logged. */
  function Registered(c: Controller, host: Host): (r: Controller)
    ensures host.workersSupported ==> r.registrations == c.registrations + 1
    ensures !host.workersSupported ==> r == c
    ensures r.updateHook <==> c.updateHook || (host.workersSupported && host.registrationSucceeds)
    ensures r.(registrations := c.registrations, updateHook := c.updateHook) == c
  {
    if !host.workersSupported then c
    else if host.registrationSucceeds then c.(registrations := c.registrations + 1, updateHook := true)
    else c.(registrations := c.registrations + 1)
  }

  /** `main()`: standalone registers at once; a web page waits for the install signals. */
  function Started(c: Controller, host: Host): (r: Controller)
    ensures host.standalone ==> r.windowListeners == c.windowListeners && r == Registered(c, host)
    ensures !host.standalone ==> r.windowListeners == c.windowListeners + {BeforeInstallPrompt, AppInstalled}
    ensures !host.standalone ==> r.registrations == c.registrations && r.updateHook == c.updateHook
    ensures !host.standalone ==> r.(windowListeners := c.windowListeners) == c
  {
    if host.standalone then Registered(c, host)
    else c.(windowListeners := c.windowListeners + {BeforeInstallPrompt, AppInstalled})
  }

  /** `onBeforeInstallPrompt(event)`: keep the event and enable the install button. */
  function PromptCaptured(c: Controller, event: nat): (r: Controller)
    ensures !r.installDisabled && r.capturedPrompt == Some(event)
    ensures r.(installDisabled := c.installDisabled, capturedPrompt := c.capturedPrompt) == c
  {
    c.(installDisabled := false, capturedPrompt := Some(event))
  }

  /**
   * `installPwa()`: replay the prompt; once it settles, whatever the outcome,
   * disable the button and stop listening for `beforeinstallprompt`. A
   * rejected prompt throws out of the handler before either happens.
   */
  function Installed(c: Controller, result: PromptResult): (r: Controller)
    ensures r.prompts == c.prompts + 1
    ensures result != Rejected ==> r.installDisabled && BeforeInstallPrompt !in r.windowListeners
    ensures result != Rejected ==> r.windowListeners == c.windowListeners - {BeforeInstallPrompt}
    ensures result != Rejected ==>
      r == c.(prompts := c.prompts + 1, installDisabled := true, windowListeners := c.windowListeners - {BeforeInstallPrompt})
    ensures result == Rejected ==> r == c.(prompts := c.prompts + 1)
  {
    var shown := c.(prompts := c.prompts + 1);
    if result == Rejected then shown
    else shown.(installDisabled := true, windowListeners := c.windowListeners - {BeforeInstallPrompt})
  }

  /** `onUpdateFound(event)`: listen to the state of the installing worker. */
  function UpdateFound(c: Controller): (r: Controller)
    ensures r.stateListener
    ensures r.(stateListener := c.stateListener) == c
  {
    c.(stateListener := true)
  }

  /** `onStateChange(event)`: an installed worker that replaces a controlling one enables reload. */
  function StateChanged(c: Controller, state: string, hasController: bool): (r: Controller)
    ensures !r.reloadDisabled <==> !c.reloadDisabled || (state == "installed" && hasController)
    ensures r.(reloadDisabled := c.reloadDisabled) == c
  {
    if state == "installed" && hasController then c.(reloadDisabled := false) else c
  }

  /** What the host and the user do after startup. Each needs its listener (or an enabled button). */
  datatype Event = PromptOffered(event: nat)
                 | InstallClicked(result: PromptResult)
                 | AppWasInstalled(host: Host)
                 | UpdateFoundEvent
                 | WorkerStateChanged(state: string, hasController: bool)

  function Step(c: Controller, e: Event): Controller {
    match e
    case PromptOffered(event) => if BeforeInstallPrompt in c.windowListeners then PromptCaptured(c, event) else c
    case InstallClicked(result) => if !c.installDisabled then Installed(c, result) else c
    case AppWasInstalled(host) => if AppInstalled in c.windowListeners then Registered(c, host) else c
    case UpdateFoundEvent => if c.updateHook then UpdateFound(c) else c
    case WorkerStateChanged(state, hasController) => if c.stateListener then StateChanged(c, state, hasController) else c
  }

  function Run(c: Controller, events: seq<Event>): Controller
    decreases |events|
  {
    if events == [] then c else Run(Step(c, events[0]), events[1..])
  }

  lemma StepConsistent(c: Controller, e: Event)
    requires Consistent(c)
    ensures Consistent(Step(c, e))
  {
  }

  /** Startup, whatever the host, and every later event keep the controller consistent. */
  lemma {:induction false} RunConsistent(host: Host, events: seq<Event>)
    ensures Consistent(Run(Started(LOADED, host), events))
  {
    RunFromConsistent(Started(LOADED, host), events);
  }

  lemma {:induction false} RunFromConsistent(c: Controller, events: seq<Event>)
    requires Consistent(c)
    ensures Consistent(Run(c, events))
    decreases |events|
  {
    if events != [] {
      StepConsistent(c, events[0]);
      RunFromConsistent(Step(c, events[0]), events[1..]);
    }
  }

  /** Standalone startup registers and adds no install listeners; a web page adds both and does not register. */
  lemma StartupPaths(host: Host)
    ensures host.standalone ==>
      (Started(LOADED, host).windowListeners == {}
       && Started(LOADED, host).registrations == (if host.workersSupported then 1 else 0))
    ensures !host.standalone ==>
      (Started(LOADED, host).windowListeners == {BeforeInstallPrompt, AppInstalled}
       && Started(LOADED, host).registrations == 0)
  {
  }

  /**
   * A settled prompt is single-use: once the install button is disabled and
   * the listener removed, no later sequence of events enables it again.
   */
  lemma {:induction false} PromptIsSingleUse(c: Controller, events: seq<Event>)
    requires c.installDisabled && BeforeInstallPrompt !in c.windowListeners
    ensures Run(c, events).installDisabled && BeforeInstallPrompt !in Run(c, events).windowListeners
    decreases |events|
  {
    if events != [] {
      PromptIsSingleUse(Step(c, events[0]), events[1..]);
    }
  }

  /** After a settled prompt, accepted or dismissed, the install path is closed for the session. */
  lemma InstallClosesOffer(c: Controller, result: PromptResult, later: seq<Event>)
    requires !c.installDisabled && result != Rejected
    ensures var after := Step(c, InstallClicked(result));
      Run(after, later).installDisabled && BeforeInstallPrompt !in Run(after, later).windowListeners
  {
    PromptIsSingleUse(Step(c, InstallClicked(result)), later);
  }

  /** `onAppInstalled` always leads to one registration attempt where workers exist. */
  lemma AppInstalledRegisters(c: Controller, host: Host)
    requires AppInstalled in c.windowListeners && host.workersSupported
    ensures Step(c, AppWasInstalled(host)).registrations == c.registrations + 1
  {
  }

  /** A failed registration, or a host without workers, attaches no update hook and nothing can enable reload. */
  lemma {:induction false} FailedRegistrationNeverOffersReload(c: Controller, events: seq<Event>)
    requires !c.updateHook && !c.stateListener && c.reloadDisabled
    requires forall i :: 0 <= i < |events| ==> events[i].AppWasInstalled? ==>
      !(events[i].host.workersSupported && events[i].host.registrationSucceeds)
    ensures !Run(c, events).updateHook && Run(c, events).reloadDisabled
    decreases |events|
  {
    if events != [] {
      FailedRegistrationNeverOffersReload(Step(c, events[0]), events[1..]);
    }
  }

  /**
   * A first install (no controlling worker yet) never enables reload: only
   * an installed worker replacing a controller does.
   */
  lemma {:induction false} FirstInstallKeepsReloadDisabled(c: Controller, events: seq<Event>)
    requires c.reloadDisabled
    requires forall i :: 0 <= i < |events| ==> events[i].WorkerStateChanged? ==>
      !(events[i].state == "installed" && events[i].hasController)
    ensures Run(c, events).reloadDisabled
    decreases |events|
  {
    if events != [] {
      FirstInstallKeepsReloadDisabled(Step(c, events[0]), events[1..]);
    }
  }

  class PwaController {
    var installDisabled: bool
    var reloadDisabled: bool
    var beforeInstallPromptEvent: Option<nat>
    var windowListeners: set<WindowListener>
    var registrations: nat
    var updateHook: bool
    var stateListener: bool
    var prompts: nat

    function State(): Controller
      reads this
    {
      Controller(installDisabled, reloadDisabled, beforeInstallPromptEvent, windowListeners,
                 registrations, updateHook, stateListener, prompts)
    }

    constructor ()
      ensures State() == LOADED
    {
      installDisabled, reloadDisabled, beforeInstallPromptEvent, windowListeners := true, true, None, {};
      registrations, updateHook, stateListener, prompts := 0, false, false, 0;
    }

    method RegisterServiceWorker(host: Host)
      modifies this
      ensures State() == Registered(old(State()), host)
    {
      if host.workersSupported {
        registrations := registrations + 1;
        if host.registrationSucceeds {
          updateHook := true;
        }
      }
    }

    /** `main()`, run once when the script loads. */
    method Start(host: Host)
      modifies this
      ensures State() == Started(old(State()), host)
    {
      if host.standalone {
        RegisterServiceWorker(host);
      } else {
        windowListeners := windowListeners + {BeforeInstallPrompt};
        windowListeners := windowListeners + {AppInstalled};
      }
    }

    method OnBeforeInstallPrompt(event: nat)
      requires BeforeInstallPrompt in windowListeners
      modifies this
      ensures State() == PromptCaptured(old(State()), event)
    {
      installDisabled := false;
      beforeInstallPromptEvent := Some(event);
    }

    /** The click handler of the install button; an enabled button has a captured event to replay. */
    method InstallPwa(result: PromptResult)
      requires !installDisabled && beforeInstallPromptEvent.Some?
      modifies this
      ensures State() == Installed(old(State()), result)
    {
      prompts := prompts + 1;
      if result == Rejected {
        return;
      }
      installDisabled := true;
      windowListeners := windowListeners - {BeforeInstallPrompt};
    }

    method OnAppInstalled(host: Host)
      requires AppInstalled in windowListeners
      modifies this
      ensures State() == Registered(old(State()), host)
    {
      RegisterServiceWorker(host);
    }

    method OnUpdateFound()
      requires updateHook
      modifies this
      ensures State() == UpdateFound(old(State()))
    {
      stateListener := true;
    }

    method OnStateChange(state: string, hasController: bool)
      requires stateListener
      modifies this
      ensures State() == StateChanged(old(State()), state, hasController)
    {
      if state == "installed" && hasController {
        reloadDisabled := false;
      }
    }
  }
}
