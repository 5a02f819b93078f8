/**
 * The reCAPTCHA check after a search (check_recaptcha in google_scrapping.py), as
 * a decision over what the three waits observe. The waits themselves, the 30 s
 * grace sleep and the 15 s pause after the refresh are not modelled.
 */
module Challenge {

  /** How one WebDriverWait ended: the element was there, the wait timed out, or some other exception was raised. */
  datatype Probe = Found | TimedOut | Raised

  /**
   * The three observations: the reCAPTCHA iframe (located and switched into), the
   * checkbox inside it, and the checkbox again after the grace period.
   */
  datatype Observations = Observations(iframe: Probe, checkbox: Probe, recheck: Probe)

  /** What the check does to the browser, in order. */
  datatype Action = SwitchToCaptchaFrame | Refresh | SwitchToDefault

  /**
   * Clear: no challenge was found; Resolved: it went away during the grace period;
   * Unresolved: it is still there; Failed: an unexpected exception was logged.
   */
  datatype Verdict = Clear | Resolved | Unresolved | Failed

  datatype Report = Report(verdict: Verdict, actions: seq<Action>)

  /** The flag check_recaptcha returns: True only for a challenge still present after the grace period. */
  predicate Restart(r: Report)
  {
    r.verdict == Unresolved
  }

  /** Which browsing context the driver is in. */
  datatype Frame = DefaultContent | CaptchaFrame

  /** The context the driver ends in after `actions`, starting from `start`. */
  function FrameAfter(start: Frame, actions: seq<Action>): Frame
    decreases |actions|
  {
    if actions == [] then start
    else
      var next := match actions[0]
        case SwitchToCaptchaFrame => CaptchaFrame
        case Refresh => start
        case SwitchToDefault => DefaultContent;
      FrameAfter(next, actions[1..])
  }

  /**
   * check_recaptcha: the restart flag is raised exactly when the iframe and the
   * checkbox are found and the checkbox is still there after the grace period, and
   * only then is the page refreshed; no frame switch happens unless the iframe was
   * found; the default content is restored on every path.
   */
  function CheckRecaptcha(obs: Observations): (r: Report)
    ensures Restart(r) <==> obs.iframe == Found && obs.checkbox == Found && obs.recheck == Found
    ensures Refresh in r.actions <==> Restart(r)
    ensures SwitchToCaptchaFrame in r.actions <==> obs.iframe == Found
    ensures r.actions != [] && r.actions[|r.actions| - 1] == SwitchToDefault
    ensures forall start :: FrameAfter(start, r.actions) == DefaultContent
    ensures r.verdict == Failed <==>
      obs.iframe == Raised || (obs.iframe == Found && (obs.checkbox == Raised || (obs.checkbox == Found && obs.recheck == Raised)))
  {
    match obs.iframe
    case TimedOut => Report(Clear, [SwitchToDefault])
    case Raised => Report(Failed, [SwitchToDefault])
    case Found =>
      match obs.checkbox
      case TimedOut => Report(Clear, [SwitchToCaptchaFrame, SwitchToDefault])
      case Raised => Report(Failed, [SwitchToCaptchaFrame, SwitchToDefault])
      case Found =>
        match obs.recheck
        case Found => Report(Unresolved, [SwitchToCaptchaFrame, Refresh, SwitchToDefault])
        case TimedOut => Report(Resolved, [SwitchToCaptchaFrame, SwitchToDefault])
        case Raised => Report(Failed, [SwitchToCaptchaFrame, SwitchToDefault])
  }

  /** A wait that times out is read as "no challenge", never as an error. */
  lemma TimeoutsAreNotErrors(obs: Observations)
    requires obs.iframe != Raised && obs.checkbox != Raised && obs.recheck != Raised
    ensures CheckRecaptcha(obs).verdict in {Clear, Resolved, Unresolved}
  {
  }
}
