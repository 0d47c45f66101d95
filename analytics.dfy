/**
 * Consent-gated analytics start-up. The static `Analytics` class becomes one
 * `AnalyticsService` object whose fields stand for the static `initialized`
 * flag, the stored cookie-consent value, the Matomo command queue
 * `window._paq` (absent until first created), the LogRocket start and
 * identify calls, and the script elements inserted into the page.
 */
module Analytics {
  import opened Wrappers
  import opened Text

  const CONSENT_KEY := "cookie-consent"
  const ACCEPTED := "accepted"
  const REJECTED := "rejected"
  const LOGROCKET_APP_ID := "zjtinw/restore-vote"
  const MATOMO_BASE := "//matomo.hiddentao.com/"

  /** One entry of the Matomo command queue. */
  type PaqCommand = seq<string>

  /** The four commands a start-up queues, in order. */
  const MATOMO_COMMANDS: seq<PaqCommand> :=
    [["trackPageView"], ["enableLinkTracking"], ["setTrackerUrl", MATOMO_BASE + "matomo.php"], ["setSiteId", "4"]]

  /** `LogRocket.identify(username, {name: username, wallet})`. */
  datatype Identity = Identity(uid: string, name: string, wallet: string)

  /** `isLocalhost`. */
  predicate IsLocalhost(hostname: string) {
    hostname == "localhost" || hostname == "127.0.0.1" || StartsWith(hostname, "localhost:")
  }

  /** A development host with a port counts as local, a look-alike domain does not. */
  lemma LocalhostExamples()
    ensures IsLocalhost("localhost:5173")
    ensures !IsLocalhost("localhost.example.org")
    ensures !IsLocalhost("127.0.0.2")
  {
    assert "localhost.example.org"[9] == '.';
  }

  /** The local hosts are exactly "localhost", "127.0.0.1" and any name whose first ten characters are "localhost:". */
  lemma IsLocalhostCharacterised(h: string)
    ensures IsLocalhost(h) <==> h == "localhost" || h == "127.0.0.1" || (|h| >= 10 && h[..10] == "localhost:")
  {
    assert |"localhost:"| == 10;
  }

  class AnalyticsService {
    /** `window.location.hostname`. */
    const hostname: string
    /** Whether the page already holds a `<script>` element for the Matomo loader to be inserted before. */
    const pageHasScript: bool
    var initialized: bool
    var consent: Option<string>
    var paq: Option<seq<PaqCommand>>
    var logRocketStarts: seq<string>
    var scripts: seq<string>
    var identified: seq<Identity>

    constructor(hostname: string, pageHasScript: bool, consent: Option<string>, paq: Option<seq<PaqCommand>>)
      ensures this.hostname == hostname && this.pageHasScript == pageHasScript
      ensures this.consent == consent && this.paq == paq
      ensures !initialized && logRocketStarts == [] && scripts == [] && identified == []
    {
      this.hostname := hostname;
      this.pageHasScript := pageHasScript;
      this.consent := consent;
      this.paq := paq;
      initialized := false;
      logRocketStarts := [];
      scripts := [];
      identified := [];
    }

    /** `hasConsent`: the stored value is exactly "accepted". */
    predicate HasConsent()
      reads this
    {
      consent == Some(ACCEPTED)
    }

    /** `needsConsent`: nothing is stored under the consent key. */
    function NeedsConsent(): (needed: bool)
      reads this
      ensures needed <==> consent.None?
      ensures needed ==> !HasConsent()
    {
      consent == None
    }

    /**
     * `init`. Nothing happens once initialised. On a local host the flag is
     * set and no tracker starts. Without consent nothing happens. Otherwise
     * LogRocket starts, the Matomo commands are queued after any existing
     * entries and the loader script is inserted; when the page has no script
     * element the insertion throws and the flag stays unset.
     */
    method Init()
      modifies this`initialized, this`paq, this`logRocketStarts, this`scripts
      ensures old(initialized) ==>
        initialized && paq == old(paq) && logRocketStarts == old(logRocketStarts) && scripts == old(scripts)
      ensures !old(initialized) && IsLocalhost(hostname) ==>
        initialized && paq == old(paq) && logRocketStarts == old(logRocketStarts) && scripts == old(scripts)
      ensures !old(initialized) && !IsLocalhost(hostname) && !HasConsent() ==>
        !initialized && paq == old(paq) && logRocketStarts == old(logRocketStarts) && scripts == old(scripts)
      ensures !old(initialized) && !IsLocalhost(hostname) && HasConsent() ==>
        logRocketStarts == old(logRocketStarts) + [LOGROCKET_APP_ID] &&
        paq == Some(old(paq).GetOr([]) + MATOMO_COMMANDS) &&
        scripts == old(scripts) + (if pageHasScript then [MATOMO_BASE + "matomo.js"] else []) &&
        initialized == pageHasScript
    {
      if initialized {
        return;
      }
      if IsLocalhost(hostname) {
        initialized := true;
        return;
      }
      if !HasConsent() {
        return;
      }
      logRocketStarts := logRocketStarts + [LOGROCKET_APP_ID];
      paq := Some(paq.GetOr([]) + MATOMO_COMMANDS);
      if !pageHasScript {
        return;
      }
      scripts := scripts + [MATOMO_BASE + "matomo.js"];
      initialized := true;
    }

    /** `setConsent`: stores the choice, and starts analytics only on an acceptance before initialisation. */
    method SetConsent(accepted: bool)
      modifies this`consent, this`initialized, this`paq, this`logRocketStarts, this`scripts
      ensures consent == Some(if accepted then ACCEPTED else REJECTED)
      ensures !accepted || old(initialized) ==>
        initialized == old(initialized) && paq == old(paq) &&
        logRocketStarts == old(logRocketStarts) && scripts == old(scripts)
      ensures accepted && !old(initialized) && IsLocalhost(hostname) ==>
        initialized && paq == old(paq) && logRocketStarts == old(logRocketStarts) && scripts == old(scripts)
      ensures accepted && !old(initialized) && !IsLocalhost(hostname) ==>
        logRocketStarts == old(logRocketStarts) + [LOGROCKET_APP_ID] &&
        paq == Some(old(paq).GetOr([]) + MATOMO_COMMANDS) &&
        scripts == old(scripts) + (if pageHasScript then [MATOMO_BASE + "matomo.js"] else []) &&
        initialized == pageHasScript
    {
      consent := Some(if accepted then ACCEPTED else REJECTED);
      if accepted && !initialized {
        Init();
      }
    }

    /** `setUser`: identifies the user only once initialised, the local-host path included. */
    method SetUser(username: string, walletAddress: string)
      modifies this`identified
      ensures identified == old(identified) + (if initialized then [Identity(username, username, walletAddress)] else [])
    {
      if !initialized {
        return;
      }
      identified := identified + [Identity(username, username, walletAddress)];
    }
  }

  /** Starting twice on a consenting public page queues the Matomo commands and starts LogRocket once. */
  method InitTwiceStartsOnce(a: AnalyticsService)
    requires !a.initialized && !IsLocalhost(a.hostname) && a.HasConsent() && a.pageHasScript
    modifies a
    ensures a.initialized
    ensures a.paq == Some(old(a.paq).GetOr([]) + MATOMO_COMMANDS)
    ensures a.logRocketStarts == old(a.logRocketStarts) + [LOGROCKET_APP_ID]
  {
    a.Init();
    a.Init();
  }
}
