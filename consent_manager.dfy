/** `CookieManager`: the consent banner and settings modal, the consent cookie, and the
  * Consent Mode commands that pass the user's choice to the Google tag. */
module ConsentManager {
  import opened Wrappers
  import opened Text
  import opened Gtag
  import opened ConsentCodec
  import opened CookieJar
  import opened Dom
  import Analytics

  /** The keys `applyConsent` sets from the marketing flag. */
  const AD_KEYS := {"ad_storage", "ad_user_data", "ad_personalization"}

  /** The two Consent Mode `update` commands `applyConsent` issues, analytics first. */
  function ConsentUpdates(analytics: bool, marketing: bool): seq<Command> {
    [ ConsentCommand(Update, [("analytics_storage", StateOf(analytics))]),
      ConsentCommand(Update, [("ad_storage", StateOf(marketing)), ("ad_user_data", StateOf(marketing)),
                              ("ad_personalization", StateOf(marketing))]) ]
  }

  /** Replaying two consent commands applies their settings in order. */
  lemma ReplayConsentPair(m: map<string, Consent>, s1: seq<(string, Consent)>, s2: seq<(string, Consent)>)
    ensures Replay(m, [ConsentCommand(Update, s1), ConsentCommand(Update, s2)]) == Override(m, s1 + s2)
  {
    var c2 := ConsentCommand(Update, s2);
    var u := [ConsentCommand(Update, s1), c2];
    var m1 := Override(m, s1);
    assert u[1..] == [c2];
    assert Replay(m, u) == Replay(m1, [c2]);
    assert [c2][1..] == [];
    assert Replay(m1, [c2]) == Replay(Override(m1, s2), []);
    OverrideConcat(m, s1, s2);
  }

  /** The state after the pair, key by key. */
  lemma ReplayUpdates(m: map<string, Consent>, analytics: bool, marketing: bool)
    ensures Replay(m, ConsentUpdates(analytics, marketing)) ==
      m["analytics_storage" := StateOf(analytics)]["ad_storage" := StateOf(marketing)]
       ["ad_user_data" := StateOf(marketing)]["ad_personalization" := StateOf(marketing)]
  {
    var u := ConsentUpdates(analytics, marketing);
    ReplayConsentPair(m, u[0].settings, u[1].settings);
    var s := u[0].settings + u[1].settings;
    var m', t := m, s;
    assert Override(m', t) == Override(m'[t[0].0 := t[0].1], t[1..]);
    m', t := m'[t[0].0 := t[0].1], t[1..];
    assert Override(m', t) == Override(m'[t[0].0 := t[0].1], t[1..]);
    m', t := m'[t[0].0 := t[0].1], t[1..];
    assert Override(m', t) == Override(m'[t[0].0 := t[0].1], t[1..]);
    m', t := m'[t[0].0 := t[0].1], t[1..];
    assert Override(m', t) == Override(m'[t[0].0 := t[0].1], t[1..]);
    m', t := m'[t[0].0 := t[0].1], t[1..];
    assert t == [];
  }

  /** Downstream, the pair grants `analytics_storage` exactly when analytics is allowed and the
    * three ad keys exactly when marketing is, and leaves every other key as it was. */
  lemma ConsentUpdatesEffect(m: map<string, Consent>, analytics: bool, marketing: bool)
    ensures var m' := Replay(m, ConsentUpdates(analytics, marketing));
      && m'.Keys == m.Keys + {"analytics_storage"} + AD_KEYS
      && (m'["analytics_storage"] == Granted <==> analytics)
      && (forall k :: k in AD_KEYS ==> (m'[k] == Granted <==> marketing))
      && (forall k :: k in m && k != "analytics_storage" && k !in AD_KEYS ==> m'[k] == m[k])
  {
    ReplayUpdates(m, analytics, marketing);
  }

  /** Applying the same record again changes nothing downstream: the consent state after the
    * repeated pair is the state after the first. */
  lemma ReapplyIsIdempotent(log: seq<Command>, analytics: bool, marketing: bool)
    ensures var u := ConsentUpdates(analytics, marketing);
      ConsentState(log + u + u) == ConsentState(log + u)
  {
    var u := ConsentUpdates(analytics, marketing);
    var settings := u[0].settings + u[1].settings;
    forall m: map<string, Consent> ensures Replay(m, u) == Override(m, settings) {
      ReplayConsentPair(m, u[0].settings, u[1].settings);
    }
    var before := Replay(map[], log);
    ReplayConcat(map[], log, u);
    ReplayConcat(map[], log + u, u);
    OverrideIdempotent(before, settings);
  }

  /** A stored record applied after the page's `consent default` command sets each category from
    * its flag and keeps the defaults for the rest. */
  lemma StoredConsentOverDefault(analytics: bool, marketing: bool)
    ensures var s := ConsentState([Analytics.DEFAULT_CONSENT] + ConsentUpdates(analytics, marketing));
      && "analytics_storage" in s && s["analytics_storage"] == StateOf(analytics)
      && "ad_storage" in s && s["ad_storage"] == StateOf(marketing)
      && "functionality_storage" in s && s["functionality_storage"] == Granted
      && "personalization_storage" in s && s["personalization_storage"] == Denied
  {
    ReplayConcat(map[], [Analytics.DEFAULT_CONSENT], ConsentUpdates(analytics, marketing));
    Analytics.DefaultConsentState();
    ReplayUpdates(ConsentState([Analytics.DEFAULT_CONSENT]), analytics, marketing);
  }

  /** The loop of `getConsent` over the `document.cookie` text: the `;`-separated segments are
    * scanned in order, the first one named `oak_cookie_consent` decides with an early return, and
    * a value that fails to parse gives None rather than an exception. */
  method ScanCookies(text: string) returns (consent: Option<ConsentRecord>)
    ensures consent == ReadConsent(text)
  {
    var cookies := Split(text, ';');
    var i := 0;
    while i < |cookies|
      invariant 0 <= i <= |cookies|
      invariant ReadSegments(cookies[i..]) == ReadSegments(cookies)
    {
      assert cookies[i..][1..] == cookies[i + 1..];
      var name, value := SegmentName(cookies[i]), SegmentValue(cookies[i]);
      if name == CONSENT_COOKIE {
        consent := DecodeValue(value);
        return;
      }
      i := i + 1;
    }
    consent := None;
  }

  class CookieManager {
    /** The cookies `document.cookie` reads and writes. */
    var jar: Jar
    /** Whether `#cookie-banner`, `#cookie-modal`, `#cookie-analytics` and `#cookie-marketing` exist in the page. */
    const hasBanner: bool
    const hasModal: bool
    const hasAnalyticsToggle: bool
    const hasMarketingToggle: bool
    /** Whether `window.gtag` is defined. */
    const gtagAvailable: bool
    const body: Body
    /** `display` of the banner ('block' or 'none') and of the modal ('flex' or 'none'). */
    var bannerShown: bool
    var modalShown: bool
    /** `checked` of the two toggles. */
    var analyticsChecked: bool
    var marketingChecked: bool
    /** The commands passed to `window.gtag`, in order. */
    var commands: seq<Command>
    /** Whether `window.location.reload()` has been called. */
    var reloadRequested: bool

    /** The jar is one a browser could hold, and only an element that exists is ever displayed. */
    ghost predicate Valid()
      reads this
    {
      WellFormed(jar) && (bannerShown ==> hasBanner) && (modalShown ==> hasModal)
    }

    /** `new CookieManager()`: the constructor touches nothing on the page, so the banner and the
      * modal keep whatever display the page's markup and styles give them. */
    constructor (jar: Jar, hasBanner: bool, hasModal: bool, hasAnalyticsToggle: bool, hasMarketingToggle: bool,
                 bannerShown: bool, modalShown: bool,
                 analyticsChecked: bool, marketingChecked: bool, gtagAvailable: bool, body: Body)
      requires WellFormed(jar) && (bannerShown ==> hasBanner) && (modalShown ==> hasModal)
      ensures Valid()
      ensures this.jar == jar && this.hasBanner == hasBanner && this.hasModal == hasModal
      ensures this.hasAnalyticsToggle == hasAnalyticsToggle && this.hasMarketingToggle == hasMarketingToggle
      ensures this.analyticsChecked == analyticsChecked && this.marketingChecked == marketingChecked
      ensures this.gtagAvailable == gtagAvailable && this.body == body
      ensures this.bannerShown == bannerShown && this.modalShown == modalShown
      ensures commands == [] && !reloadRequested
    {
      this.jar := jar;
      this.hasBanner, this.hasModal := hasBanner, hasModal;
      this.hasAnalyticsToggle, this.hasMarketingToggle := hasAnalyticsToggle, hasMarketingToggle;
      this.analyticsChecked, this.marketingChecked := analyticsChecked, marketingChecked;
      this.gtagAvailable, this.body := gtagAvailable, body;
      this.bannerShown, this.modalShown := bannerShown, modalShown;
      commands, reloadRequested := [], false;
    }

    /** `getConsent()`: read `document.cookie` and scan it. */
    method GetConsent() returns (consent: Option<ConsentRecord>)
      ensures consent == ReadConsent(Render(jar))
    {
      consent := ScanCookies(Render(jar));
    }

    /** `saveConsent(preferences)`: stamp the preferences and store the whole record as the
      * consent cookie (`CookieJar.SaveThenRead`: it reads back as written). */
    method SaveConsent(necessary: bool, analytics: bool, marketing: bool, now: IsoTimestamp)
      returns (consent: ConsentRecord)
      requires Valid()
      modifies this`jar
      ensures Valid()
      ensures consent == ConsentRecord(necessary, analytics, marketing, now)
      ensures jar == SetCookie(old(jar), CONSENT_COOKIE, Encode(consent))
    {
      consent := ConsentRecord(necessary, analytics, marketing, now);
      SaveThenRead(jar, consent);
      jar := SetCookie(jar, CONSENT_COOKIE, Encode(consent));
    }

    /** `applyConsent(consent)`: with `window.gtag` defined, one update for analytics and then one
      * for the three ad keys, each granted exactly when its flag is set; without it, nothing. */
    method ApplyConsent(consent: ConsentRecord)
      modifies this`commands
      ensures commands == old(commands) + if gtagAvailable then ConsentUpdates(consent.analytics, consent.marketing) else []
    {
      if consent.analytics && gtagAvailable {
        commands := commands + [ConsentCommand(Update, [("analytics_storage", Granted)])];
      } else if gtagAvailable {
        commands := commands + [ConsentCommand(Update, [("analytics_storage", Denied)])];
      }
      if consent.marketing && gtagAvailable {
        commands := commands + [ConsentCommand(Update, [("ad_storage", Granted), ("ad_user_data", Granted),
                                                        ("ad_personalization", Granted)])];
      } else if gtagAvailable {
        commands := commands + [ConsentCommand(Update, [("ad_storage", Denied), ("ad_user_data", Denied),
                                                        ("ad_personalization", Denied)])];
      }
    }

    method ShowBanner()
      requires Valid()
      modifies this`bannerShown
      ensures Valid()
      ensures bannerShown == (old(bannerShown) || hasBanner)
    {
      if hasBanner {
        bannerShown := true;
      }
    }

    method HideBanner()
      requires Valid()
      modifies this`bannerShown
      ensures Valid() && !bannerShown
    {
      if hasBanner {
        bannerShown := false;
      }
    }

    /** `showModal()`: display the modal, lock page scrolling, and copy a stored decision into the
      * toggles. A missing toggle makes the assignment throw, which ends the method there. */
    method ShowModal()
      requires Valid()
      modifies this`modalShown, this`analyticsChecked, this`marketingChecked, body`overflow
      ensures Valid()
      ensures modalShown == (old(modalShown) || hasModal)
      ensures body.overflow == if hasModal then SCROLL_LOCKED else old(body.overflow)
      ensures var stored := ReadConsent(Render(jar));
        && analyticsChecked == (if hasModal && stored.Some? && hasAnalyticsToggle then stored.value.analytics
                                else old(analyticsChecked))
        && marketingChecked == (if hasModal && stored.Some? && hasAnalyticsToggle && hasMarketingToggle
                                then stored.value.marketing else old(marketingChecked))
    {
      if hasModal {
        modalShown := true;
        body.overflow := SCROLL_LOCKED;
        var consent := GetConsent();
        if consent.Some? {
          if !hasAnalyticsToggle {
            return;
          }
          analyticsChecked := consent.value.analytics;
          if !hasMarketingToggle {
            return;
          }
          marketingChecked := consent.value.marketing;
        }
      }
    }

    /** `hideModal()`: hide the modal and release the scroll lock. */
    method HideModal()
      requires Valid()
      modifies this`modalShown, body`overflow
      ensures Valid() && !modalShown
      ensures body.overflow == if hasModal then SCROLL_FREE else old(body.overflow)
    {
      if hasModal {
        modalShown := false;
        body.overflow := SCROLL_FREE;
      }
    }

    /** `init()`: with no stored decision show the banner; otherwise leave it hidden and replay the
      * stored decision to the tag. */
    method Init()
      requires Valid()
      modifies this`bannerShown, this`commands
      ensures Valid()
      ensures var stored := ReadConsent(Render(jar));
        && (stored.None? ==> bannerShown == (old(bannerShown) || hasBanner) && commands == old(commands))
        && (stored.Some? ==>
              && bannerShown == old(bannerShown)
              && commands == old(commands) + if gtagAvailable
                 then ConsentUpdates(stored.value.analytics, stored.value.marketing) else [])
    {
      var consent := GetConsent();
      if consent.None? {
        ShowBanner();
      } else {
        ApplyConsent(consent.value);
      }
    }

    /** `acceptAll()`: store and apply (true, true), hide banner and modal, reload. */
    method AcceptAll(now: IsoTimestamp)
      requires Valid()
      modifies this`jar, this`commands, this`bannerShown, this`modalShown, this`reloadRequested, body`overflow
      ensures Valid()
      ensures jar == SetCookie(old(jar), CONSENT_COOKIE, Encode(ConsentRecord(true, true, true, now)))
      ensures commands == old(commands) + if gtagAvailable then ConsentUpdates(true, true) else []
      ensures !bannerShown && !modalShown && reloadRequested
      ensures body.overflow == if hasModal then SCROLL_FREE else old(body.overflow)
    {
      var consent := SaveConsent(true, true, true, now);
      ApplyConsent(consent);
      HideBanner();
      HideModal();
      reloadRequested := true;
    }

    /** `rejectAll()`: store and apply (false, false), hide banner and modal; no reload. */
    method RejectAll(now: IsoTimestamp)
      requires Valid()
      modifies this`jar, this`commands, this`bannerShown, this`modalShown, body`overflow
      ensures Valid()
      ensures jar == SetCookie(old(jar), CONSENT_COOKIE, Encode(ConsentRecord(true, false, false, now)))
      ensures commands == old(commands) + if gtagAvailable then ConsentUpdates(false, false) else []
      ensures !bannerShown && !modalShown
      ensures body.overflow == if hasModal then SCROLL_FREE else old(body.overflow)
    {
      var consent := SaveConsent(true, false, false, now);
      ApplyConsent(consent);
      HideBanner();
      HideModal();
    }

    /** `saveCustomPreferences()`: store and apply the toggles (a missing toggle reads as false),
      * hide modal and banner, reload. */
    method SaveCustomPreferences(now: IsoTimestamp)
      requires Valid()
      modifies this`jar, this`commands, this`bannerShown, this`modalShown, this`reloadRequested, body`overflow
      ensures Valid()
      ensures var analytics, marketing := hasAnalyticsToggle && analyticsChecked, hasMarketingToggle && marketingChecked;
        && jar == SetCookie(old(jar), CONSENT_COOKIE, Encode(ConsentRecord(true, analytics, marketing, now)))
        && commands == old(commands) + if gtagAvailable then ConsentUpdates(analytics, marketing) else []
      ensures !bannerShown && !modalShown && reloadRequested
      ensures body.overflow == if hasModal then SCROLL_FREE else old(body.overflow)
    {
      var analytics := hasAnalyticsToggle && analyticsChecked;
      var marketing := hasMarketingToggle && marketingChecked;
      var consent := SaveConsent(true, analytics, marketing, now);
      ApplyConsent(consent);
      HideModal();
      HideBanner();
      reloadRequested := true;
    }

    /** Click on `#cookie-settings`: hide the banner, then open the modal. */
    method OnSettingsClick()
      requires Valid()
      modifies this`bannerShown, this`modalShown, this`analyticsChecked, this`marketingChecked, body`overflow
      ensures Valid() && !bannerShown
      ensures modalShown == (old(modalShown) || hasModal)
      ensures body.overflow == if hasModal then SCROLL_LOCKED else old(body.overflow)
      ensures var stored := ReadConsent(Render(jar));
        && analyticsChecked == (if hasModal && stored.Some? && hasAnalyticsToggle then stored.value.analytics
                                else old(analyticsChecked))
        && marketingChecked == (if hasModal && stored.Some? && hasAnalyticsToggle && hasMarketingToggle
                                then stored.value.marketing else old(marketingChecked))
    {
      HideBanner();
      ShowModal();
    }

    /** Click on `#cookie-modal-close`: hide the modal and show the banner again. */
    method OnModalCloseClick()
      requires Valid()
      modifies this`bannerShown, this`modalShown, body`overflow
      ensures Valid() && !modalShown && bannerShown == (old(bannerShown) || hasBanner)
      ensures body.overflow == if hasModal then SCROLL_FREE else old(body.overflow)
    {
      HideModal();
      ShowBanner();
    }

    /** A click inside `#cookie-modal`: only a click on the backdrop itself closes the modal. */
    method OnModalClick(targetIsModal: bool)
      requires Valid()
      modifies this`bannerShown, this`modalShown, body`overflow
      ensures Valid()
      ensures targetIsModal ==>
        && !modalShown && bannerShown == (old(bannerShown) || hasBanner)
        && body.overflow == (if hasModal then SCROLL_FREE else old(body.overflow))
      ensures !targetIsModal ==>
        && modalShown == old(modalShown) && bannerShown == old(bannerShown)
        && body.overflow == old(body.overflow)
    {
      if targetIsModal {
        HideModal();
        ShowBanner();
      }
    }

    /** `revokeConsent()`: expire the consent cookie, so that nothing is stored any more, and reload. */
    method RevokeConsent()
      requires Valid()
      modifies this`jar, this`reloadRequested
      ensures Valid() && reloadRequested
      ensures jar == RemoveCookie(old(jar), CONSENT_COOKIE)
      ensures ReadConsent(Render(jar)) == None
    {
      RevokeThenRead(jar);
      jar := RemoveCookie(jar, CONSENT_COOKIE);
      reloadRequested := true;
    }
  }
}
