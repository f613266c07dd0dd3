/** The Google Analytics 4 glue: the `dataLayer` queue with its `consent default` command, the
  * tag's load callback, `trackEvent`, the phone and e-mail click events and the scroll-depth
  * milestones. */
module Analytics {
  import opened Wrappers
  import opened Text
  import opened Gtag

  const MEASUREMENT_ID := "G-XXXXXXXXXX"

  /** Consent Mode v2 defaults: everything denied except functionality and security storage. */
  const DEFAULT_CONSENT := ConsentCommand(Default, [
    ("ad_storage", Denied), ("ad_user_data", Denied), ("ad_personalization", Denied),
    ("analytics_storage", Denied), ("functionality_storage", Granted),
    ("personalization_storage", Denied), ("security_storage", Granted)])

  /** The `config` command queued once the tag script has loaded. */
  const CONFIG := ConfigCommand(MEASUREMENT_ID, [("anonymize_ip", Flag(true)), ("cookie_flags", Str("SameSite=None;Secure"))])

  /** The state the default command establishes: only functionality and security storage granted. */
  lemma DefaultConsentState()
    ensures ConsentState([DEFAULT_CONSENT]) == map[
      "ad_storage" := Denied, "ad_user_data" := Denied, "ad_personalization" := Denied,
      "analytics_storage" := Denied, "functionality_storage" := Granted,
      "personalization_storage" := Denied, "security_storage" := Granted]
  {
    var s := DEFAULT_CONSENT.settings;
    assert [DEFAULT_CONSENT][1..] == [];
    assert ConsentState([DEFAULT_CONSENT]) == Replay(Step(map[], DEFAULT_CONSENT), []);
    assert Step(map[], DEFAULT_CONSENT) == Override(map[], s);
    var m := map[];
    var t := s;
    assert Override(m, s) == Override(m[t[0].0 := t[0].1], t[1..]);
    m, t := m[t[0].0 := t[0].1], t[1..];
    assert Override(m, t) == Override(m[t[0].0 := t[0].1], t[1..]);
    m, t := m[t[0].0 := t[0].1], t[1..];
    assert Override(m, t) == Override(m[t[0].0 := t[0].1], t[1..]);
    m, t := m[t[0].0 := t[0].1], t[1..];
    assert Override(m, t) == Override(m[t[0].0 := t[0].1], t[1..]);
    m, t := m[t[0].0 := t[0].1], t[1..];
    assert Override(m, t) == Override(m[t[0].0 := t[0].1], t[1..]);
    m, t := m[t[0].0 := t[0].1], t[1..];
    assert Override(m, t) == Override(m[t[0].0 := t[0].1], t[1..]);
    m, t := m[t[0].0 := t[0].1], t[1..];
    assert Override(m, t) == Override(m[t[0].0 := t[0].1], t[1..]);
    m, t := m[t[0].0 := t[0].1], t[1..];
    assert t == [];
  }

  /** The value a phone click reports: `href.replace('tel:', '')`. */
  function PhoneNumber(href: string): string {
    ReplaceFirst(href, "tel:", "")
  }

  /** The value an e-mail click reports: `href.replace('mailto:', '')`. */
  function EmailAddress(href: string): string {
    ReplaceFirst(href, "mailto:", "")
  }

  /** On the links the handlers are attached to, the reported value is the href without its scheme. */
  lemma ContactValues(href: string)
    ensures StartsWith(href, "tel:") ==> PhoneNumber(href) == href[4..]
    ensures StartsWith(href, "mailto:") ==> EmailAddress(href) == href[7..]
  {
    ReplaceFirstPrefix(href, "tel:");
    ReplaceFirstPrefix(href, "mailto:");
  }

  /** The three scroll-depth milestones, keyed 50, 75 and 100 in `scrollMarkers`. */
  datatype Depth = Half | ThreeQuarters | Full

  /** The scroll percentage at which a milestone fires; the last one fires from 95. */
  function Threshold(d: Depth): int {
    match d
    case Half => 50
    case ThreeQuarters => 75
    case Full => 95
  }

  function Label(d: Depth): string {
    match d
    case Half => "50%"
    case ThreeQuarters => "75%"
    case Full => "100%"
  }

  function ScrollEvent(d: Depth): Command {
    EventCommand("scroll_depth", [("depth", Str(Label(d)))])
  }

  /** `scrollMarkers`: which milestones have fired on this page. */
  datatype Markers = Markers(half: bool, threeQuarters: bool, full: bool)

  const NO_MARKERS := Markers(false, false, false)

  function Marked(m: Markers, d: Depth): bool {
    match d
    case Half => m.half
    case ThreeQuarters => m.threeQuarters
    case Full => m.full
  }

  /** The events one scroll event queues: each milestone reached and not yet marked, in the order 50, 75, 100. */
  function Fired(m: Markers, percent: int): seq<Command> {
    (if percent >= 50 && !m.half then [ScrollEvent(Half)] else [])
    + (if percent >= 75 && !m.threeQuarters then [ScrollEvent(ThreeQuarters)] else [])
    + (if percent >= 95 && !m.full then [ScrollEvent(Full)] else [])
  }

  /** The markers after one scroll event: a milestone reached is marked, and no mark is ever cleared. */
  function Advance(m: Markers, percent: int): (m': Markers)
    ensures forall d :: Marked(m', d) <==> Marked(m, d) || percent >= Threshold(d)
  {
    Markers(m.half || percent >= 50, m.threeQuarters || percent >= 75, m.full || percent >= 95)
  }

  /** The events a page queues over a series of scroll events. */
  function RunScroll(m: Markers, percents: seq<int>): seq<Command>
    decreases |percents|
  {
    if percents == [] then [] else Fired(m, percents[0]) + RunScroll(Advance(m, percents[0]), percents[1..])
  }

  /** One scroll event queues a milestone at most once: exactly when it is reached and not yet marked. */
  lemma FiredOnce(m: Markers, percent: int, d: Depth)
    ensures multiset(Fired(m, percent))[ScrollEvent(d)] ==
      if !Marked(m, d) && percent >= Threshold(d) then 1 else 0
  {
    assert ScrollEvent(Half) != ScrollEvent(ThreeQuarters) by { assert Label(Half)[0] != Label(ThreeQuarters)[0]; }
    assert ScrollEvent(Half) != ScrollEvent(Full) by { assert |Label(Half)| != |Label(Full)|; }
    assert ScrollEvent(ThreeQuarters) != ScrollEvent(Full) by { assert |Label(ThreeQuarters)| != |Label(Full)|; }
  }

  /** Some event of the series reaches the milestone's threshold. */
  ghost predicate Reaches(percents: seq<int>, d: Depth) {
    exists i :: 0 <= i < |percents| && percents[i] >= Threshold(d)
  }

  /** A series reaches a threshold when its first event does or the rest of it does. */
  lemma ReachesCons(percents: seq<int>, d: Depth)
    requires percents != []
    ensures Reaches(percents, d) <==> percents[0] >= Threshold(d) || Reaches(percents[1..], d)
  {
    if Reaches(percents, d) {
      var i :| 0 <= i < |percents| && percents[i] >= Threshold(d);
      if i > 0 {
        assert percents[1..][i - 1] >= Threshold(d);
      }
    }
    if Reaches(percents[1..], d) {
      var i :| 0 <= i < |percents[1..]| && percents[1..][i] >= Threshold(d);
      assert percents[i + 1] >= Threshold(d);
    }
  }

  /** Over any series of scroll events each milestone is queued at most once per page: once if some
    * event reaches it and it was not already marked, never otherwise. */
  lemma {:induction false} MilestoneFiresAtMostOnce(m: Markers, percents: seq<int>, d: Depth)
    ensures multiset(RunScroll(m, percents))[ScrollEvent(d)] ==
      if !Marked(m, d) && Reaches(percents, d) then 1 else 0
    decreases |percents|
  {
    if percents != [] {
      var p, rest := percents[0], percents[1..];
      var m' := Advance(m, p);
      var e := ScrollEvent(d);
      assert RunScroll(m, percents) == Fired(m, p) + RunScroll(m', rest);
      assert multiset(RunScroll(m, percents))[e] == multiset(Fired(m, p))[e] + multiset(RunScroll(m', rest))[e];
      FiredOnce(m, p, d);
      MilestoneFiresAtMostOnce(m', rest, d);
      ReachesCons(percents, d);
    }
  }

  /** A first scroll event past every threshold queues all three milestones, 50 first and 100 last. */
  lemma AllMilestonesInOrder(percent: int)
    requires percent >= 95
    ensures Fired(NO_MARKERS, percent) == [ScrollEvent(Half), ScrollEvent(ThreeQuarters), ScrollEvent(Full)]
  {
  }

  /** The analytics script on one page: the `dataLayer` queue it appends to and its scroll markers. */
  class Tracker {
    var dataLayer: seq<Command>
    var markers: Markers
    /** Whatever `window.dataLayer` held before the script ran. */
    ghost const earlier: seq<Command>

    /** The queue keeps what was there before, followed by this script's `consent default`
      * and then everything else the script queues. */
    ghost predicate Valid()
      reads this
    {
      |earlier| < |dataLayer| && dataLayer[..|earlier|] == earlier && dataLayer[|earlier|] == DEFAULT_CONSENT
    }

    /** The script's first statements: adopt `window.dataLayer` (or a new array) and queue the defaults. */
    constructor (existing: seq<Command>)
      ensures Valid() && earlier == existing
      ensures dataLayer == existing + [DEFAULT_CONSENT] && markers == NO_MARKERS
    {
      earlier := existing;
      dataLayer := existing + [DEFAULT_CONSENT];
      markers := NO_MARKERS;
    }

    /** `gtag(...)`: push the arguments onto the end of the queue; nothing queued is removed or moved. */
    method Gtag(c: Command)
      requires Valid()
      modifies this`dataLayer
      ensures Valid()
      ensures dataLayer == old(dataLayer) + [c]
    {
      dataLayer := dataLayer + [c];
    }

    /** `script.onload`: queue `js` and `config`, which therefore follow the consent defaults. */
    method OnScriptLoad(now: string)
      requires Valid()
      modifies this`dataLayer
      ensures Valid()
      ensures dataLayer == old(dataLayer) + [JsCommand(now), CONFIG]
    {
      Gtag(JsCommand(now));
      Gtag(CONFIG);
    }

    /** `trackEvent(eventName, eventParams = {})`: queue one `event` command. */
    method TrackEvent(name: string, params: Option<seq<(string, Param)>>)
      requires Valid()
      modifies this`dataLayer
      ensures Valid()
      ensures dataLayer == old(dataLayer) + [EventCommand(name, params.GetOr([]))]
    {
      Gtag(EventCommand(name, params.GetOr([])));
    }

    /** Click on a `tel:` link. */
    method OnPhoneClick(href: string)
      requires Valid()
      modifies this`dataLayer
      ensures Valid()
      ensures dataLayer == old(dataLayer) + [EventCommand("phone_call", [("phone_number", Str(PhoneNumber(href)))])]
    {
      TrackEvent("phone_call", Some([("phone_number", Str(PhoneNumber(href)))]));
    }

    /** Click on a `mailto:` link. */
    method OnEmailClick(href: string)
      requires Valid()
      modifies this`dataLayer
      ensures Valid()
      ensures dataLayer == old(dataLayer) + [EventCommand("email_click", [("email", Str(EmailAddress(href)))])]
    {
      TrackEvent("email_click", Some([("email", Str(EmailAddress(href)))]));
    }

    /** The scroll handler, given the rounded scroll percentage: each milestone is checked before it
      * fires and marked after. */
    method OnScroll(percent: int)
      requires Valid()
      modifies this`dataLayer, this`markers
      ensures Valid()
      ensures markers == Advance(old(markers), percent)
      ensures dataLayer == old(dataLayer) + Fired(old(markers), percent)
    {
      if percent >= 50 && !markers.half {
        TrackEvent("scroll_depth", Some([("depth", Str("50%"))]));
        markers := markers.(half := true);
      }
      if percent >= 75 && !markers.threeQuarters {
        TrackEvent("scroll_depth", Some([("depth", Str("75%"))]));
        markers := markers.(threeQuarters := true);
      }
      if percent >= 95 && !markers.full {
        TrackEvent("scroll_depth", Some([("depth", Str("100%"))]));
        markers := markers.(full := true);
      }
    }
  }
}
