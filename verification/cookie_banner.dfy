/** The cookie-consent banner: a consent record (necessary, analytics,
    marketing and the time it was accepted), two panel-visibility flags, and
    the copy persisted under `cookie-consent` in local storage. */
module CookieBanner {
  import opened Util

  datatype Consent = Consent(necessary: bool, analytics: bool, marketing: bool, acceptedAt: Option<string>)

  /** The two categories the preferences panel can switch. */
  datatype OptionalCookie = Analytics | Marketing

  /** What `localStorage.getItem('cookie-consent')` holds, when it holds a
      non-empty string: either JSON that parses to a consent record, or text
      that `JSON.parse` rejects. A missing entry and the empty string are
      `None` (both are falsy in the load effect). */
  datatype Stored = Parseable(consent: Consent) | Unparseable

  /** `defaultConsent`: only the necessary cookies. */
  function DefaultConsent(): (c: Consent)
    ensures c.necessary && !c.analytics && !c.marketing && c.acceptedAt.None?
  {
    Consent(true, false, false, None)
  }

  /** `saveConsent` stamps `acceptedAt` on the record before persisting it. */
  function Stamp(c: Consent, now: string): (r: Consent)
    ensures r.necessary == c.necessary && r.analytics == c.analytics && r.marketing == c.marketing
    ensures r.acceptedAt == Some(now)
  {
    c.(acceptedAt := Some(now))
  }

  /** `toggleCookieType`: the record with the named optional flag negated. */
  function Toggled(c: Consent, kind: OptionalCookie): Consent {
    match kind
    case Analytics => c.(analytics := !c.analytics)
    case Marketing => c.(marketing := !c.marketing)
  }

  /** A toggle flips exactly the named flag: `necessary`, the other optional
      flag and the timestamp are untouched. */
  lemma ToggleFlipsOnlyNamed(c: Consent, kind: OptionalCookie)
    ensures Toggled(c, kind).necessary == c.necessary
    ensures Toggled(c, kind).acceptedAt == c.acceptedAt
    ensures Toggled(c, kind).analytics == (if kind == Analytics then !c.analytics else c.analytics)
    ensures Toggled(c, kind).marketing == (if kind == Marketing then !c.marketing else c.marketing)
  {
  }

  /** Toggling the same flag twice restores the record. */
  lemma ToggleInvolution(c: Consent, kind: OptionalCookie)
    ensures Toggled(Toggled(c, kind), kind) == c
  {
  }

  /** Toggles of different flags commute. */
  lemma TogglesCommute(c: Consent, k1: OptionalCookie, k2: OptionalCookie)
    ensures Toggled(Toggled(c, k1), k2) == Toggled(Toggled(c, k2), k1)
  {
  }

  /** The outcome of the mount effect on the stored value: the consent to
      show and whether the banner is shown. A parseable value replaces the
      consent and hides the banner; a missing or unparseable one keeps the
      current consent and shows the banner. */
  function LoadOutcome(stored: Option<Stored>, current: Consent): (r: (Consent, bool))
    ensures r.1 <==> !(stored.Some? && stored.value.Parseable?)
    ensures r.0 == if !r.1 then stored.value.consent else current
  {
    match stored
    case Some(Parseable(c)) => (c, false)
    case Some(Unparseable) => (current, true)
    case None => (current, true)
  }

  class Banner {
    var consent: Consent
    var showBanner: bool
    var showPreferences: bool
    /** The `cookie-consent` entry of local storage. */
    var stored: Option<Stored>

    /** The first render: default consent, both panels hidden. */
    constructor (initialStorage: Option<Stored>)
      ensures consent == DefaultConsent() && !showBanner && !showPreferences
      ensures stored == initialStorage
    {
      consent := DefaultConsent();
      showBanner := false;
      showPreferences := false;
      stored := initialStorage;
    }

    /** The component renders `null` exactly when neither panel is shown. */
    predicate RendersNothing()
      reads this
    {
      !showBanner && !showPreferences
    }

    /** The mount effect: read the stored consent. */
    method Load()
      modifies this
      ensures (consent, showBanner) == LoadOutcome(stored, old(consent))
      ensures showPreferences == old(showPreferences) && stored == old(stored)
    {
      if stored.Some? {
        match stored.value
        case Parseable(c) =>
          consent := c;
          showBanner := false;
        case Unparseable =>
          showBanner := true;
      } else {
        showBanner := true;
      }
    }

    /** `saveConsent`: stamp, persist, and adopt the record. */
    method SaveConsent(newConsent: Consent, now: string)
      modifies this
      ensures consent == Stamp(newConsent, now)
      ensures stored == Some(Parseable(consent))
      ensures showBanner == old(showBanner) && showPreferences == old(showPreferences)
    {
      var stamped := newConsent.(acceptedAt := Some(now));
      stored := Some(Parseable(stamped));
      consent := stamped;
    }

    /** `acceptAll`: persist all three categories and hide both panels. */
    method AcceptAll(now: string)
      modifies this
      ensures consent == Consent(true, true, true, Some(now))
      ensures stored == Some(Parseable(consent))
      ensures RendersNothing()
    {
      SaveConsent(Consent(true, true, true, None), now);
      showBanner := false;
      showPreferences := false;
    }

    /** `rejectOptional`: persist exactly the default consent and hide both panels. */
    method RejectOptional(now: string)
      modifies this
      ensures consent == Stamp(DefaultConsent(), now)
      ensures stored == Some(Parseable(consent))
      ensures RendersNothing()
    {
      SaveConsent(DefaultConsent(), now);
      showBanner := false;
      showPreferences := false;
    }

    /** `savePreferences`: persist the record as currently toggled. */
    method SavePreferences(now: string)
      modifies this
      ensures consent == Stamp(old(consent), now)
      ensures stored == Some(Parseable(consent))
      ensures RendersNothing()
    {
      SaveConsent(consent, now);
      showBanner := false;
      showPreferences := false;
    }

    /** The banner's "Einstellungen" button opens the preferences panel. */
    method OpenPreferences()
      modifies this`showPreferences
      ensures showPreferences && !RendersNothing()
    {
      showPreferences := true;
    }

    /** `toggleCookieType`: only the in-memory record changes; nothing is
        persisted until a save. */
    method ToggleCookieType(kind: OptionalCookie)
      modifies this`consent
      ensures consent == Toggled(old(consent), kind)
    {
      match kind
      case Analytics => consent := consent.(analytics := !consent.analytics);
      case Marketing => consent := consent.(marketing := !consent.marketing);
    }
  }

  /** What was saved is what the next visit loads: after any save, a fresh
      mount reading the persisted value shows the saved record and no banner. */
  method SaveThenReload(b: Banner, now: string) returns (next: Banner)
    modifies b
    ensures fresh(next)
    ensures next.consent == b.consent && !next.showBanner
    ensures next.consent.acceptedAt == Some(now)
  {
    b.SavePreferences(now);
    next := new Banner(b.stored);
    next.Load();
  }
}
