/** The currency symbol and call-to-action choices of the landing page's pricing section
    (src/components/landing/pricing.tsx). */
module Pricing {
  import opened Common
  import opened Text
  import opened Measurement

  /** The timezones priced in pounds sterling. */
  const PoundZones: set<string> := {"Europe/London", "Europe/Jersey", "Europe/Guernsey", "Europe/Isle_of_Man"}

  /** `getCurrencySymbol`: pounds for the British zones, euros for the rest of Europe, dollars elsewhere. */
  function CurrencySymbol(timezone: string): (r: string)
    ensures r == "£" <==> timezone in PoundZones
    ensures r == "€" <==> timezone !in PoundZones && StartsWith(timezone, "Europe/")
    ensures r == "$" <==> !StartsWith(timezone, "Europe/")
  {
    if timezone in PoundZones then "£"
    else if StartsWith(timezone, "Europe/") then "€"
    else "$"
  }

  /** The symbol shown: dollars while no browser timezone is known (server rendering). */
  function DisplayedSymbol(timezone: Option<string>): (r: string)
    ensures timezone.None? ==> r == "$"
    ensures timezone.Some? ==> r == CurrencySymbol(timezone.value)
  {
    if timezone.None? then "$" else CurrencySymbol(timezone.value)
  }

  /** Every pound zone is also a European zone, so the pound test must come first. */
  lemma PoundZonesAreEuropean(timezone: string)
    requires timezone in PoundZones
    ensures StartsWith(timezone, "Europe/")
  {
    assert timezone == "Europe/London" || timezone == "Europe/Jersey" ||
      timezone == "Europe/Guernsey" || timezone == "Europe/Isle_of_Man";
  }

  /** Wherever the unit guess is imperial, prices are shown in dollars. */
  lemma ImperialZonesPayDollars(timezone: string)
    requires GuessMeasurementSystem(Some(timezone)) == Imperial
    ensures CurrencySymbol(timezone) == "$"
  {
    assert timezone[0] == timezone[..8][0] == 'A';
    assert timezone[..7][0] != "Europe/"[0];
  }

  datatype CallsToAction = CallsToAction(freeLabel: string, proLabel: string, proHref: string)

  /** The buttons of the two plans: a signed-in visitor is sent to the dashboard and the
      account page; anyone else gets the sign-up labels and the page's own link. */
  function CallsToActionFor(isLoggedIn: bool, ctaHref: string): (r: CallsToAction)
    ensures isLoggedIn ==> r == CallsToAction("Go to Dashboard", "Manage in Account", "/dashboard/account")
    ensures !isLoggedIn ==> r == CallsToAction("Get Started Free", "Start With Free, Upgrade Later", ctaHref)
  {
    CallsToAction(
      if isLoggedIn then "Go to Dashboard" else "Get Started Free",
      if isLoggedIn then "Manage in Account" else "Start With Free, Upgrade Later",
      if isLoggedIn then "/dashboard/account" else ctaHref)
  }
}
