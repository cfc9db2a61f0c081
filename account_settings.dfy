/** The derived values of the account settings page (src/components/dashboard/account-settings.tsx):
    the redacted email, the billing status line and the state of the Save button of the
    measurement preference. */
module AccountSettings {
  import opened Common
  import opened Text
  import opened Store
  import opened Measurement
  import Billing
  import Account
  import Schemas

  const NoEmailText: string := "No email on file"
  const HiddenText: string := "Hidden"

  /** The position of the first `c` in `s`, or `|s|` when there is none. */
  function IndexOf(s: string, c: char): (r: nat)
    ensures r <= |s|
    ensures r < |s| ==> s[r] == c
    ensures forall k :: 0 <= k < r ==> s[k] != c
  {
    if s == [] then 0
    else if s[0] == c then 0
    else 1 + IndexOf(s[1..], c)
  }

  /** The first two pieces of `email.split("@")`; the second is absent when there is no "@". */
  datatype Pieces = Pieces(localPart: string, domain: Option<string>)

  function SplitAtSign(email: string): (r: Pieces)
    ensures '@' !in r.localPart
    ensures r.domain.None? <==> '@' !in email
    ensures r.domain.None? ==> r.localPart == email
    ensures r.domain.Some? ==>
      && '@' !in r.domain.value
      && |r.localPart| + 1 + |r.domain.value| <= |email|
      && email[..|r.localPart| + 1 + |r.domain.value|] == r.localPart + "@" + r.domain.value
  {
    var i := IndexOf(email, '@');
    if i == |email| then Pieces(email, None)
    else
      var rest := email[i + 1..];
      var j := IndexOf(rest, '@');
      assert email[..i + 1 + j] == email[..i] + "@" + rest[..j];
      Pieces(email[..i], Some(rest[..j]))
  }

  /** The first occurrence of a character is found right after a prefix that lacks it. */
  lemma IndexAfterPrefix(l: string, c: char, tail: string)
    requires c !in l
    ensures IndexOf(l + [c] + tail, c) == |l|
  {
    var s := l + [c] + tail;
    assert s[|l|] == c;
  }

  /** Splitting an address built from a local part and a domain without "@" gives them back,
      whether the address ends there or goes on after a further "@". */
  lemma SplitJoined(l: string, d: string, tail: string)
    requires '@' !in l && '@' !in d
    ensures SplitAtSign(l + "@" + d) == Pieces(l, Some(d))
    ensures SplitAtSign(l + "@" + d + "@" + tail) == Pieces(l, Some(d))
  {
    assert SplitAtSign(l + "@" + d) == Pieces(l, Some(d)) by {
      SplitEnd(l, d, "");
      assert l + "@" + d + "" == l + "@" + d;
    }
    assert SplitAtSign(l + "@" + d + "@" + tail) == Pieces(l, Some(d)) by {
      SplitEnd(l, d, "@" + tail);
      assert l + "@" + d + ("@" + tail) == l + "@" + d + "@" + tail;
    }
  }

  lemma SplitEnd(l: string, d: string, rest: string)
    requires '@' !in l && '@' !in d
    requires rest == "" || rest[0] == '@'
    ensures SplitAtSign(l + "@" + d + rest) == Pieces(l, Some(d))
  {
    var s := l + "@" + d + rest;
    assert s == l + ['@'] + (d + rest);
    IndexAfterPrefix(l, '@', d + rest);
    assert s[|l| + 1..] == d + rest;
    assert s[..|l|] == l;
    DomainEnd(d, rest);
    assert (d + rest)[..|d|] == d;
  }

  lemma DomainEnd(d: string, rest: string)
    requires '@' !in d
    requires rest == "" || rest[0] == '@'
    ensures IndexOf(d + rest, '@') == |d|
  {
    if rest == "" {
      assert d + rest == d;
    } else {
      assert d + rest == d + ['@'] + rest[1..];
      IndexAfterPrefix(d, '@', rest[1..]);
    }
  }

  /** `"*".repeat(n)`. */
  function Stars(n: nat): (r: string)
    ensures |r| == n && forall i :: 0 <= i < n ==> r[i] == '*'
  {
    seq(n, _ => '*')
  }

  function PrefixLength(local: string): nat {
    if |local| < 2 then |local| else 2
  }

  function SuffixLength(local: string): nat {
    if |local| > 3 then 1 else 0
  }

  /** The masked local part: its first two characters, at least three stars, and its last
      character when it has more than three. */
  function Masked(local: string): (m: string)
    requires local != ""
    ensures |m| >= |local| && |m| >= 4
    ensures m[..PrefixLength(local)] == local[..PrefixLength(local)]
    ensures SuffixLength(local) == 1 ==> m[|m| - 1] == local[|local| - 1]
    ensures PrefixLength(local) + 3 + SuffixLength(local) <= |m|
    ensures forall i :: PrefixLength(local) <= i < |m| - SuffixLength(local) ==> m[i] == '*'
    ensures |local| >= 4 ==> |m| == if |local| > 6 then |local| else 6
    ensures |local| < 4 ==> |m| == PrefixLength(local) + 3
  {
    var prefix := local[..PrefixLength(local)];
    var suffix := if |local| > 3 then [local[|local| - 1]] else [];
    var hidden := if |local| - |prefix| - |suffix| > 3 then |local| - |prefix| - |suffix| else 3;
    prefix + Stars(hidden) + suffix
  }

  /** Local parts of four to six characters that share their first two and their last
      character look the same once masked: neither the middle nor the length shows. */
  lemma MaskHidesMiddle(l1: string, l2: string)
    requires 4 <= |l1| <= 6 && 4 <= |l2| <= 6
    requires l1[..2] == l2[..2] && l1[|l1| - 1] == l2[|l2| - 1]
    ensures Masked(l1) == Masked(l2)
  {
    var m1, m2 := Masked(l1), Masked(l2);
    assert |m1| == |m2| == 6;
    forall i | 0 <= i < 6
      ensures m1[i] == m2[i]
    {
      if i < 2 {
        assert m1[i] == m1[..2][i] && m2[i] == m2[..2][i];
      }
    }
  }

  /** `redactEmail`. */
  function RedactEmail(email: Option<string>): (r: string)
    ensures !Truthy(email) ==> r == NoEmailText
    ensures Truthy(email) ==>
      var p := SplitAtSign(email.value);
      && (p.localPart == "" || !Truthy(p.domain) ==> r == HiddenText)
      && (p.localPart != "" && Truthy(p.domain) ==> r == Masked(p.localPart) + "@" + p.domain.value)
  {
    if !Truthy(email) then NoEmailText
    else
      var p := SplitAtSign(email.value);
      if !Truthy(p.domain) || p.localPart == "" then HiddenText
      else Masked(p.localPart) + "@" + p.domain.value
  }

  /** An address with a non-empty local part and domain keeps its domain in full and shows at
      most the first two and the last character of its local part. */
  lemma RedactAddress(l: string, d: string)
    requires l != "" && d != "" && '@' !in l && '@' !in d
    ensures var r := RedactEmail(Some(l + "@" + d));
      && r == Masked(l) + "@" + d
      && r[|r| - |d| - 1..] == "@" + d
  {
    assert SplitAtSign(l + "@" + d) == Pieces(l, Some(d)) by {
      SplitJoined(l, d, "");
    }
    var r := Masked(l) + "@" + d;
    assert r[|r| - |d| - 1..] == "@" + d;
  }

  /** An address without "@", with nothing before the first "@", or with nothing between the
      first "@" and the next one or the end, is shown as "Hidden". */
  lemma RedactMalformed(s: string, l: string, tail: string)
    requires s != "" && '@' !in l
    ensures '@' !in s ==> RedactEmail(Some(s)) == HiddenText
    ensures RedactEmail(Some("@" + tail)) == HiddenText
    ensures RedactEmail(Some(l + "@")) == HiddenText
    ensures RedactEmail(Some(l + "@@" + tail)) == HiddenText
  {
    HiddenWithoutLocal(tail);
    HiddenWithoutDomain(l);
    HiddenWithEmptyDomain(l, tail);
  }

  lemma HiddenWithoutLocal(tail: string)
    ensures RedactEmail(Some("@" + tail)) == HiddenText
  {
    assert IndexOf("@" + tail, '@') == 0;
  }

  lemma HiddenWithoutDomain(l: string)
    requires '@' !in l
    ensures RedactEmail(Some(l + "@")) == HiddenText
  {
    SplitJoined(l, "", "");
    assert l + "@" + "" == l + "@";
  }

  lemma HiddenWithEmptyDomain(l: string, tail: string)
    requires '@' !in l
    ensures RedactEmail(Some(l + "@@" + tail)) == HiddenText
  {
    SplitJoined(l, "", tail);
    assert l + "@" + "" + "@" + tail == l + "@@" + tail;
  }

  /** The fields of the account the billing line reads. */
  datatype AccountInfo = AccountInfo(tier: Tier, stripeCustomerId: Option<string>)

  /** The subscription details the page holds: fetched only for a PRO account with a Stripe
      customer, cleared otherwise. */
  function VisibleInfo(account: Option<AccountInfo>, fetched: Option<Billing.Payload>): (r: Option<Billing.Payload>)
    ensures r.Some? <==> account.Some? && account.value.tier == Pro && Truthy(account.value.stripeCustomerId) && fetched.Some?
    ensures r.Some? ==> r == fetched
  {
    if account.None? || account.value.tier != Pro || !Truthy(account.value.stripeCustomerId) then None
    else fetched
  }

  /** `formatBillingDate` applied to the period end, `format` standing for the locale
      formatting of a date. */
  function PeriodLabel(info: Option<Billing.Payload>, format: int -> string): (r: Option<string>)
    ensures r.Some? <==> info.Some? && info.value.currentPeriodEnd.Some?
  {
    if info.Some? && info.value.currentPeriodEnd.Some? then Some(format(info.value.currentPeriodEnd.value))
    else None
  }

  /** `text || fallback`. */
  function LabelOr(text: Option<string>, fallback: string): (r: string)
    ensures Truthy(text) ==> r == text.value
    ensures !Truthy(text) ==> r == fallback
  {
    if Truthy(text) then text.value else fallback
  }

  const LoadingText: string := "Loading Stripe details..."
  const ConnectedText: string := "Stripe connected"
  const NoSubscriptionText: string := "No active Stripe subscription"

  predicate ProActive(account: Option<AccountInfo>, info: Option<Billing.Payload>) {
    account.Some? && account.value.tier == Pro && info.Some? && info.value.hasActiveSubscription
  }

  /** `billingStatusLabel`: loading first, then the renewal or cancellation date of an active
      PRO subscription, then whether a Stripe customer exists. */
  function BillingStatusLabel(subscriptionLoading: bool, account: Option<AccountInfo>,
                              info: Option<Billing.Payload>, format: int -> string): (r: string)
    ensures subscriptionLoading ==> r == LoadingText
    ensures !subscriptionLoading && ProActive(account, info) ==>
      if info.value.cancelAtPeriodEnd
      then r == "Cancels on " + LabelOr(PeriodLabel(info, format), "period end")
      else r == "Renews on " + LabelOr(PeriodLabel(info, format), "next billing period")
    ensures !subscriptionLoading && !ProActive(account, info) ==>
      r == if account.Some? && Truthy(account.value.stripeCustomerId) then ConnectedText else NoSubscriptionText
  {
    if subscriptionLoading then LoadingText
    else if ProActive(account, info) then
      if info.value.cancelAtPeriodEnd then "Cancels on " + LabelOr(PeriodLabel(info, format), "period end")
      else "Renews on " + LabelOr(PeriodLabel(info, format), "next billing period")
    else if account.Some? && Truthy(account.value.stripeCustomerId) then ConnectedText
    else NoSubscriptionText
  }

  /** A FREE account never shows a renewal or cancellation date. */
  lemma FreeShowsNoDate(account: AccountInfo, info: Option<Billing.Payload>, format: int -> string)
    requires account.tier == Free
    ensures BillingStatusLabel(false, Some(account), info, format) in {ConnectedText, NoSubscriptionText}
  {
  }

  /** After a cancellation succeeds the page keeps the cancel route's payload as its
      subscription details (`setSubscriptionInfo(cancelData)`), so the billing line announces
      the cancellation date rather than a renewal; a later reload, reading the subscription
      again, shows the same details. */
  lemma CancelShowsCancelsOn(users: map<string, User>, subs: seq<Billing.Subscription>, uid: string,
                             configured: bool, stripeUp: bool, format: int -> string)
    requires Billing.CancelSpec(users, subs, Some(uid), configured, stripeUp).status == 200
    ensures var c := Billing.CancelSpec(users, subs, Some(uid), configured, stripeUp);
      var account := Some(AccountInfo(users[uid].tier, users[uid].stripeCustomerId));
      StartsWith(BillingStatusLabel(false, account, c.payload, format), "Cancels on ")
    ensures var c := Billing.CancelSpec(users, subs, Some(uid), configured, stripeUp);
      var fetched := Billing.SubscriptionSpec(users, c.subscriptions, Some(uid), configured, stripeUp);
      var account := Some(AccountInfo(users[uid].tier, users[uid].stripeCustomerId));
      fetched.Success? && VisibleInfo(account, Some(fetched.value)) == c.payload
  {
    Billing.CancelThenRead(users, subs, Some(uid), configured, stripeUp);
  }

  /** `hasUnitChanges`: an account is loaded and the selected system differs from its own. */
  function HasUnitChanges(stored: Option<MeasurementSystem>, selected: MeasurementSystem): (r: bool)
    ensures r <==> stored.Some? && stored.value != selected
  {
    stored.Some? && selected != stored.value
  }

  /** `isSaveDisabled`. */
  function SaveUnitsDisabled(stored: Option<MeasurementSystem>, selected: MeasurementSystem, saving: bool): (r: bool)
    ensures r <==> saving || stored.None? || stored.value == selected
  {
    !HasUnitChanges(stored, selected) || saving
  }

  /** The selection `loadAccount` sets: the account's system, or the timezone's guess. */
  function LoadedSelection(loaded: Option<MeasurementSystem>, timezone: Option<string>): (r: MeasurementSystem)
    ensures loaded.Some? ==> r == loaded.value
    ensures loaded.None? ==> r == GuessMeasurementSystem(timezone)
  {
    loaded.GetOr(GuessMeasurementSystem(timezone))
  }

  /** Right after the account loads there is nothing to save. */
  lemma NothingToSaveAfterLoad(t: Tables, uid: string, timezone: Option<string>)
    requires Account.GetAccount(t, Some(uid), timezone).status == 200
    ensures var stored := Account.GetAccount(t, Some(uid), timezone).body.value.measurementSystem;
      SaveUnitsDisabled(Some(stored), LoadedSelection(Some(stored), timezone), false)
  {
  }

  /** Once the route stores the selected system, the page has nothing left to save. */
  lemma NothingToSaveAfterSave(t: Tables, uid: string, selected: MeasurementSystem, body: Schemas.Json,
                               validate: Schemas.Json -> Option<Account.AccountPatch>)
    requires validate(body) == Some(Account.AccountPatch(Some(selected), None))
    requires Account.PutAccount(t, Some(uid), body, validate).status == 200
    ensures !HasUnitChanges(Account.PutAccount(t, Some(uid), body, validate).body.value.measurementSystem, selected)
  {
  }
}
