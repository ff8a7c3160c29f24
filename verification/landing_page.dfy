/**
 * The decision logic of the landing page (script.js): the required-field
 * check, the monthly/annual price switch, and where a pricing button sends
 * the visitor. The page itself is left out; a redirect is the target string.
 */
module LandingPage {
  import opened JsValues

  // ---------------------------------------------------------------------
  // Required-field validation (validateForm)
  // ---------------------------------------------------------------------

  /** The characters `String.prototype.trim` removes: ECMAScript WhiteSpace
      and LineTerminator. */
  predicate IsJsSpace(c: char) {
    || '\U{0009}' <= c <= '\U{000D}'
    || c == ' ' || c == '\U{00A0}' || c == '\U{1680}'
    || '\U{2000}' <= c <= '\U{200A}'
    || c == '\U{2028}' || c == '\U{2029}' || c == '\U{202F}' || c == '\U{205F}'
    || c == '\U{3000}' || c == '\U{FEFF}'
  }

  predicate AllSpace(s: string) {
    forall k | 0 <= k < |s| :: IsJsSpace(s[k])
  }

  /** Drops the leading white space. */
  function TrimStart(s: string): (t: string)
    ensures |t| <= |s|
  {
    if s != [] && IsJsSpace(s[0]) then TrimStart(s[1..]) else s
  }

  /** Drops the trailing white space. */
  function TrimEnd(s: string): (t: string)
    ensures |t| <= |s|
  {
    if s != [] && IsJsSpace(s[|s| - 1]) then TrimEnd(s[..|s| - 1]) else s
  }

  /** `value.trim()`: never longer than the value, and neither end of what
      remains is white space. */
  function Trim(s: string): (t: string)
    ensures |t| <= |s|
    ensures t == [] || (!IsJsSpace(t[0]) && !IsJsSpace(t[|t| - 1]))
  {
    TrimStartSpec(s);
    TrimEndSpec(TrimStart(s));
    TrimEnd(TrimStart(s))
  }

  /** TrimStart keeps a suffix of `s` that is empty or starts with a
      non-space, and drops only spaces. */
  lemma {:induction false} TrimStartSpec(s: string)
    ensures var t := TrimStart(s);
      && t == s[|s| - |t|..]
      && AllSpace(s[..|s| - |t|])
      && (t == [] || !IsJsSpace(t[0]))
  {
    if s != [] && IsJsSpace(s[0]) {
      var t := TrimStart(s[1..]);
      TrimStartSpec(s[1..]);
      assert s[1..][..|s| - 1 - |t|] == s[1..|s| - |t|];
    }
  }

  /** TrimEnd keeps a prefix of `s` that is empty or ends with a non-space,
      and drops only spaces. */
  lemma {:induction false} TrimEndSpec(s: string)
    ensures var t := TrimEnd(s);
      && t == s[..|t|]
      && AllSpace(s[|t|..])
      && (t == [] || !IsJsSpace(t[|t| - 1]))
  {
    if s != [] && IsJsSpace(s[|s| - 1]) {
      var t := TrimEnd(s[..|s| - 1]);
      TrimEndSpec(s[..|s| - 1]);
      assert s[..|s| - 1][|t|..] == s[|t|..|s| - 1];
    }
  }

  /** An all-space value trims to nothing from the front already. */
  lemma {:induction false} TrimStartOfSpaces(s: string)
    requires AllSpace(s)
    ensures TrimStart(s) == []
  {
    if s != [] {
      TrimStartOfSpaces(s[1..]);
    }
  }

  /** `!value.trim()` holds exactly when the value is nothing but white
      space (the empty value included). */
  lemma TrimEmptyIffBlank(s: string)
    ensures Trim(s) == "" <==> AllSpace(s)
  {
    var t := TrimStart(s);
    TrimStartSpec(s);
    TrimEndSpec(t);
    if AllSpace(s) {
      TrimStartOfSpaces(s);
    }
    assert t[0..] == t;
    assert s[..|s|] == s;
  }

  /** A required input or textarea: its value and its border colour. */
  datatype Field = Field(value: string, borderColor: string)

  const ErrorBorder: string := "#ef4444"
  const NormalBorder: string := "#d1d5db"

  predicate IsBlank(value: string) {
    Trim(value) == ""
  }

  /** The field as validation leaves it. */
  function Marked(f: Field): (g: Field)
    ensures g.value == f.value
    ensures g.borderColor == ErrorBorder <==> IsBlank(f.value)
    ensures g.borderColor == ErrorBorder || g.borderColor == NormalBorder
  {
    f.(borderColor := if IsBlank(f.value) then ErrorBorder else NormalBorder)
  }

  /** validateForm over the form's required fields: the answer is true
      exactly when no field is blank, and every field is marked, blank ones
      red and the others grey, not only those before the first blank one. */
  method ValidateForm(inputs: array<Field>) returns (isValid: bool)
    modifies inputs
    ensures isValid <==> forall k | 0 <= k < inputs.Length :: !IsBlank(old(inputs[k]).value)
    ensures forall k | 0 <= k < inputs.Length :: inputs[k] == Marked(old(inputs[k]))
  {
    isValid := true;
    var i := 0;
    while i < inputs.Length
      invariant 0 <= i <= inputs.Length
      invariant forall k | 0 <= k < i :: inputs[k] == Marked(old(inputs[k]))
      invariant forall k | i <= k < inputs.Length :: inputs[k] == old(inputs[k])
      invariant isValid <==> forall k | 0 <= k < i :: !IsBlank(old(inputs[k]).value)
    {
      if IsBlank(inputs[i].value) {
        inputs[i] := inputs[i].(borderColor := ErrorBorder);
        isValid := false;
      } else {
        inputs[i] := inputs[i].(borderColor := NormalBorder);
      }
      i := i + 1;
    }
  }

  /** Marking is decided by the value alone: validating again changes
      nothing and, in terms of white space, a field is red exactly when its
      value is all white space. */
  lemma MarkedStable(f: Field)
    ensures Marked(Marked(f)) == Marked(f)
    ensures Marked(f).value == f.value
    ensures Marked(f).borderColor == ErrorBorder <==> AllSpace(f.value)
  {
    TrimEmptyIffBlank(f.value);
  }

  // ---------------------------------------------------------------------
  // Billing toggle
  // ---------------------------------------------------------------------

  /** A `.amount` element: its `data-monthly` and `data-annual` attributes
      (`null` when missing) and its text. */
  datatype PriceAmount = PriceAmount(monthly: Option<string>, annual: Option<string>, text: string)

  /** Assigning `null` to `textContent` leaves the element empty. */
  function TextOf(v: Option<string>): string {
    match v
    case Some(s) => s
    case None => ""
  }

  /** The element after the toggle changed to `checked`. */
  function Switched(p: PriceAmount, checked: bool): (q: PriceAmount)
    ensures q.monthly == p.monthly && q.annual == p.annual
    ensures checked ==> q.text == TextOf(p.annual)
    ensures !checked ==> q.text == TextOf(p.monthly)
  {
    p.(text := TextOf(if checked then p.annual else p.monthly))
  }

  /** The toggle's change listener: every amount shows its annual price when
      checked and its monthly price otherwise; the attributes are kept. */
  method ToggleBilling(checked: bool, amounts: array<PriceAmount>)
    modifies amounts
    ensures forall k | 0 <= k < amounts.Length :: amounts[k] == Switched(old(amounts[k]), checked)
  {
    var i := 0;
    while i < amounts.Length
      invariant 0 <= i <= amounts.Length
      invariant forall k | 0 <= k < i :: amounts[k] == Switched(old(amounts[k]), checked)
      invariant forall k | i <= k < amounts.Length :: amounts[k] == old(amounts[k])
    {
      var monthlyPrice := amounts[i].monthly;
      var annualPrice := amounts[i].annual;
      if checked {
        amounts[i] := amounts[i].(text := TextOf(annualPrice));
      } else {
        amounts[i] := amounts[i].(text := TextOf(monthlyPrice));
      }
      i := i + 1;
    }
  }

  /** Only the last position of the toggle matters: switching to annual and
      back shows the monthly price again, and the attributes never change. */
  lemma SwitchedLastWins(p: PriceAmount, first: bool, second: bool)
    ensures Switched(Switched(p, first), second) == Switched(p, second)
    ensures Switched(p, first).monthly == p.monthly && Switched(p, first).annual == p.annual
    ensures p.annual.Some? ==> Switched(p, true).text == p.annual.value
    ensures p.monthly.Some? ==> Switched(p, false).text == p.monthly.value
  {
  }

  // ---------------------------------------------------------------------
  // Pricing buttons (handleFreeTrial, handlePaidSubscription)
  // ---------------------------------------------------------------------

  const SignupUrl: string := "https://chimeo.app/signup?plan=free"

  datatype Billing = Monthly | Annual

  /** `billingToggle ? billingToggle.checked : false`, with `None` for a page
      without the toggle element. */
  function BillingType(toggle: Option<bool>): (b: Billing)
    ensures b == Annual <==> toggle == Some(true)
  {
    if toggle == Some(true) then Annual else Monthly
  }

  /** One plan's entry in the payment-link table. */
  datatype PlanLinks = PlanLinks(monthly: string, annual: string)

  function LinkFor(links: PlanLinks, billing: Billing): string {
    match billing
    case Monthly => links.monthly
    case Annual => links.annual
  }

  /** The four configured links, each written as the Stripe host followed
      by its path; the strings are those on the page. */
  const StripeHost: string := "https://buy.stripe.com/"
  const ProMonthlyLink: string := StripeHost + "test_6oU8wO45c73J1bj0W5eAg00"
  const ProAnnualLink: string := StripeHost + "test_0987654321fedcba"
  const PremiumMonthlyLink: string := StripeHost + "test_abcdef1234567890"
  const PremiumAnnualLink: string := StripeHost + "test_fedcba0987654321"

  /** The payment links configured on the page. */
  const StripePaymentLinks: map<string, PlanLinks> := map[
    "pro" := PlanLinks(ProMonthlyLink, ProAnnualLink),
    "premium" := PlanLinks(PremiumMonthlyLink, PremiumAnnualLink)]

  const Marker1: string := "test_1234567890abcdef"
  const Marker2: string := "test_0987654321fedcba"
  const Marker3: string := "test_abcdef1234567890"
  const Marker4: string := "test_fedcba0987654321"

  /** A link is used only when it is non-empty and contains none of the four
      placeholder markers. */
  predicate IsLiveLink(link: string)
    ensures IsLiveLink(link) ==> link != ""
    ensures 0 < |link| < 21 ==> IsLiveLink(link)
  {
    && link != ""
    && !Contains(link, Marker1) && !Contains(link, Marker2)
    && !Contains(link, Marker3) && !Contains(link, Marker4)
  }

  /** The fallback page; a missing `data-plan` or `data-price` renders as
      "null". */
  function CheckoutUrl(plan: Option<string>, price: Option<string>): (url: string)
    ensures "checkout.html?plan=" + Show(plan) <= url
    ensures Contains(url, "&price=" + Show(price))
    ensures var tail := "&price=" + Show(price);
      && |url| == |"checkout.html?plan=" + Show(plan)| + |tail|
      && url[|url| - |tail|..] == tail
  {
    var head := "checkout.html?plan=" + Show(plan);
    ContainsSuffix(head, "&price=" + Show(price));
    assert head + "&price=" + Show(price) == head + ("&price=" + Show(price));
    head + "&price=" + Show(price)
  }

  /** handlePaidSubscription's choice for a link table: the plan's link for
      the selected billing when the plan is in the table and the link is
      live, the checkout page otherwise. A `null` plan is looked up as the
      key "null". */
  function PaidTarget(links: map<string, PlanLinks>, plan: Option<string>, price: Option<string>,
                      toggle: Option<bool>): (target: string)
    ensures Show(plan) in links && IsLiveLink(LinkFor(links[Show(plan)], BillingType(toggle)))
            ==> target == LinkFor(links[Show(plan)], BillingType(toggle))
    ensures Show(plan) !in links ==> target == CheckoutUrl(plan, price)
    ensures Show(plan) in links && !IsLiveLink(LinkFor(links[Show(plan)], BillingType(toggle)))
            ==> target == CheckoutUrl(plan, price)
  {
    var key := Show(plan);
    if key in links then
      var paymentLink := LinkFor(links[key], BillingType(toggle));
      if IsLiveLink(paymentLink) then paymentLink else CheckoutUrl(plan, price)
    else
      CheckoutUrl(plan, price)
  }

  /** The `.stripe-button` click: the free plan goes to sign-up, any other
      plan (a missing one included) to paid-subscription handling. */
  function ButtonTarget(plan: Option<string>, price: Option<string>, toggle: Option<bool>): (target: string)
    ensures plan == Some("free") ==> target == SignupUrl
    ensures plan != Some("free") ==> target == PaidTarget(StripePaymentLinks, plan, price, toggle)
  {
    if plan == Some("free") then SignupUrl else PaidTarget(StripePaymentLinks, plan, price, toggle)
  }

  // The live Pro monthly link contains no '2'; every placeholder does.

  lemma ProMonthlyLacksTwo()
    ensures '2' !in ProMonthlyLink
  {
    HostLacksTwo();
    ProMonthlyPathLacksTwo();
  }

  lemma HostLacksTwo() ensures '2' !in StripeHost {}
  lemma ProMonthlyPathLacksTwo() ensures '2' !in "test_6oU8wO45c73J1bj0W5eAg00" {}

  /** The Pro monthly link is live. */
  lemma ProMonthlyIsLive()
    ensures IsLiveLink(ProMonthlyLink)
  {
    ProMonthlyLacksTwo();
    assert '2' in Marker1 && '2' in Marker2 && '2' in Marker3 && '2' in Marker4;
    NotContainsByChar(ProMonthlyLink, Marker1, '2');
    NotContainsByChar(ProMonthlyLink, Marker2, '2');
    NotContainsByChar(ProMonthlyLink, Marker3, '2');
    NotContainsByChar(ProMonthlyLink, Marker4, '2');
  }

  /** The three other configured links each end in a placeholder marker. */
  lemma PlaceholderLinksAreNotLive()
    ensures !IsLiveLink(ProAnnualLink)
    ensures !IsLiveLink(PremiumMonthlyLink)
    ensures !IsLiveLink(PremiumAnnualLink)
  {
    EndsWithMarker(ProAnnualLink, Marker2);
    EndsWithMarker(PremiumMonthlyLink, Marker3);
    EndsWithMarker(PremiumAnnualLink, Marker4);
  }

  lemma EndsWithMarker(link: string, marker: string)
    requires link == StripeHost + marker
    ensures Contains(link, marker)
  {
    ContainsSuffix(StripeHost, marker);
  }

  /** With the configured table only Pro billed monthly reaches Stripe; the
      free plan signs up and every other choice, a missing or unknown plan
      included, falls back to the checkout page. */
  lemma ConfiguredTargets(plan: Option<string>, price: Option<string>, toggle: Option<bool>)
    ensures ButtonTarget(plan, price, toggle)
         == if plan == Some("free") then SignupUrl
            else if plan == Some("pro") && toggle != Some(true) then ProMonthlyLink
            else CheckoutUrl(plan, price)
  {
    if plan == Some("pro") {
      ProTargets(price, toggle);
    } else if plan == Some("premium") {
      PremiumTargets(price, toggle);
    } else if plan != Some("free") {
      UnlistedTargets(plan, price, toggle);
    }
  }

  lemma ProTargets(price: Option<string>, toggle: Option<bool>)
    ensures PaidTarget(StripePaymentLinks, Some("pro"), price, toggle)
         == if toggle != Some(true) then ProMonthlyLink else CheckoutUrl(Some("pro"), price)
  {
    assert StripePaymentLinks["pro"] == PlanLinks(ProMonthlyLink, ProAnnualLink);
    if toggle != Some(true) {
      ProMonthlyIsLive();
    } else {
      PlaceholderLinksAreNotLive();
    }
  }

  lemma PremiumTargets(price: Option<string>, toggle: Option<bool>)
    ensures PaidTarget(StripePaymentLinks, Some("premium"), price, toggle)
         == CheckoutUrl(Some("premium"), price)
  {
    assert StripePaymentLinks["premium"] == PlanLinks(PremiumMonthlyLink, PremiumAnnualLink);
    PlaceholderLinksAreNotLive();
  }

  lemma UnlistedTargets(plan: Option<string>, price: Option<string>, toggle: Option<bool>)
    requires plan != Some("pro") && plan != Some("premium")
    ensures PaidTarget(StripePaymentLinks, plan, price, toggle) == CheckoutUrl(plan, price)
  {
    assert Show(plan) !in StripePaymentLinks;
  }
}
