/**
 * The subscription card: usage percentages against the tier's limits, the
 * approaching-limit warning, the upgrade button and dialog, and the feature labels.
 * Counts are natural numbers (list lengths); a limit of `-1` is unlimited.
 */
module SubscriptionCard {
  import opened Wrappers
  import opened Accounts
  import AuthContext

  /** The plan names of `planDetails`, in its key order. */
  function PlanName(tier: Tier): string {
    match tier
    case Free => "Free"
    case Pro => "Pro"
    case Enterprise => "Enterprise"
  }

  const PlanOrder: seq<Tier> := [Free, Pro, Enterprise]

  // ---------------------------------------------------------------------------------
  // Usage

  /** A usage figure as JavaScript computes it: a number, or `NaN` for `0 / 0`. */
  datatype Usage = Percent(value: real) | NaN

  /** `getUsagePercentage`: 0 for an unlimited maximum, otherwise
      `Math.min(current / max * 100, 100)`. A zero maximum divides by zero: any use is
      `Infinity` and shows as 100, no use is `NaN`. */
  function UsagePercentage(current: nat, max: int): (u: Usage)
    ensures max == Unlimited ==> u == Percent(0.0)
    ensures max == 0 ==> (u == NaN <==> current == 0)
    ensures max == 0 && current > 0 ==> u == Percent(100.0)
    ensures max > 0 ==> u.Percent? && 0.0 <= u.value <= 100.0
    ensures max > 0 && current <= max ==> u.value * (max as real) == (current as real) * 100.0
    ensures max > 0 && current >= max ==> u.value == 100.0
  {
    if max == Unlimited then Percent(0.0)
    else if max == 0 then (if current == 0 then NaN else Percent(100.0))
    else
      var x := (current as real) / (max as real) * 100.0;
      Percent(if x < 100.0 then x else 100.0)
  }

  /** "Approaching limit" is shown when the usage is above 80 and the limit is finite. */
  predicate ApproachingLimit(current: nat, max: int) {
    var u := UsagePercentage(current, max);
    u.Percent? && u.value > 80.0 && max != Unlimited
  }

  /** For a positive limit the warning shows exactly when more than four fifths of it is
      used; an unlimited limit never warns, and a zero limit warns as soon as anything is
      used. */
  lemma ApproachingLimitMeaning(current: nat, max: int)
    ensures max > 0 ==> (ApproachingLimit(current, max) <==> (current as real) * 5.0 > (max as real) * 4.0)
    ensures max == Unlimited ==> !ApproachingLimit(current, max)
    ensures max == 0 ==> (ApproachingLimit(current, max) <==> current > 0)
  {
    if max > 0 {
      var m := max as real;
      var c := current as real;
      var x := c / m * 100.0;
      ShareAbove(c, m, 80.0);
      ShareAbove(c, m, 100.0);
      assert UsagePercentage(current, max) == Percent(if x < 100.0 then x else 100.0);
    }
  }

  /** A share `c / m * 100` of a positive `m` is above `k` exactly when `c * 100` is above
      `k * m`. */
  lemma ShareAbove(c: real, m: real, k: real)
    requires m > 0.0
    ensures c / m * 100.0 > k <==> c * 100.0 > k * m
    ensures c / m * 100.0 >= k <==> c * 100.0 >= k * m
  {
    var x := c / m * 100.0;
    assert x * m == c * 100.0;
    ScaleCompare(x, k, m);
  }

  lemma ScaleCompare(a: real, b: real, m: real)
    requires m > 0.0
    ensures a > b <==> a * m > b * m
    ensures a >= b <==> a * m >= b * m
  {
    if a > b {
      assert (a - b) * m > 0.0;
    } else if a < b {
      assert (b - a) * m > 0.0;
    }
  }

  /** How a limit is printed: `∞` (or "Unlimited" in the dialog) for `-1`, the number
      otherwise. */
  datatype LimitText = Infinite | Count(n: int)

  function ShownLimit(max: int): (t: LimitText)
    ensures t == Infinite <==> max == Unlimited
    ensures t.Count? ==> t.n == max
  {
    if max == Unlimited then Infinite else Count(max)
  }

  // ---------------------------------------------------------------------------------
  // Upgrading

  /** The Upgrade button is there for the free tier only. */
  predicate ShowUpgradeButton(current: Tier) {
    current == Free
  }

  /** A plan in the upgrade dialog: its button is disabled and reads "Current Plan" for the
      current tier, and "Upgrade to <name>" otherwise. */
  datatype UpgradeOption = UpgradeOption(tier: Tier, caption: string, disabled: bool)

  function OptionFor(tier: Tier, current: Tier): UpgradeOption {
    if tier == current then UpgradeOption(tier, "Current Plan", true)
    else UpgradeOption(tier, "Upgrade to " + PlanName(tier), false)
  }

  /** `.filter(([tier]) => tier !== 'free')` */
  function WithoutFree(tiers: seq<Tier>): (r: seq<Tier>)
    ensures forall t :: t in r <==> t in tiers && t != Free
    ensures |r| <= |tiers|
  {
    if tiers == [] then [] else (if tiers[0] == Free then [] else [tiers[0]]) + WithoutFree(tiers[1..])
  }

  /** The dialog's plans, in `planDetails` order without the free one. */
  function UpgradeOptions(current: Tier): seq<UpgradeOption> {
    var tiers := WithoutFree(PlanOrder);
    seq(|tiers|, i requires 0 <= i < |tiers| => OptionFor(tiers[i], current))
  }

  /** The dialog offers pro then enterprise; a plan's button is disabled and labelled
      "Current Plan" exactly when it is the current tier. A free user, the only one who
      sees the Upgrade button, finds every offered plan enabled; anyone else finds their
      own plan disabled. */
  lemma UpgradeDialog(current: Tier)
    ensures var r := UpgradeOptions(current);
      && |r| == 2 && r[0].tier == Pro && r[1].tier == Enterprise
      && (forall o :: o in r ==> (o.disabled <==> o.tier == current))
      && (forall o :: o in r ==> o.disabled ==> o.caption == "Current Plan")
      && (forall o :: o in r ==> !o.disabled ==> o.caption == "Upgrade to " + PlanName(o.tier))
      && (ShowUpgradeButton(current) <==> forall o :: o in r ==> !o.disabled)
  {
    assert PlanOrder[1..][1..] == [Enterprise];
    assert WithoutFree(PlanOrder) == [Pro, Enterprise];
    var r := UpgradeOptions(current);
    assert r == [OptionFor(Pro, current), OptionFor(Enterprise, current)];
    if current != Free {
      assert OptionFor(current, current) in r;
    }
  }

  // ---------------------------------------------------------------------------------
  // Features

  /** `s.replace(from, to)` with a one-character string pattern: only the first occurrence
      is replaced. */
  function ReplaceFirst(s: string, from: char, to: char): (r: string)
    ensures |r| == |s|
  {
    if s == [] then []
    else if s[0] == from then [to] + s[1..]
    else [s[0]] + ReplaceFirst(s[1..], from, to)
  }

  /** The index of the first `c` in `s`, or `|s|` when there is none. */
  function FirstIndexOf(s: string, c: char): (i: nat)
    ensures i <= |s|
    ensures i < |s| ==> s[i] == c
    ensures forall j :: 0 <= j < i ==> s[j] != c
  {
    if s == [] then 0 else if s[0] == c then 0 else 1 + FirstIndexOf(s[1..], c)
  }

  /** Replacing the first occurrence changes the character at its index and nothing else. */
  lemma {:induction false} ReplaceFirstAt(s: string, from: char, to: char)
    ensures forall k :: 0 <= k < |s| ==>
      ReplaceFirst(s, from, to)[k] == (if k == FirstIndexOf(s, from) then to else s[k])
  {
    if s != [] && s[0] != from {
      ReplaceFirstAt(s[1..], from, to);
      var r := ReplaceFirst(s, from, to);
      assert forall k :: 1 <= k < |s| ==> r[k] == ReplaceFirst(s[1..], from, to)[k - 1];
    }
  }

  /** A feature's label: its first `_` becomes a space. */
  function FeatureLabel(feature: string): string {
    ReplaceFirst(feature, '_', ' ')
  }

  /** The label has the feature's length, a space where the first underscore was, every
      other character kept (later underscores too), and is the feature itself when there
      is no underscore. */
  lemma FeatureLabelMeaning(feature: string)
    ensures |FeatureLabel(feature)| == |feature|
    ensures forall k :: 0 <= k < |feature| ==>
      FeatureLabel(feature)[k] == (if k == FirstIndexOf(feature, '_') then ' ' else feature[k])
    ensures '_' !in feature ==> FeatureLabel(feature) == feature
  {
    ReplaceFirstAt(feature, '_', ' ');
    if '_' !in feature {
      assert FirstIndexOf(feature, '_') == |feature|;
    }
  }

  /** The card lists every feature of the current limits. */
  function CardFeatures(features: seq<string>): (labels: seq<string>)
    ensures |labels| == |features|
    ensures forall i :: 0 <= i < |features| ==> labels[i] == FeatureLabel(features[i])
  {
    seq(|features|, i requires 0 <= i < |features| => FeatureLabel(features[i]))
  }

  /** A plan in the dialog lists at most three feature labels and then "+n more features". */
  datatype FeatureListing = FeatureListing(labels: seq<string>, more: Option<nat>)

  function DialogFeatures(features: seq<string>): (l: FeatureListing)
    ensures |l.labels| <= 3
    ensures l.more.Some? <==> |features| > 3
    ensures |l.labels| + l.more.GetOr(0) == |features|
    ensures l.labels == CardFeatures(features)[..|l.labels|]
  {
    var shown := if |features| <= 3 then features else features[..3];
    FeatureListing(CardFeatures(shown), if |features| > 3 then Some(|features| - 3) else None)
  }

  // ---------------------------------------------------------------------------------
  // The card

  /** The usage panel: both usage bars with their warnings and printed limits, and the
      feature labels. */
  datatype UsagePanel = UsagePanel(
    productUsage: Usage,
    supplierUsage: Usage,
    productWarning: bool,
    supplierWarning: bool,
    productLimit: LimitText,
    supplierLimit: LimitText,
    features: seq<string>)

  /** What the card shows for a profile: the plan title, the Upgrade button and, unless
      `showUsage` is false, the usage panel. */
  datatype Card = Card(title: string, upgradeButton: bool, usage: Option<UsagePanel>)

  /** Nothing without a profile; otherwise the card is built from the limits the context
      reports. `showUsage` defaults to true. */
  function CardOf(table: LimitsTable, profile: Option<Profile>, showUsage: Option<bool>, products: nat, suppliers: nat): Option<Card> {
    if profile.None? then None
    else
      var limits := AuthContext.GetRemainingLimits(table, profile);
      var tier := profile.value.tier;
      var panel := UsagePanel(
        UsagePercentage(products, limits.maxProducts),
        UsagePercentage(suppliers, limits.maxSuppliers),
        ApproachingLimit(products, limits.maxProducts),
        ApproachingLimit(suppliers, limits.maxSuppliers),
        ShownLimit(limits.maxProducts),
        ShownLimit(limits.maxSuppliers),
        CardFeatures(limits.features));
      Some(Card(PlanName(tier) + " Plan", ShowUpgradeButton(tier), if showUsage.GetOr(true) then Some(panel) else None))
  }

  /** The card measures usage against the profile tier's own limits: the panel is shown
      unless `showUsage` is false, a warning needs a finite limit of that tier, the panel
      lists every feature of that tier, and the Upgrade button shows for free profiles
      only. */
  lemma CardUsesTierLimits(table: LimitsTable, profile: Option<Profile>, showUsage: Option<bool>, products: nat, suppliers: nat)
    ensures CardOf(table, profile, showUsage, products, suppliers).None? <==> profile.None?
    ensures profile.Some? ==>
      var c := CardOf(table, profile, showUsage, products, suppliers).value;
      var limits := LimitsOf(table, profile.value.tier);
      && c.title == PlanName(profile.value.tier) + " Plan"
      && (c.upgradeButton <==> profile.value.tier == Free)
      && (c.usage.Some? <==> showUsage != Some(false))
      && (c.usage.Some? ==>
            && (c.usage.value.productWarning ==> limits.maxProducts != Unlimited)
            && (c.usage.value.supplierWarning ==> limits.maxSuppliers != Unlimited)
            && c.usage.value.features == CardFeatures(limits.features)
            && (limits.maxProducts > 0 ==> c.usage.value.productUsage.Percent? && c.usage.value.productUsage.value <= 100.0))
  {
  }
}
