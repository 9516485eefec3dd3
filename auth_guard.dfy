/**
 * The guard components: what `AuthGuard` renders for a given authentication state, when
 * its effect redirects, the tier wrappers, and `FeatureGate`. Rendered elements are named
 * by the datatypes below; a node passed in a prop is `Some(node)` when it is truthy and
 * `None` when it is absent or falsy.
 */
module AuthGuard {
  import opened Wrappers
  import opened Accounts
  import AuthContext

  /** `tierHierarchy`: free 1, pro 2, enterprise 3. */
  function TierLevel(tier: Tier): (n: int)
    ensures 1 <= n <= 3
  {
    match tier
    case Free => 1
    case Pro => 2
    case Enterprise => 3
  }

  /** A user of tier `has` lacks tier `required` when its level is lower. */
  predicate TierDenied(has: Tier, required: Tier) {
    TierLevel(has) < TierLevel(required)
  }

  /** The levels order the tiers strictly, so denial is a strict order: free is never
      required to be exceeded, enterprise is never denied, and a tier never denies
      itself. */
  lemma TierOrder(a: Tier, b: Tier, c: Tier)
    ensures TierLevel(a) == TierLevel(b) <==> a == b
    ensures !TierDenied(a, a)
    ensures TierDenied(a, b) ==> !TierDenied(b, a)
    ensures TierDenied(a, b) && TierDenied(b, c) ==> TierDenied(a, c)
    ensures !TierDenied(a, Free) && !TierDenied(Enterprise, a)
    ensures TierDenied(a, b) <==> (a == Free && b != Free) || (a == Pro && b == Enterprise)
  {
  }

  /** A node handed to a component in a prop. */
  datatype Node = Node(name: string)

  /** The props of `AuthGuard` other than its children; `None` is an omitted prop. */
  datatype GuardProps = GuardProps(
    requireAuth: Option<bool>,
    requireTier: Option<Tier>,
    fallbackPath: Option<string>,
    loadingComponent: Option<Node>,
    unauthorizedComponent: Option<Node>)

  /** `requireAuth = true` */
  function RequireAuthOf(props: GuardProps): bool {
    props.requireAuth.GetOr(true)
  }

  /** `fallbackPath = '/auth/login'` */
  function FallbackPathOf(props: GuardProps): string {
    props.fallbackPath.GetOr("/auth/login")
  }

  /** What the guard renders. */
  datatype GuardView =
    | Custom(node: Node)
    | DefaultLoader
    | ErrorView(message: string)
    | AuthSpinner
    | UpgradeRequired(required: Tier, current: Tier)
    | Children

  /** The render chain: loading first, then a (truthy) error, then a missing user when
      one is required, then the tier of the profile when a tier is required and there is
      a profile; otherwise the children. */
  function GuardViewOf(props: GuardProps, auth: AuthState): GuardView {
    if auth.loading then
      (if props.loadingComponent.Some? then Custom(props.loadingComponent.value) else DefaultLoader)
    else if Truthy(auth.error) then ErrorView(auth.error.value)
    else if RequireAuthOf(props) && auth.user.None? then AuthSpinner
    else if props.requireTier.Some? && auth.profile.Some? && TierDenied(auth.profile.value.tier, props.requireTier.value) then
      (if props.unauthorizedComponent.Some? then Custom(props.unauthorizedComponent.value)
       else UpgradeRequired(props.requireTier.value, auth.profile.value.tier))
    else Children
  }

  /** The precedence of the chain, each step stated with the conditions that let it be
      reached. */
  lemma GuardPrecedence(props: GuardProps, auth: AuthState)
    ensures var v := GuardViewOf(props, auth);
      && (auth.loading ==> v == DefaultLoader || v == Custom(props.loadingComponent.value))
      && (!auth.loading && Truthy(auth.error) ==> v == ErrorView(auth.error.value))
      && (!auth.loading && !Truthy(auth.error) && RequireAuthOf(props) && auth.user.None? ==> v == AuthSpinner)
      && (v == AuthSpinner ==> !auth.loading && RequireAuthOf(props) && auth.user.None?)
      && (v.UpgradeRequired? ==>
            && props.unauthorizedComponent.None? && auth.profile.Some?
            && v.required == props.requireTier.value && v.current == auth.profile.value.tier
            && TierDenied(v.current, v.required))
  {
  }

  /** The guard renders its children exactly when nothing is loading, there is no error,
      a required user is present, and a required tier is met or there is no profile to
      check it against. */
  lemma GuardChildrenIff(props: GuardProps, auth: AuthState)
    ensures GuardViewOf(props, auth) == Children <==>
      && !auth.loading
      && !Truthy(auth.error)
      && (RequireAuthOf(props) ==> auth.user.Some?)
      && (props.requireTier.Some? && auth.profile.Some? ==> !TierDenied(auth.profile.value.tier, props.requireTier.value))
  {
  }

  /** Without a profile the tier is never checked: the outcome is what it would be with no
      tier required. */
  lemma NoProfileSkipsTierGate(props: GuardProps, auth: AuthState)
    requires auth.profile.None?
    ensures GuardViewOf(props, auth) == GuardViewOf(props.(requireTier := None), auth)
  {
  }

  /** The effect: a push to the fallback path when nothing is loading, a user is required
      and there is none; the tier branch pushes nothing. */
  function RedirectOf(props: GuardProps, auth: AuthState): (target: Option<string>)
    ensures target.Some? <==> !auth.loading && RequireAuthOf(props) && auth.user.None?
    ensures target.Some? ==> target.value == FallbackPathOf(props)
  {
    if !auth.loading && RequireAuthOf(props) && auth.user.None? then Some(FallbackPathOf(props)) else None
  }

  /** A redirect happens exactly when the view is the spinner or an error shown to someone
      who must sign in; the spinner always comes with a redirect. */
  lemma RedirectMatchesView(props: GuardProps, auth: AuthState)
    ensures RedirectOf(props, auth).Some? <==>
      (GuardViewOf(props, auth) == AuthSpinner
       || (GuardViewOf(props, auth).ErrorView? && RequireAuthOf(props) && auth.user.None?))
    ensures RedirectOf(props, auth).Some? && props.fallbackPath.None? ==> RedirectOf(props, auth).value == "/auth/login"
  {
  }

  /** `RequireAuth`, `RequireProTier`, `RequireEnterpriseTier`: the props with one of them
      fixed. */
  function RequireAuthProps(props: GuardProps): GuardProps {
    props.(requireAuth := Some(true))
  }

  function RequireProTierProps(props: GuardProps): GuardProps {
    props.(requireTier := Some(Pro))
  }

  function RequireEnterpriseTierProps(props: GuardProps): GuardProps {
    props.(requireTier := Some(Enterprise))
  }

  /** Once signed in and loaded without error, `RequireProTier` admits pro and enterprise
      profiles and turns a free profile away; `RequireEnterpriseTier` admits only
      enterprise. Users must be signed in unless the props say otherwise. */
  lemma TierWrappers(props: GuardProps, auth: AuthState)
    requires !auth.loading && !Truthy(auth.error) && auth.user.Some? && auth.profile.Some?
    ensures GuardViewOf(RequireProTierProps(props), auth) == Children <==> auth.profile.value.tier != Free
    ensures GuardViewOf(RequireEnterpriseTierProps(props), auth) == Children <==> auth.profile.value.tier == Enterprise
    ensures auth.profile.value.tier == Free && props.unauthorizedComponent.None? ==>
      GuardViewOf(RequireProTierProps(props), auth) == UpgradeRequired(Pro, Free)
    ensures RequireAuthOf(RequireAuthProps(props))
    ensures props.requireAuth.None? ==> RequireAuthOf(RequireProTierProps(props)) && RequireAuthOf(RequireEnterpriseTierProps(props))
  {
  }

  // ---------------------------------------------------------------------------------
  // FeatureGate

  datatype GateView = Nothing | GateChildren | Fallback(node: Node) | UpgradeAlert

  /** `FeatureGate`: nothing without a profile; the children with access; otherwise the
      fallback if given, the upgrade alert if `showUpgrade` (default true), else nothing. */
  function FeatureGateOf(table: LimitsTable, profile: Option<Profile>, feature: string, fallback: Option<Node>, showUpgrade: Option<bool>): GateView {
    if profile.None? then Nothing
    else if AuthContext.CheckFeatureAccess(table, profile, feature) then GateChildren
    else if fallback.Some? then Fallback(fallback.value)
    else if showUpgrade.GetOr(true) then UpgradeAlert
    else Nothing
  }

  /** The gate shows its children exactly when the profile's tier lists the feature; it
      shows nothing exactly when there is no profile, or access is denied with no fallback
      and the upgrade alert switched off. */
  lemma FeatureGateMeaning(table: LimitsTable, profile: Option<Profile>, feature: string, fallback: Option<Node>, showUpgrade: Option<bool>)
    ensures var v := FeatureGateOf(table, profile, feature, fallback, showUpgrade);
      && (v == GateChildren <==> profile.Some? && feature in LimitsOf(table, profile.value.tier).features)
      && (v == Nothing <==>
            || profile.None?
            || (feature !in LimitsOf(table, profile.value.tier).features && fallback.None? && showUpgrade == Some(false)))
      && (v == UpgradeAlert <==>
            && profile.Some? && feature !in LimitsOf(table, profile.value.tier).features
            && fallback.None? && showUpgrade != Some(false))
  {
  }
}
