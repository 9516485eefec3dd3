/**
 * The account records shared by the authentication components: subscription tiers, the
 * per-tier limits table, users, profiles, sessions and the authentication state that the
 * context provides.
 */
module Accounts {
  import opened Wrappers

  datatype Tier = Free | Pro | Enterprise

  /** The tier as the string the database and the forms carry. */
  function TierName(tier: Tier): string {
    match tier
    case Free => "free"
    case Pro => "pro"
    case Enterprise => "enterprise"
  }

  /** Reads a tier from its string; any other string is not a tier. */
  function ParseTier(s: string): (t: Option<Tier>)
    ensures t.Some? ==> TierName(t.value) == s
    ensures t.None? ==> s != "free" && s != "pro" && s != "enterprise"
  {
    if s == "free" then Some(Free)
    else if s == "pro" then Some(Pro)
    else if s == "enterprise" then Some(Enterprise)
    else None
  }

  /** Reading a tier's name gives the tier back. */
  lemma ParseTierName(tier: Tier)
    ensures ParseTier(TierName(tier)) == Some(tier)
  {
    match tier
    case Free =>
    case Pro => assert TierName(Pro) != "free";
    case Enterprise => assert TierName(Enterprise)[0] != "free"[0] && TierName(Enterprise)[0] != "pro"[0];
  }

  /** `-1` in a limit means unlimited. */
  const Unlimited: int := -1

  datatype SubscriptionLimits = SubscriptionLimits(maxProducts: int, maxSuppliers: int, features: seq<string>)

  /** The `SUBSCRIPTION_LIMITS` table, one entry per tier. Its contents are not part of this
      model, so it is a parameter of every operation that reads it. */
  datatype LimitsTable = LimitsTable(free: SubscriptionLimits, pro: SubscriptionLimits, enterprise: SubscriptionLimits)

  function LimitsOf(table: LimitsTable, tier: Tier): SubscriptionLimits {
    match tier
    case Free => table.free
    case Pro => table.pro
    case Enterprise => table.enterprise
  }

  /** An authenticated user; `fullNameMetadata` is `user_metadata.full_name`, absent as
      `None`. */
  datatype User = User(id: string, email: string, fullNameMetadata: Option<string>)

  /** A row of the profiles table; `fullName` is `null` as `None`. */
  datatype Profile = Profile(id: string, userId: string, fullName: Option<string>, tier: Tier)

  datatype Session = Session(accessToken: string, user: User)

  /** The five fields of the authentication state. */
  datatype AuthState = AuthState(
    user: Option<User>,
    profile: Option<Profile>,
    session: Option<Session>,
    loading: bool,
    error: Option<string>)

  /** The state the provider starts in: nothing known, still loading. */
  const InitialState: AuthState := AuthState(None, None, None, true, None)

  /** The state after signing out: everything cleared, not loading. */
  const SignedOutState: AuthState := AuthState(None, None, None, false, None)

  /** JavaScript truthiness of a string that may be `null`: present and non-empty. */
  predicate Truthy(s: Option<string>) {
    s.Some? && s.value != ""
  }

  /** `a || b` on strings: `a` when it is truthy, otherwise `b`. */
  function OrElse(a: Option<string>, b: string): (r: string)
    ensures Truthy(a) ==> r == a.value
    ensures !Truthy(a) ==> r == b
  {
    if Truthy(a) then a.value else b
  }
}
