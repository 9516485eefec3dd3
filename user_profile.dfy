/**
 * The profile menu: the avatar initials, the tier badge colour and label, the displayed
 * name, and the profile form's validation. Case mapping is ASCII only.
 */
module UserProfile {
  import opened Wrappers
  import opened Accounts
  import TextUtils
  import SubscriptionCard

  // ---------------------------------------------------------------------------------
  // getInitials

  /** `s.split(' ')`: the pieces between spaces, empty ones included; `""` splits into
      `[""]`. */
  function SplitOnSpace(s: string): (parts: seq<string>)
    ensures |parts| >= 1
    ensures forall p :: p in parts ==> ' ' !in p
  {
    if s == [] then [""]
    else
      var rest := SplitOnSpace(s[1..]);
      if s[0] == ' ' then [""] + rest
      else [[s[0]] + rest[0]] + rest[1..]
  }

  /** `parts.join(' ')` */
  function JoinWithSpace(parts: seq<string>): string
    requires |parts| >= 1
  {
    if |parts| == 1 then parts[0] else parts[0] + " " + JoinWithSpace(parts[1..])
  }

  /** Joining the pieces gives the string back. */
  lemma {:induction false} JoinSplit(s: string)
    ensures JoinWithSpace(SplitOnSpace(s)) == s
  {
    if s != [] {
      JoinSplit(s[1..]);
      var rest := SplitOnSpace(s[1..]);
      if s[0] == ' ' {
        assert ([""] + rest)[1..] == rest;
      } else {
        var parts := [[s[0]] + rest[0]] + rest[1..];
        assert parts[1..] == rest[1..];
        if |rest| > 1 {
          assert JoinWithSpace(rest) == rest[0] + " " + JoinWithSpace(rest[1..]);
        }
        assert s == [s[0]] + s[1..];
      }
    }
  }

  /** `parts.map(n => n[0]).join('')`: each piece's first character, where an empty piece
      gives `undefined`, which joins as nothing. */
  function Heads(parts: seq<string>): string {
    if parts == [] then "" else (if parts[0] == "" then "" else [parts[0][0]]) + Heads(parts[1..])
  }

  /** The reference: the characters that begin a word, i.e. non-spaces at the start or
      after a space. `afterSpace` says whether the previous character was a space (or
      there was none). */
  function WordStarts(s: string, afterSpace: bool): (r: string)
    ensures forall c :: c in r ==> c in s && c != ' '
  {
    if s == [] then ""
    else if s[0] == ' ' then WordStarts(s[1..], true)
    else (if afterSpace then [s[0]] else "") + WordStarts(s[1..], false)
  }

  /** The pieces' first characters are exactly the word starts; the pieces after the first
      give the word starts of a string that does not begin after a space. */
  lemma {:induction false} HeadsOfSplit(s: string)
    ensures Heads(SplitOnSpace(s)) == WordStarts(s, true)
    ensures Heads(SplitOnSpace(s)[1..]) == WordStarts(s, false)
  {
    if s != [] {
      HeadsOfSplit(s[1..]);
      var rest := SplitOnSpace(s[1..]);
      assert Heads(rest) == (if rest[0] == "" then "" else [rest[0][0]]) + Heads(rest[1..]);
      if s[0] == ' ' {
        assert ([""] + rest)[1..] == rest;
      } else {
        var parts := [[s[0]] + rest[0]] + rest[1..];
        assert parts[1..] == rest[1..];
        assert parts[0][0] == s[0];
      }
    }
  }

  /** `toUpperCase` on ASCII letters. */
  function UpperAscii(s: string): (r: string)
    ensures |r| == |s|
    ensures forall i :: 0 <= i < |s| ==> r[i] == TextUtils.ToUpperChar(s[i])
  {
    if s == [] then "" else [TextUtils.ToUpperChar(s[0])] + UpperAscii(s[1..])
  }

  /** `.slice(0, 2)` */
  function TakeTwo(s: string): (r: string)
    ensures |r| <= 2
  {
    if |s| <= 2 then s else s[..2]
  }

  /** `getInitials`: the upper-cased starts of the first two words. */
  function GetInitials(name: string): (initials: string)
    ensures initials == TakeTwo(UpperAscii(WordStarts(name, true)))
    ensures |initials| <= 2
  {
    HeadsOfSplit(name);
    TakeTwo(UpperAscii(Heads(SplitOnSpace(name))))
  }

  /** No initial is a space: runs of spaces contribute nothing. */
  lemma InitialsHaveNoSpace(name: string)
    ensures forall c :: c in GetInitials(name) ==> c != ' '
  {
    var w := WordStarts(name, true);
    var u := UpperAscii(w);
    forall c | c in GetInitials(name)
      ensures c != ' '
    {
      var i :| 0 <= i < |GetInitials(name)| && GetInitials(name)[i] == c;
      assert c == u[i];
      assert w[i] in w;
    }
  }

  /** "a  b c" gives "AB": the empty piece between the two spaces adds nothing and the
      third word is cut off. */
  lemma InitialsExample()
    ensures GetInitials("a  b c") == "AB"
  {
    assert WordStarts("c", true) == "c";
    assert WordStarts(" c", false) == "c";
    assert WordStarts("b c", true) == "bc";
    assert WordStarts(" b c", true) == "bc";
    assert WordStarts("  b c", false) == "bc";
    assert WordStarts("a  b c", true) == "abc";
    assert UpperAscii("abc") == "ABC";
    assert TakeTwo("ABC") == "AB";
  }

  /** A name made only of spaces (or empty) has no initials. */
  lemma InitialsOfSpaces(name: string)
    requires forall i :: 0 <= i < |name| ==> name[i] == ' '
    ensures GetInitials(name) == ""
  {
    NoWordStarts(name, true);
  }

  lemma {:induction false} NoWordStarts(s: string, afterSpace: bool)
    requires forall i :: 0 <= i < |s| ==> s[i] == ' '
    ensures WordStarts(s, afterSpace) == ""
  {
    if s != [] {
      NoWordStarts(s[1..], true);
    }
  }

  // ---------------------------------------------------------------------------------
  // The badge and the name

  const GrayBadge: string := "bg-gray-100 text-gray-800"
  const BlueBadge: string := "bg-blue-100 text-blue-800"
  const PurpleBadge: string := "bg-purple-100 text-purple-800"

  /** `getTierColor`, on any string. */
  function GetTierColor(tier: string): (color: string)
    ensures color == BlueBadge <==> tier == "pro"
    ensures color == PurpleBadge <==> tier == "enterprise"
    ensures color == GrayBadge <==> tier != "pro" && tier != "enterprise"
  {
    assert GrayBadge[3] != BlueBadge[3] && GrayBadge[3] != PurpleBadge[3] && BlueBadge[3] != PurpleBadge[3];
    if tier == "free" then GrayBadge
    else if tier == "pro" then BlueBadge
    else if tier == "enterprise" then PurpleBadge
    else GrayBadge
  }

  /** Free is gray, pro blue, enterprise purple. */
  lemma TierColors()
    ensures GetTierColor(TierName(Free)) == GrayBadge
    ensures GetTierColor(TierName(Pro)) == BlueBadge
    ensures GetTierColor(TierName(Enterprise)) == PurpleBadge
  {
  }

  /** `profile.full_name || 'User'` */
  function DisplayName(profile: Profile): (name: string)
    ensures Truthy(profile.fullName) ==> name == profile.fullName.value
    ensures !Truthy(profile.fullName) ==> name == "User"
  {
    OrElse(profile.fullName, "User")
  }

  /** The avatar's initials are taken from `profile.full_name || user.email`. */
  function AvatarInitials(profile: Profile, user: User): (initials: string)
    ensures Truthy(profile.fullName) ==> initials == GetInitials(profile.fullName.value)
    ensures !Truthy(profile.fullName) ==> initials == GetInitials(user.email)
  {
    GetInitials(OrElse(profile.fullName, user.email))
  }

  /** `tier.charAt(0).toUpperCase() + tier.slice(1) + " Plan"` */
  function TierLabel(tier: Tier): string {
    TextUtils.Capitalize(TierName(tier)) + " Plan"
  }

  /** The badge's label is the plan title the subscription card shows. */
  lemma TierLabelIsPlanTitle(tier: Tier)
    ensures TierLabel(tier) == SubscriptionCard.PlanName(tier) + " Plan"
  {
    var n := TierName(tier);
    assert TextUtils.Capitalize(n) == [TextUtils.ToUpperChar(n[0])] + n[1..];
    match tier
    case Free => assert TextUtils.Capitalize(n) == "Free";
    case Pro => assert TextUtils.Capitalize(n) == "Pro";
    case Enterprise => assert TextUtils.Capitalize(n) == "Enterprise";
  }

  // ---------------------------------------------------------------------------------
  // The profile form

  /** The form's values; the three password fields are optional. */
  datatype ProfileForm = ProfileForm(
    fullName: string,
    email: string,
    currentPassword: Option<string>,
    newPassword: Option<string>,
    confirmPassword: Option<string>)

  /** The refinement: when a new or confirmed password is given, the current one must be
      given and the two must be equal (`===`, so an absent field equals only an absent
      one). */
  predicate PasswordChangeOk(form: ProfileForm) {
    if Truthy(form.newPassword) || Truthy(form.confirmPassword) then
      Truthy(form.currentPassword) && form.newPassword == form.confirmPassword
    else true
  }

  datatype ProfileField = FullName | Email | ConfirmPassword

  /** The fields with an issue, in schema order. No field check aborts parsing, so the
      refinement always runs and reports on `confirmPassword`. `isEmail` is the email
      validator. */
  function ProfileIssues(form: ProfileForm, isEmail: string -> bool): seq<ProfileField> {
    (if |form.fullName| >= 2 then [] else [FullName])
    + (if isEmail(form.email) then [] else [Email])
    + (if PasswordChangeOk(form) then [] else [ConfirmPassword])
  }

  /** The form is accepted exactly when the name has two characters, the email is valid
      and the password change is consistent. Leaving both new fields empty or absent
      always satisfies the refinement; filling either requires the current password and
      equal fields. */
  lemma ProfileValidation(form: ProfileForm, isEmail: string -> bool)
    ensures ProfileIssues(form, isEmail) == [] <==>
      |form.fullName| >= 2 && isEmail(form.email) && PasswordChangeOk(form)
    ensures ConfirmPassword in ProfileIssues(form, isEmail) <==> !PasswordChangeOk(form)
    ensures !Truthy(form.newPassword) && !Truthy(form.confirmPassword) ==> PasswordChangeOk(form)
    ensures Truthy(form.newPassword) || Truthy(form.confirmPassword) ==>
      (PasswordChangeOk(form) <==> Truthy(form.currentPassword) && form.newPassword == form.confirmPassword)
  {
  }

  /** The form's initial values (empty password fields) pass the refinement whatever the
      profile. */
  lemma DefaultsPassRefinement(fullName: string, email: string)
    ensures PasswordChangeOk(ProfileForm(fullName, email, Some(""), Some(""), Some("")))
  {
  }
}
