/**
 * The sign-up form's schema as a predicate. The email check belongs to the validation
 * library and is a parameter `isEmail`. Field checks that fail only mark the result
 * invalid; an unknown tier also stops the object-level refinement, so the password
 * mismatch is reported only when the tier is one of the three.
 */
module SignUpForm {
  import opened Wrappers
  import opened Accounts

  datatype SignUpForm = SignUpForm(
    email: string,
    password: string,
    confirmPassword: string,
    fullName: string,
    subscriptionTier: string,
    acceptTerms: bool)

  datatype SignUpField = Email | Password | ConfirmPassword | FullName | SubscriptionTier | AcceptTerms

  /** The enum check: the tier must be one of "free", "pro", "enterprise". */
  predicate KnownTier(s: string) {
    ParseTier(s).Some?
  }

  /** The fields with an issue, in schema order, the refinement's issue last. */
  function SignUpIssues(form: SignUpForm, isEmail: string -> bool): seq<SignUpField> {
    (if isEmail(form.email) then [] else [Email])
    + (if |form.password| >= 8 then [] else [Password])
    + (if |form.fullName| >= 2 then [] else [FullName])
    + (if KnownTier(form.subscriptionTier) then [] else [SubscriptionTier])
    + (if form.acceptTerms then [] else [AcceptTerms])
    + (if KnownTier(form.subscriptionTier) && form.password != form.confirmPassword then [ConfirmPassword] else [])
  }

  predicate SignUpAccepted(form: SignUpForm, isEmail: string -> bool) {
    SignUpIssues(form, isEmail) == []
  }

  /** The form is accepted exactly when the email is valid, the password has eight
      characters, the name two, the tier is known, the terms are accepted and the two
      passwords are equal. */
  lemma SignUpAcceptedIff(form: SignUpForm, isEmail: string -> bool)
    ensures SignUpAccepted(form, isEmail) <==>
      && isEmail(form.email)
      && |form.password| >= 8
      && |form.fullName| >= 2
      && form.subscriptionTier in {"free", "pro", "enterprise"}
      && form.acceptTerms
      && form.password == form.confirmPassword
  {
    var t := form.subscriptionTier;
    if t in {"free", "pro", "enterprise"} {
      assert ParseTier(t).Some?;
    }
  }

  /** A mismatch is reported on `confirmPassword`, and only a mismatch is; with an unknown
      tier it is not reported, but the form is rejected for the tier. */
  lemma MismatchOnConfirmPassword(form: SignUpForm, isEmail: string -> bool)
    ensures ConfirmPassword in SignUpIssues(form, isEmail) ==> form.password != form.confirmPassword
    ensures KnownTier(form.subscriptionTier) && form.password != form.confirmPassword ==>
      ConfirmPassword in SignUpIssues(form, isEmail)
    ensures !KnownTier(form.subscriptionTier) ==>
      ConfirmPassword !in SignUpIssues(form, isEmail) && SubscriptionTier in SignUpIssues(form, isEmail)
  {
  }

  /** The form's initial values: empty fields, the pro tier, terms not accepted. */
  const DefaultValues: SignUpForm := SignUpForm("", "", "", "", "pro", false)

  /** The initial values are rejected, whatever the email validator says: the password,
      the name and the terms all have issues. */
  lemma DefaultsRejected(isEmail: string -> bool)
    ensures !SignUpAccepted(DefaultValues, isEmail)
    ensures Password in SignUpIssues(DefaultValues, isEmail)
    ensures FullName in SignUpIssues(DefaultValues, isEmail)
    ensures AcceptTerms in SignUpIssues(DefaultValues, isEmail)
    ensures SubscriptionTier !in SignUpIssues(DefaultValues, isEmail)
  {
    assert KnownTier(DefaultValues.subscriptionTier);
  }
}
