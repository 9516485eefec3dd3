/**
 * The string helpers of the utility library: `capitalize`, `slugify`, `validateEmail`,
 * `validatePassword` and the buckets of `formatRelativeTime`. Case mapping is ASCII
 * only; whitespace is the full set that `\s` and `trim` recognise.
 */
module TextUtils {

  // ---------------------------------------------------------------------------------
  // Characters

  predicate IsLowerAscii(c: char) { 'a' <= c <= 'z' }

  predicate IsUpperAscii(c: char) { 'A' <= c <= 'Z' }

  predicate IsDigit(c: char) { '0' <= c <= '9' }

  /** A character of `\s` (and of what `trim` removes): the white-space and line-terminator
      characters of ECMAScript. */
  predicate IsJsSpace(c: char) {
    || c == '\t' || c == '\n' || c == '\U{000B}' || c == '\U{000C}' || c == '\r' || c == ' '
    || c == '\U{00A0}' || c == '\U{1680}' || ('\U{2000}' <= c <= '\U{200A}')
    || c == '\U{2028}' || c == '\U{2029}' || c == '\U{202F}' || c == '\U{205F}' || c == '\U{3000}' || c == '\U{FEFF}'
  }

  predicate IsDash(c: char) { c == '-' }

  function ToLowerChar(c: char): (r: char)
    ensures IsUpperAscii(c) ==> IsLowerAscii(r) && r as int == c as int + 32
    ensures !IsUpperAscii(c) ==> r == c
    ensures !IsUpperAscii(r)
  {
    if IsUpperAscii(c) then (c as int + 32) as char else c
  }

  function ToUpperChar(c: char): (r: char)
    ensures IsLowerAscii(c) ==> IsUpperAscii(r) && r as int == c as int - 32
    ensures !IsLowerAscii(c) ==> r == c
    ensures !IsLowerAscii(r)
  {
    if IsLowerAscii(c) then (c as int - 32) as char else c
  }

  /** `toLowerCase`, on the ASCII letters. */
  function LowerAscii(s: string): (r: string)
    ensures |r| == |s|
    ensures forall i :: 0 <= i < |s| ==> r[i] == ToLowerChar(s[i])
  {
    seq(|s|, i requires 0 <= i < |s| => ToLowerChar(s[i]))
  }

  // ---------------------------------------------------------------------------------
  // capitalize

  /** `str.charAt(0).toUpperCase() + str.slice(1)` */
  function Capitalize(s: string): (r: string)
    ensures |r| == |s|
    ensures forall i :: 1 <= i < |s| ==> r[i] == s[i]
    ensures s != [] ==> r[0] == ToUpperChar(s[0])
    ensures s != [] && IsLowerAscii(s[0]) ==> IsUpperAscii(r[0]) && r[0] as int == s[0] as int - 32
    ensures s != [] && !IsLowerAscii(s[0]) ==> r[0] == s[0]
  {
    if s == [] then [] else [ToUpperChar(s[0])] + s[1..]
  }

  /** Capitalising twice is capitalising once; the empty string is left alone. */
  lemma CapitalizeIdempotent(s: string)
    ensures Capitalize(Capitalize(s)) == Capitalize(s)
    ensures Capitalize([]) == []
  {
    if s != [] {
      var r := Capitalize(s);
      assert !IsLowerAscii(r[0]);
      assert Capitalize(r) == [r[0]] + r[1..];
      assert [r[0]] + r[1..] == r;
    }
  }

  // ---------------------------------------------------------------------------------
  // slugify

  /** The characters `[^a-z0-9 -]` does not remove. */
  predicate KeptBySlug(c: char) { IsLowerAscii(c) || IsDigit(c) || c == ' ' || c == '-' }

  /** The characters a slug is made of. */
  predicate IsSlugChar(c: char) { IsLowerAscii(c) || IsDigit(c) || c == '-' }

  /** `.replace(/[^a-z0-9 -]/g, '')` */
  function KeepSlugChars(s: string): (r: string)
    ensures forall c :: c in r <==> c in s && KeptBySlug(c)
  {
    if s == [] then []
    else if KeptBySlug(s[0]) then [s[0]] + KeepSlugChars(s[1..])
    else KeepSlugChars(s[1..])
  }

  /** The suffix left after the leading run of `inRun` characters. */
  function SkipRun(s: string, inRun: char -> bool): (r: string)
    ensures |r| <= |s| && r == s[|s| - |r|..]
    ensures forall i :: 0 <= i < |s| - |r| ==> inRun(s[i])
    ensures r != [] ==> !inRun(r[0])
  {
    if s != [] && inRun(s[0]) then SkipRun(s[1..], inRun) else s
  }

  /** `.replace(/X+/g, into)` where `X` is the class `inRun`: every maximal run of such
      characters becomes one `into`. */
  function CollapseRuns(s: string, inRun: char -> bool, into: char): string
    decreases |s|
  {
    if s == [] then []
    else if inRun(s[0]) then [into] + CollapseRuns(SkipRun(s[1..], inRun), inRun, into)
    else [s[0]] + CollapseRuns(s[1..], inRun, into)
  }

  /** What `trimEnd` leaves. */
  function TrimEnd(s: string): (r: string)
    ensures |r| <= |s| && r == s[..|r|]
    ensures forall i :: |r| <= i < |s| ==> IsJsSpace(s[i])
    ensures r != [] ==> !IsJsSpace(r[|r| - 1])
  {
    if s != [] && IsJsSpace(s[|s| - 1]) then TrimEnd(s[..|s| - 1]) else s
  }

  /** `trim`: leading and trailing white space removed. */
  function Trim(s: string): string {
    TrimEnd(SkipRun(s, IsJsSpace))
  }

  /** `slugify`, stage by stage. A slug holds only `[a-z0-9-]` and never two dashes in a
      row; the final `trim` finds nothing left to remove. */
  function Slugify(s: string): (slug: string)
    ensures AllSlugChars(slug) && NoDoubleDash(slug)
  {
    var kept := KeepSlugChars(LowerAscii(s));
    var spaced := CollapseRuns(kept, IsJsSpace, '-');
    var dashed := CollapseRuns(spaced, IsDash, '-');
    SpacesCollapsedChars(kept);
    DashesCollapsedChars(spaced);
    SlugCharsNoSpace(dashed);
    DashesCollapsedNoDouble(spaced);
    Trim(dashed)
  }

  /** No two adjacent dashes. */
  predicate NoDoubleDash(s: string) {
    forall i :: 0 <= i < |s| - 1 ==> !(s[i] == '-' && s[i + 1] == '-')
  }

  /** A collapsed string holds only `into` and characters of the input outside the class. */
  lemma {:induction false} CollapseRunsChars(s: string, inRun: char -> bool, into: char)
    ensures forall c :: c in CollapseRuns(s, inRun, into) ==> c == into || (c in s && !inRun(c))
    decreases |s|
  {
    if s != [] {
      if inRun(s[0]) {
        var t := SkipRun(s[1..], inRun);
        CollapseRunsChars(t, inRun, into);
        assert forall c :: c in t ==> c in s;
      } else {
        CollapseRunsChars(s[1..], inRun, into);
      }
    }
  }

  /** A string with no character of the class is left as it is. */
  lemma {:induction false} CollapseRunsNoRun(s: string, inRun: char -> bool, into: char)
    requires forall i :: 0 <= i < |s| ==> !inRun(s[i])
    ensures CollapseRuns(s, inRun, into) == s
    decreases |s|
  {
    if s != [] {
      CollapseRunsNoRun(s[1..], inRun, into);
    }
  }

  /** The first character of a collapsed string: `into` if the input starts in the class,
      and the input's own first character otherwise. */
  lemma CollapseRunsFirst(s: string, inRun: char -> bool, into: char)
    requires s != []
    ensures CollapseRuns(s, inRun, into) != []
    ensures CollapseRuns(s, inRun, into)[0] == if inRun(s[0]) then into else s[0]
  {
  }

  /** When `into` is itself in the class, the result never holds `into` twice in a row. */
  lemma {:induction false} CollapseRunsNoDouble(s: string, inRun: char -> bool, into: char)
    requires inRun(into)
    ensures var r := CollapseRuns(s, inRun, into);
      forall i :: 0 <= i < |r| - 1 ==> !(r[i] == into && r[i + 1] == into)
    decreases |s|
  {
    if s != [] {
      var r := CollapseRuns(s, inRun, into);
      var rest := if inRun(s[0]) then SkipRun(s[1..], inRun) else s[1..];
      CollapseRunsNoDouble(rest, inRun, into);
      var tail := CollapseRuns(rest, inRun, into);
      assert r == [r[0]] + tail;
      if rest != [] {
        CollapseRunsFirst(rest, inRun, into);
        if inRun(s[0]) {
          assert tail[0] == rest[0] && rest[0] != into;
        }
      }
      forall i | 0 <= i < |r| - 1 ensures !(r[i] == into && r[i + 1] == into) {
        if i > 0 {
          assert r[i] == tail[i - 1] && r[i + 1] == tail[i];
        }
      }
    }
  }

  /** A string ending inside the class collapses to one that ends with `into`. */
  lemma {:induction false} CollapseRunsLast(s: string, inRun: char -> bool, into: char)
    requires s != [] && inRun(s[|s| - 1])
    ensures var r := CollapseRuns(s, inRun, into); r != [] && r[|r| - 1] == into
    decreases |s|
  {
    var rest := if inRun(s[0]) then SkipRun(s[1..], inRun) else s[1..];
    var r := CollapseRuns(s, inRun, into);
    assert r == [r[0]] + CollapseRuns(rest, inRun, into);
    if rest != [] {
      assert rest[|rest| - 1] == s[|s| - 1];
      CollapseRunsLast(rest, inRun, into);
    }
  }

  /** With no dash pair, collapsing dashes changes nothing. */
  lemma {:induction false} CollapseDashesIdentity(s: string)
    requires NoDoubleDash(s)
    ensures CollapseRuns(s, IsDash, '-') == s
    decreases |s|
  {
    if s != [] {
      assert NoDoubleDash(s[1..]);
      CollapseDashesIdentity(s[1..]);
      if IsDash(s[0]) {
        assert SkipRun(s[1..], IsDash) == s[1..];
      }
    }
  }

  lemma TrimNoSpace(s: string)
    requires forall i :: 0 <= i < |s| ==> !IsJsSpace(s[i])
    ensures Trim(s) == s
  {
    assert SkipRun(s, IsJsSpace) == s;
  }

  lemma {:induction false} KeepSlugCharsConcat(a: string, b: string)
    ensures KeepSlugChars(a + b) == KeepSlugChars(a) + KeepSlugChars(b)
    decreases |a|
  {
    if a != [] {
      assert (a + b)[0] == a[0] && (a + b)[1..] == a[1..] + b;
      KeepSlugCharsConcat(a[1..], b);
    } else {
      assert a + b == b;
    }
  }

  lemma {:induction false} KeepSlugCharsAll(s: string)
    requires forall i :: 0 <= i < |s| ==> KeptBySlug(s[i])
    ensures KeepSlugChars(s) == s
    decreases |s|
  {
    if s != [] {
      KeepSlugCharsAll(s[1..]);
    }
  }

  predicate AllSlugChars(s: string) {
    forall i :: 0 <= i < |s| ==> IsSlugChar(s[i])
  }

  lemma SpacesCollapsedChars(kept: string)
    requires forall c :: c in kept ==> KeptBySlug(c)
    ensures AllSlugChars(CollapseRuns(kept, IsJsSpace, '-'))
  {
    var r := CollapseRuns(kept, IsJsSpace, '-');
    CollapseRunsChars(kept, IsJsSpace, '-');
    forall i | 0 <= i < |r| ensures IsSlugChar(r[i]) {
      assert r[i] in r;
    }
  }

  lemma DashesCollapsedChars(spaced: string)
    requires AllSlugChars(spaced)
    ensures AllSlugChars(CollapseRuns(spaced, IsDash, '-'))
  {
    var r := CollapseRuns(spaced, IsDash, '-');
    CollapseRunsChars(spaced, IsDash, '-');
    forall i | 0 <= i < |r| ensures IsSlugChar(r[i]) {
      assert r[i] in r;
      if r[i] != '-' {
        var k :| 0 <= k < |spaced| && spaced[k] == r[i];
      }
    }
  }

  lemma SlugCharsNoSpace(s: string)
    requires AllSlugChars(s)
    ensures Trim(s) == s
  {
    forall i | 0 <= i < |s| ensures !IsJsSpace(s[i]) {
      assert IsSlugChar(s[i]);
    }
    TrimNoSpace(s);
  }

  lemma DashesCollapsedNoDouble(spaced: string)
    ensures NoDoubleDash(CollapseRuns(spaced, IsDash, '-'))
  {
    CollapseRunsNoDouble(spaced, IsDash, '-');
  }

  /** Applying `slugify` to a slug changes nothing. */
  lemma {:induction false} SlugifyIdempotent(s: string)
    ensures Slugify(Slugify(s)) == Slugify(s)
  {
    var t := Slugify(s);
    LowerAsciiOfSlug(t);
    KeepSlugCharsOfSlug(t);
    SpacesCollapsedOfSlug(t);
    CollapseDashesIdentity(t);
    SlugCharsNoSpace(t);
    assert Slugify(t) == Trim(CollapseRuns(CollapseRuns(KeepSlugChars(LowerAscii(t)), IsJsSpace, '-'), IsDash, '-'));
  }

  lemma KeepSlugCharsOfSlug(t: string)
    requires AllSlugChars(t)
    ensures KeepSlugChars(t) == t
  {
    KeepSlugCharsAll(t);
  }

  lemma SpacesCollapsedOfSlug(t: string)
    requires AllSlugChars(t)
    ensures CollapseRuns(t, IsJsSpace, '-') == t
  {
    forall i | 0 <= i < |t| ensures !IsJsSpace(t[i]) {
      assert IsSlugChar(t[i]);
    }
    CollapseRunsNoRun(t, IsJsSpace, '-');
  }

  lemma LowerAsciiOfSlug(t: string)
    requires AllSlugChars(t)
    ensures LowerAscii(t) == t
  {
    forall i | 0 <= i < |t| ensures LowerAscii(t)[i] == t[i] {
      assert IsSlugChar(t[i]);
    }
  }

  lemma TrimEndKeepsFirst(s: string)
    requires s != [] && !IsJsSpace(s[0])
    ensures TrimEnd(s) != [] && TrimEnd(s)[0] == s[0]
  {
  }

  lemma TrimKeepsEdges(s: string)
    requires s != [] && !IsJsSpace(s[0]) && !IsJsSpace(s[|s| - 1])
    ensures Trim(s) == s
  {
    assert SkipRun(s, IsJsSpace) == s;
  }

  /** A leading space survives the first two stages. */
  lemma KeptLeadingSpace(s: string)
    ensures var kept := KeepSlugChars(LowerAscii(" " + s)); kept != [] && kept[0] == ' '
  {
    var lowered := LowerAscii(" " + s);
    assert lowered[0] == ' ';
    assert KeepSlugChars(lowered) == [' '] + KeepSlugChars(lowered[1..]);
  }

  /** A string that starts with a dash keeps it through the final `trim`. */
  lemma TrimKeepsLeadingDash(dashed: string)
    requires dashed != [] && dashed[0] == '-'
    ensures Trim(dashed) != [] && Trim(dashed)[0] == '-'
  {
    assert SkipRun(dashed, IsJsSpace) == dashed;
    TrimEndKeepsFirst(dashed);
  }

  /** `trim` runs last, after spaces became dashes: a leading space gives a leading dash. */
  lemma SlugifyLeadingSpace(s: string)
    ensures Slugify(" " + s) != [] && Slugify(" " + s)[0] == '-'
  {
    var kept := KeepSlugChars(LowerAscii(" " + s));
    KeptLeadingSpace(s);
    var spaced := CollapseRuns(kept, IsJsSpace, '-');
    CollapseRunsFirst(kept, IsJsSpace, '-');
    var dashed := CollapseRuns(spaced, IsDash, '-');
    CollapseRunsFirst(spaced, IsDash, '-');
    TrimKeepsLeadingDash(dashed);
    assert Slugify(" " + s) == Trim(dashed);
  }

  lemma KeepSlugCharsTrailingSpace(t: string)
    ensures var kept := KeepSlugChars(t + " "); kept != [] && kept[|kept| - 1] == ' '
  {
    KeepSlugCharsConcat(t, " ");
    assert KeepSlugChars(" ") == " " by {
      assert " "[0] == ' ' && " "[1..] == [];
    }
  }

  /** The last two stages leave no white space, so the final `trim` changes nothing. */
  lemma TrimAfterCollapse(kept: string)
    requires forall c :: c in kept ==> KeptBySlug(c)
    ensures var dashed := CollapseRuns(CollapseRuns(kept, IsJsSpace, '-'), IsDash, '-');
      Trim(dashed) == dashed
  {
    var spaced := CollapseRuns(kept, IsJsSpace, '-');
    SpacesCollapsedChars(kept);
    DashesCollapsedChars(spaced);
    SlugCharsNoSpace(CollapseRuns(spaced, IsDash, '-'));
  }

  /** Likewise a trailing space gives a trailing dash. */
  lemma SlugifyTrailingSpace(s: string)
    ensures Slugify(s + " ") != [] && Slugify(s + " ")[|Slugify(s + " ")| - 1] == '-'
  {
    assert LowerAscii(s + " ") == LowerAscii(s) + " ";
    var kept := KeepSlugChars(LowerAscii(s + " "));
    KeepSlugCharsTrailingSpace(LowerAscii(s));
    var spaced := CollapseRuns(kept, IsJsSpace, '-');
    CollapseRunsLast(kept, IsJsSpace, '-');
    var dashed := CollapseRuns(spaced, IsDash, '-');
    CollapseRunsLast(spaced, IsDash, '-');
    TrimAfterCollapse(kept);
    assert Slugify(s + " ") == dashed;
  }

  // ---------------------------------------------------------------------------------
  // validateEmail

  /** No white space and no `@`: the class `[^\s@]`. */
  predicate NoSpaceOrAt(s: string) {
    forall i :: 0 <= i < |s| ==> !IsJsSpace(s[i]) && s[i] != '@'
  }

  /** `/^[^\s@]+@[^\s@]+\.[^\s@]+$/.test(email)`: the address splits at an `@` (index `i`)
      and a later `.` (index `j`) into three non-empty parts without white space or `@`. */
  function ValidateEmail(email: string): bool {
    exists i, j :: 0 < i && i + 1 < j < |email| - 1 && email[i] == '@' && email[j] == '.'
      && NoSpaceOrAt(email[..i]) && NoSpaceOrAt(email[i + 1..j]) && NoSpaceOrAt(email[j + 1..])
  }

  /** The domain has a dot that is neither its first nor its last character. */
  predicate InnerDot(domain: string) {
    exists j :: 0 < j < |domain| - 1 && domain[j] == '.'
  }

  /** The `@` at index `i` is the only one. */
  predicate OnlyAtSign(email: string, i: int) {
    0 <= i < |email| && email[i] == '@' && forall k :: 0 <= k < |email| && email[k] == '@' ==> k == i
  }

  /** The rules the pattern amounts to: no white space, exactly one `@`, not at the start,
      and a dot inside the part after it. */
  predicate EmailRules(email: string) {
    && (forall k :: 0 <= k < |email| ==> !IsJsSpace(email[k]))
    && (exists i :: 0 < i < |email| && OnlyAtSign(email, i) && InnerDot(email[i + 1..]))
  }

  lemma SliceNoSpaceOrAt(s: string, a: int, b: int)
    requires 0 <= a <= b <= |s|
    requires forall k :: a <= k < b ==> !IsJsSpace(s[k]) && s[k] != '@'
    ensures NoSpaceOrAt(s[a..b])
  {
    forall k | 0 <= k < b - a ensures !IsJsSpace(s[a..b][k]) && s[a..b][k] != '@' {
      assert s[a..b][k] == s[a + k];
    }
  }

  lemma SliceOfNoSpaceOrAt(s: string, a: int, b: int, k: int)
    requires 0 <= a <= k < b <= |s|
    requires NoSpaceOrAt(s[a..b])
    ensures !IsJsSpace(s[k]) && s[k] != '@'
  {
    assert s[a..b][k - a] == s[k];
  }

  lemma ValidEmailFollowsRules(email: string)
    requires ValidateEmail(email)
    ensures EmailRules(email)
  {
    var i, j :| 0 < i && i + 1 < j < |email| - 1 && email[i] == '@' && email[j] == '.'
      && NoSpaceOrAt(email[..i]) && NoSpaceOrAt(email[i + 1..j]) && NoSpaceOrAt(email[j + 1..]);
    SplitFollowsRules(email, i, j);
  }

  lemma SplitFollowsRules(email: string, i: int, j: int)
    requires 0 < i && i + 1 < j < |email| - 1 && email[i] == '@' && email[j] == '.'
    requires NoSpaceOrAt(email[..i]) && NoSpaceOrAt(email[i + 1..j]) && NoSpaceOrAt(email[j + 1..])
    ensures EmailRules(email)
  {
    forall k | 0 <= k < |email| ensures !IsJsSpace(email[k]) && (email[k] == '@' ==> k == i) {
      if k < i {
        SliceOfNoSpaceOrAt(email, 0, i, k);
      } else if i < k < j {
        SliceOfNoSpaceOrAt(email, i + 1, j, k);
      } else if j < k {
        SliceOfNoSpaceOrAt(email, j + 1, |email|, k);
      }
    }
    assert OnlyAtSign(email, i);
    var domain := email[i + 1..];
    assert domain[j - i - 1] == '.';
    assert InnerDot(domain);
  }

  lemma RulesMakeValidEmail(email: string)
    requires EmailRules(email)
    ensures ValidateEmail(email)
  {
    var i :| 0 < i < |email| && OnlyAtSign(email, i) && InnerDot(email[i + 1..]);
    var domain := email[i + 1..];
    var d :| 0 < d < |domain| - 1 && domain[d] == '.';
    var j := i + 1 + d;
    assert email[j] == '.';
    SliceNoSpaceOrAt(email, 0, i);
    SliceNoSpaceOrAt(email, i + 1, j);
    SliceNoSpaceOrAt(email, j + 1, |email|);
  }

  /** The pattern accepts exactly the addresses that follow the rules. */
  lemma ValidateEmailMeaning(email: string)
    ensures ValidateEmail(email) <==> EmailRules(email)
  {
    if ValidateEmail(email) {
      ValidEmailFollowsRules(email);
    }
    if EmailRules(email) {
      RulesMakeValidEmail(email);
    }
  }

  // ---------------------------------------------------------------------------------
  // validatePassword

  datatype Strength = Weak | Fair | Good | Strong

  datatype PasswordReport = PasswordReport(isValid: bool, errors: seq<string>, strength: Strength)

  /** The five checks, in the order they run. */
  datatype Rule = MinLength | Lowercase | Uppercase | Digit | Special

  predicate IsSpecial(c: char) {
    c == '!' || c == '@' || c == '#' || c == '$' || c == '%' || c == '^' || c == '&' || c == '*'
  }

  predicate HasLower(s: string) { exists i :: 0 <= i < |s| && IsLowerAscii(s[i]) }
  predicate HasUpper(s: string) { exists i :: 0 <= i < |s| && IsUpperAscii(s[i]) }
  predicate HasDigit(s: string) { exists i :: 0 <= i < |s| && IsDigit(s[i]) }
  predicate HasSpecial(s: string) { exists i :: 0 <= i < |s| && IsSpecial(s[i]) }

  /** Whether the password passes the check: length at least 8, `/[a-z]/`, `/[A-Z]/`,
      `/\d/`, `/[!@#$%^&*]/`. */
  predicate Passes(rule: Rule, password: string) {
    match rule
    case MinLength => |password| >= 8
    case Lowercase => HasLower(password)
    case Uppercase => HasUpper(password)
    case Digit => HasDigit(password)
    case Special => HasSpecial(password)
  }

  predicate AllChecksPass(password: string) {
    Passes(MinLength, password) && Passes(Lowercase, password) && Passes(Uppercase, password)
    && Passes(Digit, password) && Passes(Special, password)
  }

  const MustContain := "Password must contain at least one "

  function Message(rule: Rule): string {
    match rule
    case MinLength => "Password must be at least 8 characters long"
    case Lowercase => MustContain + "lowercase letter"
    case Uppercase => MustContain + "uppercase letter"
    case Digit => MustContain + "number"
    case Special => MustContain + "special character (!@#$%^&*)"
  }

  /** What one check contributes to the list: its message when it fails. */
  function Complaint(rule: Rule, password: string): seq<string> {
    if Passes(rule, password) then [] else [Message(rule)]
  }

  /** What one check contributes to the score: one when it passes. */
  function Point(rule: Rule, password: string): nat {
    if Passes(rule, password) then 1 else 0
  }

  /** The failed checks' messages, in check order. */
  function PasswordErrors(password: string): seq<string> {
    Complaint(MinLength, password) + Complaint(Lowercase, password) + Complaint(Uppercase, password)
    + Complaint(Digit, password) + Complaint(Special, password)
  }

  /** The number of passed checks. */
  function PasswordScore(password: string): nat {
    Point(MinLength, password) + Point(Lowercase, password) + Point(Uppercase, password)
    + Point(Digit, password) + Point(Special, password)
  }

  /** `score <= 2 ? 'weak' : score === 3 ? 'fair' : score === 4 ? 'good' : 'strong'` */
  function StrengthOf(score: int): Strength {
    if score <= 2 then Weak else if score == 3 then Fair else if score == 4 then Good else Strong
  }

  /** One `if` of `validatePassword`: a failed check pushes its message, a passed one adds
      one to the score. */
  method Tally(rule: Rule, password: string, errors: seq<string>, score: nat) returns (errors': seq<string>, score': nat)
    ensures errors' == errors + Complaint(rule, password)
    ensures score' == score + Point(rule, password)
  {
    if !Passes(rule, password) {
      errors' := errors + [Message(rule)];
      score' := score;
    } else {
      errors' := errors;
      score' := score + 1;
    }
  }

  /** `validatePassword`: the checks run in order, each pushing its message or raising the
      score. The password is valid exactly when all five checks pass, and then it is
      strong; messages and score add up to five. */
  method ValidatePassword(password: string) returns (report: PasswordReport)
    ensures report.errors == PasswordErrors(password)
    ensures report.isValid <==> AllChecksPass(password)
    ensures report.isValid ==> report.strength == Strong
    ensures |report.errors| + PasswordScore(password) == 5
    ensures report.strength == StrengthOf(PasswordScore(password))
  {
    var errors, score := Tally(MinLength, password, [], 0);
    errors, score := Tally(Lowercase, password, errors, score);
    errors, score := Tally(Uppercase, password, errors, score);
    errors, score := Tally(Digit, password, errors, score);
    errors, score := Tally(Special, password, errors, score);
    PasswordErrorsCount(password);
    PasswordValidIff(password);
    report := PasswordReport(|errors| == 0, errors, StrengthOf(score));
  }

  /** A single check adds its message or a point, never both. */
  lemma ComplaintOrPoint(rule: Rule, password: string)
    ensures |Complaint(rule, password)| + Point(rule, password) == 1
    ensures Complaint(rule, password) == [] <==> Passes(rule, password)
  {
  }

  /** Each check either adds its message or adds one to the score. */
  lemma PasswordErrorsCount(password: string)
    ensures |PasswordErrors(password)| + PasswordScore(password) == 5
  {
    ComplaintOrPoint(MinLength, password);
    ComplaintOrPoint(Lowercase, password);
    ComplaintOrPoint(Uppercase, password);
    ComplaintOrPoint(Digit, password);
    ComplaintOrPoint(Special, password);
  }

  /** The list is empty exactly when every check passed, which is exactly when the
      strength is strong. */
  lemma PasswordValidIff(password: string)
    ensures PasswordErrors(password) == [] <==> AllChecksPass(password)
    ensures StrengthOf(PasswordScore(password)) == Strong <==> AllChecksPass(password)
  {
    PasswordErrorsCount(password);
    var e := PasswordErrors(password);
    if e == [] {
      ComplaintOrPoint(MinLength, password);
    }
  }

  /** The five messages are distinct. */
  lemma MessagesDistinct(a: Rule, b: Rule)
    requires a != b
    ensures Message(a) != Message(b)
  {
    if a == MinLength || b == MinLength {
      assert Message(a)[14] != Message(b)[14];
    } else {
      assert Message(a)[35] != Message(b)[35];
    }
  }

  /** A check's message is in the list exactly when that check failed. */
  lemma ErrorsNameFailedChecks(password: string, rule: Rule)
    ensures Message(rule) in PasswordErrors(password) <==> !Passes(rule, password)
  {
    if Message(rule) in PasswordErrors(password) {
      var other: Rule :| Message(rule) in Complaint(other, password);
      if other != rule {
        MessagesDistinct(other, rule);
      }
    }
  }

  // ---------------------------------------------------------------------------------
  // formatRelativeTime

  /** `Math.floor((now.getTime() - target.getTime()) / 1000)`, on millisecond counts. */
  function DiffInSeconds(nowMs: int, targetMs: int): (d: int)
    ensures d * 1000 <= nowMs - targetMs < (d + 1) * 1000
  {
    (nowMs - targetMs) / 1000
  }

  /** The phrase `formatRelativeTime` picks; `Absolute` defers to `formatDate`. */
  datatype RelativeTime = JustNow | MinutesAgo(minutes: int) | HoursAgo(hours: int) | DaysAgo(days: int) | Absolute

  function FormatRelativeTime(diffInSeconds: int): (r: RelativeTime)
    ensures diffInSeconds < 60 <==> r == JustNow
    ensures r.MinutesAgo? ==> 1 <= r.minutes <= 59 && r.minutes * 60 <= diffInSeconds < (r.minutes + 1) * 60
    ensures r.HoursAgo? ==> 1 <= r.hours <= 23 && r.hours * 3600 <= diffInSeconds < (r.hours + 1) * 3600
    ensures r.DaysAgo? ==> 1 <= r.days <= 29 && r.days * 86400 <= diffInSeconds < (r.days + 1) * 86400
    ensures r == Absolute <==> diffInSeconds >= 2592000
  {
    if diffInSeconds < 60 then JustNow
    else if diffInSeconds < 3600 then MinutesAgo(diffInSeconds / 60)
    else if diffInSeconds < 86400 then HoursAgo(diffInSeconds / 3600)
    else if diffInSeconds < 2592000 then DaysAgo(diffInSeconds / 86400)
    else Absolute
  }

  /** The four buckets split the seconds into consecutive ranges. */
  lemma RelativeTimeBuckets(d: int)
    ensures 60 <= d < 3600 <==> FormatRelativeTime(d).MinutesAgo?
    ensures 3600 <= d < 86400 <==> FormatRelativeTime(d).HoursAgo?
    ensures 86400 <= d < 2592000 <==> FormatRelativeTime(d).DaysAgo?
  {
  }
}
