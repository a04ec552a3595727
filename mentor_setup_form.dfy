/** The mentor listing form: required fields, the email and phone patterns,
    the update that lists the profile, and the update that un-lists it. */
module MentorSetupForm {
  import opened JsText
  import opened Backend

  // ---------------------------------------------------------------------------
  // The email pattern ^[^\s@]+@[^\s@]+\.[^\s@]+$

  /** `[^\s@]+` without its length bound: no whitespace and no `@`. */
  predicate NoSpaceNoAt(t: string) {
    forall k :: 0 <= k < |t| ==> !IsSpace(t[k]) && t[k] != '@'
  }

  /** The pattern matched with its `@` at `at` and its escaped `.` at `dot`: three non-empty
      runs of `[^\s@]` around the two literals. */
  predicate EmailParse(s: string, at: int, dot: int) {
    && 0 < at && at + 1 < dot && dot + 1 < |s|
    && s[at] == '@' && s[dot] == '.'
    && NoSpaceNoAt(s[..at]) && NoSpaceNoAt(s[at + 1..dot]) && NoSpaceNoAt(s[dot + 1..])
  }

  /** `emailRegex.test(s)`: some choice of the two positions parses `s`. */
  predicate EmailMatches(s: string) {
    exists at, dot :: 0 <= at < |s| && 0 <= dot < |s| && EmailParse(s, at, dot)
  }

  /** The only `@` of `s` is at `at`. */
  predicate SoleAt(s: string, at: int) {
    0 <= at < |s| && s[at] == '@' && forall k :: 0 <= k < |s| && k != at ==> s[k] != '@'
  }

  /** There is a `.` after position `at` with at least one character on each side of it. */
  predicate DotAfter(s: string, at: int) {
    exists dot :: 0 <= at < dot - 1 && dot < |s| - 1 && s[dot] == '.'
  }

  /** The email pattern in plain terms: no whitespace anywhere, exactly one `@`, not in first
      position, and after it a `.` with text on both sides. */
  lemma {:induction false} EmailMeaning(s: string)
    ensures EmailMatches(s) ==> NoSpace(s) && exists at :: SoleAt(s, at) && at > 0 && DotAfter(s, at)
    ensures (NoSpace(s) && exists at :: SoleAt(s, at) && at > 0 && DotAfter(s, at)) ==> EmailMatches(s)
  {
    if EmailMatches(s) {
      var at, dot :| 0 <= at < |s| && 0 <= dot < |s| && EmailParse(s, at, dot);
      forall k | 0 <= k < |s|
        ensures !IsSpace(s[k]) && (k != at ==> s[k] != '@')
      {
        if k < at {
          assert s[..at][k] == s[k];
        } else if at < k < dot {
          assert s[at + 1..dot][k - at - 1] == s[k];
        } else if k > dot {
          assert s[dot + 1..][k - dot - 1] == s[k];
        }
      }
      assert SoleAt(s, at) && DotAfter(s, at);
    }
    if NoSpace(s) && exists at :: SoleAt(s, at) && at > 0 && DotAfter(s, at) {
      var at :| SoleAt(s, at) && at > 0 && DotAfter(s, at);
      var dot :| 0 <= at < dot - 1 && dot < |s| - 1 && s[dot] == '.';
      assert EmailParse(s, at, dot);
    }
  }

  // ---------------------------------------------------------------------------
  // The phone pattern ^[+]?[(]?[0-9]{3}[)]?[-\s.]?[0-9]{3}[-\s.]?[0-9]{4,6}$

  /** `[-\s.]` */
  predicate IsSeparator(c: char) {
    c == '-' || IsSpace(c) || c == '.'
  }

  function Width(present: bool): nat {
    if present then 1 else 0
  }

  /** `s[from..from + n]` is all digits. */
  predicate DigitsAt(s: string, from: nat, n: nat) {
    from + n <= |s| && forall k :: from <= k < from + n ==> IsDigit(s[k])
  }

  /** The pattern matched with each optional piece taken or skipped as the flags say:
      `+`, `(`, three digits, `)`, a separator, three digits, a separator, four to six digits. */
  predicate PhoneParse(s: string, plus: bool, open: bool, close: bool, sep1: bool, sep2: bool) {
    var p1 := Width(plus);
    var p2 := p1 + Width(open);
    var p3 := p2 + 3;
    var p4 := p3 + Width(close);
    var p5 := p4 + Width(sep1);
    var p6 := p5 + 3;
    var p7 := p6 + Width(sep2);
    && p7 + 4 <= |s| <= p7 + 6
    && (plus ==> s[0] == '+')
    && (open ==> s[p1] == '(')
    && DigitsAt(s, p2, 3)
    && (close ==> s[p3] == ')')
    && (sep1 ==> IsSeparator(s[p4]))
    && DigitsAt(s, p5, 3)
    && (sep2 ==> IsSeparator(s[p6]))
    && DigitsAt(s, p7, |s| - p7)
  }

  /** `phoneRegex.test(s)`: some choice of the optional pieces parses `s`. */
  predicate PhoneMatches(s: string) {
    exists plus: bool, open: bool, close: bool, sep1: bool, sep2: bool :: PhoneParse(s, plus, open, close, sep1, sep2)
  }

  /** The number of digits among the positions `lo` (inclusive) to `hi` (exclusive). */
  function DigitsIn(s: string, lo: nat, hi: nat): nat
    requires lo <= hi <= |s|
    decreases hi
  {
    if lo == hi then 0 else DigitsIn(s, lo, hi - 1) + (if IsDigit(s[hi - 1]) then 1 else 0)
  }

  /** The number of digits in `s`. */
  function DigitCount(s: string): nat {
    DigitsIn(s, 0, |s|)
  }

  /** Counting over two adjacent ranges adds up. */
  lemma {:induction false} DigitsInSplit(s: string, lo: nat, mid: nat, hi: nat)
    requires lo <= mid <= hi <= |s|
    ensures DigitsIn(s, lo, hi) == DigitsIn(s, lo, mid) + DigitsIn(s, mid, hi)
    decreases hi
  {
    if mid < hi {
      DigitsInSplit(s, lo, mid, hi - 1);
    }
  }

  /** A range of digits counts its width; a range without digits counts nothing. */
  lemma {:induction false} DigitsInRun(s: string, lo: nat, hi: nat)
    requires lo <= hi <= |s|
    ensures (forall k :: lo <= k < hi ==> IsDigit(s[k])) ==> DigitsIn(s, lo, hi) == hi - lo
    ensures (forall k :: lo <= k < hi ==> !IsDigit(s[k])) ==> DigitsIn(s, lo, hi) == 0
    decreases hi
  {
    if lo < hi {
      DigitsInRun(s, lo, hi - 1);
    }
  }

  /** The positions outside the three digit runs of a parse hold no digit. */
  lemma {:induction false} ParseGaps(s: string, plus: bool, open: bool, close: bool, sep1: bool, sep2: bool)
    requires PhoneParse(s, plus, open, close, sep1, sep2)
    ensures var p2 := Width(plus) + Width(open); var p5 := p2 + 3 + Width(close) + Width(sep1);
      var p7 := p5 + 3 + Width(sep2);
      && (forall k :: 0 <= k < p2 ==> !IsDigit(s[k]))
      && (forall k :: p2 + 3 <= k < p5 ==> !IsDigit(s[k]))
      && (forall k :: p5 + 3 <= k < p7 ==> !IsDigit(s[k]))
      && (forall k :: 0 < k < |s| ==> s[k] != '+')
  {
  }

  /** Three digit runs of widths 3, 3 and `|s| - p7`, separated by digit-free gaps, make
      `6 + |s| - p7` digits. */
  lemma {:induction false} CountRuns(s: string, p2: nat, p5: nat, p7: nat)
    requires p2 + 3 <= p5 && p5 + 3 <= p7 <= |s|
    requires forall k :: 0 <= k < p2 ==> !IsDigit(s[k])
    requires forall k :: p2 + 3 <= k < p5 ==> !IsDigit(s[k])
    requires forall k :: p5 + 3 <= k < p7 ==> !IsDigit(s[k])
    requires DigitsAt(s, p2, 3) && DigitsAt(s, p5, 3) && DigitsAt(s, p7, |s| - p7)
    ensures DigitCount(s) == 6 + |s| - p7
  {
    DigitsInRun(s, 0, p2);
    DigitsInRun(s, p2, p2 + 3);
    DigitsInRun(s, p2 + 3, p5);
    DigitsInRun(s, p5, p5 + 3);
    DigitsInRun(s, p5 + 3, p7);
    DigitsInRun(s, p7, |s|);
    DigitsInSplit(s, 0, p2, |s|);
    DigitsInSplit(s, p2, p2 + 3, |s|);
    DigitsInSplit(s, p2 + 3, p5, |s|);
    DigitsInSplit(s, p5, p5 + 3, |s|);
    DigitsInSplit(s, p5 + 3, p7, |s|);
  }

  /** Any phone text the pattern accepts has between 10 and 12 digits, and a `+` can only be
      its first character. */
  lemma {:induction false} AcceptedPhoneShape(s: string)
    requires PhoneMatches(s)
    ensures 10 <= DigitCount(s) <= 12
    ensures forall k :: 0 < k < |s| ==> s[k] != '+'
  {
    var plus: bool, open: bool, close: bool, sep1: bool, sep2: bool :| PhoneParse(s, plus, open, close, sep1, sep2);
    ParseGaps(s, plus, open, close, sep1, sep2);
    var p2 := Width(plus) + Width(open);
    var p5 := p2 + 3 + Width(close) + Width(sep1);
    var p7 := p5 + 3 + Width(sep2);
    CountRuns(s, p2, p5, p7);
  }

  /** A run of 10 to 12 digits, the form most numbers are typed in, is accepted. */
  lemma PlainDigitsAccepted(s: string)
    requires 10 <= |s| <= 12 && AllDigits(s)
    ensures PhoneMatches(s)
  {
    assert PhoneParse(s, false, false, false, false, false);
  }

  /** `phoneRegex.test(phone.replace(/\s/g, ''))`: whitespace typed anywhere in the number is
      ignored before the pattern is applied. */
  predicate PhoneOk(phone: string) {
    PhoneMatches(StripSpaces(phone))
  }

  // ---------------------------------------------------------------------------
  // The form

  /** The outcome of the checks `handleSave` runs, in their order. */
  datatype Verdict = MissingRequired | BadEmail | BadPhone | Valid

  /** `!formData.org_name || !formData.focus || !formData.email || !formData.phone`, negated:
      JavaScript truthiness, no trimming. */
  predicate HasRequired(d: Details) {
    Truthy(d.org_name) && Truthy(d.focus) && Truthy(d.email) && Truthy(d.phone)
  }

  /** Required fields first, then the email, then the phone: the first failing check decides. */
  function CheckMentor(d: Details): (v: Verdict)
    ensures v == MissingRequired <==> !HasRequired(d)
    ensures v == BadEmail <==> HasRequired(d) && !EmailMatches(d.email.value)
    ensures v == BadPhone <==> HasRequired(d) && EmailMatches(d.email.value) && !PhoneOk(d.phone.value)
    ensures v == Valid <==> HasRequired(d) && EmailMatches(d.email.value) && PhoneOk(d.phone.value)
  {
    if !HasRequired(d) then MissingRequired
    else if !EmailMatches(d.email.value) then BadEmail
    else if !PhoneOk(d.phone.value) then BadPhone
    else Valid
  }

  /** Only the organisation name, focus, email and phone are checked: the description,
      location and website never change the verdict, and a name of spaces passes. */
  lemma CheckIgnoresOtherFields(d: Details, description: Option<string>, location: Option<string>, website: Option<string>)
    ensures CheckMentor(d.(description := description, location := location, website := website)) == CheckMentor(d)
    ensures CheckMentor(d.(org_name := Some(" "))) != MissingRequired <==> CheckMentor(d.(org_name := Some("x"))) != MissingRequired
  {
  }

  /** The alert shown for a failed check. */
  function VerdictMessage(v: Verdict): string
    requires v != Valid
  {
    match v
    case MissingRequired => "Organization Name, Focus Areas, Email, and Phone Number are required."
    case BadEmail => "Please enter a valid email address."
    case BadPhone => "Please enter a valid phone number."
  }

  /** The update a valid save sends. */
  function ListingPatch(mentorType: string, formData: Details): (patch: ProfilePatch)
    ensures patch.role == Put("mentor") && patch.is_investor_listed == Put(true)
    ensures patch.mentor_type == Put(mentorType) && patch.mentor_details == Put(formData)
    ensures patch.investor_type.Absent? && patch.investor_details.Absent?
  {
    ProfilePatch(Put("mentor"), Absent, Absent, Put(mentorType), Put(formData), Put(true))
  }

  /** The update "Un-list" sends: the flag cleared, the mentor columns nulled, the role kept. */
  function UnlistPatch(): (patch: ProfilePatch)
    ensures patch.role.Absent? && patch.is_investor_listed == Put(false)
    ensures patch.mentor_type.Null? && patch.mentor_details.Null?
    ensures patch.investor_type.Absent? && patch.investor_details.Absent?
  {
    ProfilePatch(Absent, Absent, Absent, Null, Null, Put(false))
  }

  /** The form's state. */
  class MentorForm {
    /** The `profile` prop. The source reads it on every render; it is fixed here because the
        "Edit Mentor Profile" modal unmounts the form when it closes, and the inline setup form
        (shown only while unlisted) is replaced once a save's refetch returns a listed profile. */
    const profile: Option<ProfileRow>
    var mentorType: string
    var formData: Details
    var isSaving: bool
    var isDeleting: bool

    /** Mounting the form: the type and details come from the profile, with defaults. */
    constructor (profile: Option<ProfileRow>)
      ensures this.profile == profile
      ensures mentorType == OrElse(if profile.Some? then profile.value.mentor_type else None, "accelerator")
      ensures formData == OrEmpty(if profile.Some? then profile.value.mentor_details else None)
      ensures !isSaving && !isDeleting
      ensures UnlistShown() <==> profile.Some? && profile.value.is_investor_listed
    {
      this.profile := profile;
      mentorType := OrElse(if profile.Some? then profile.value.mentor_type else None, "accelerator");
      formData := OrEmpty(if profile.Some? then profile.value.mentor_details else None);
      isSaving := false;
      isDeleting := false;
    }

    /** The Accelerator / Incubator buttons. */
    method ChooseType(t: string)
      requires t == "accelerator" || t == "incubator"
      modifies this`mentorType
      ensures mentorType == t
    {
      mentorType := t;
    }

    /** An input's `onChange`: the typed text replaces that one key of the details. */
    method Edit(field: DetailField, value: string)
      modifies this`formData
      ensures formData == WithField(old(formData), field, value)
    {
      formData := WithField(formData, field, value);
    }

    /** The "Un-list My Profile" button is rendered only for a listed profile. */
    predicate UnlistShown()
      reads this
    {
      profile.Some? && profile.value.is_investor_listed
    }

    /** `handleSave` for the signed-in user, given the error the update resolves with. The store
        is called only when every check passes; the callbacks run only when it succeeds. */
    method HandleSave(userId: string, error: Option<StoreError>)
      returns (request: Option<ProfileUpdate>, effects: seq<Effect>)
      modifies this`isSaving
      ensures request.Some? <==> CheckMentor(formData) == Valid
      ensures CheckMentor(formData) != Valid ==>
        effects == [Alert(VerdictMessage(CheckMentor(formData)))] && isSaving == old(isSaving)
      ensures CheckMentor(formData) == Valid ==>
        && request == Some(ProfileUpdate(userId, ListingPatch(mentorType, formData)))
        && effects == AfterWrite(error, "Mentor profile saved and listed!", [CallOnSave, CallOnClose])
        && !isSaving
    {
      var verdict := CheckMentor(formData);
      if verdict != Valid {
        return None, [Alert(VerdictMessage(verdict))];
      }
      isSaving := true;
      request := Some(ProfileUpdate(userId, ListingPatch(mentorType, formData)));
      effects := AfterWrite(error, "Mentor profile saved and listed!", [CallOnSave, CallOnClose]);
      isSaving := false;
    }

    /** `handleDelete` (un-list), given the user's answer to the confirmation and the error
        the update resolves with. */
    method HandleDelete(userId: string, confirmed: bool, error: Option<StoreError>)
      returns (request: Option<ProfileUpdate>, effects: seq<Effect>)
      modifies this`isDeleting
      ensures !confirmed ==> request.None? && effects == [] && isDeleting == old(isDeleting)
      ensures confirmed ==>
        && request == Some(ProfileUpdate(userId, UnlistPatch()))
        && effects == AfterWrite(error, "Mentor profile has been un-listed.", [CallOnSave, CallOnClose])
        && !isDeleting
    {
      if !confirmed {
        return None, [];
      }
      isDeleting := true;
      request := Some(ProfileUpdate(userId, UnlistPatch()));
      effects := AfterWrite(error, "Mentor profile has been un-listed.", [CallOnSave, CallOnClose]);
      isDeleting := false;
    }
  }
}
