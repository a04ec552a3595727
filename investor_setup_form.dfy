/** The investor listing form: initial state from the profile, the required
    fields, and the update that lists the profile. */
module InvestorSetupForm {
  import opened JsText
  import opened Backend

  /** `!formData.org_name || !formData.focus || !formData.description`, negated: JavaScript
      truthiness, no trimming. */
  predicate HasRequired(d: Details) {
    Truthy(d.org_name) && Truthy(d.focus) && Truthy(d.description)
  }

  /** Only the organisation name, focus and description are checked: email, phone, location
      and website never matter, and text made only of spaces counts as filled in. */
  lemma RequiredFieldsOnly(d: Details, email: Option<string>, phone: Option<string>, location: Option<string>, website: Option<string>)
    ensures HasRequired(d.(email := email, phone := phone, location := location, website := website)) == HasRequired(d)
    ensures HasRequired(Details(Some(" "), None, None, Some(" "), Some(" "), None, None))
    ensures !HasRequired(d.(org_name := Some(""))) && !HasRequired(d.(focus := None))
  {
  }

  /** The update a valid save sends. */
  function ListingPatch(investorType: string, formData: Details): (patch: ProfilePatch)
    ensures patch.role == Put("investor") && patch.is_investor_listed == Put(true)
    ensures patch.investor_type == Put(investorType) && patch.investor_details == Put(formData)
    ensures patch.mentor_type.Absent? && patch.mentor_details.Absent?
  {
    ProfilePatch(Put("investor"), Put(investorType), Put(formData), Absent, Absent, Put(true))
  }

  /** The form's state. */
  class InvestorForm {
    var investorType: string
    var formData: Details
    var loading: bool

    /** Mounting the form: the type and details come from the profile, with defaults. */
    constructor (profile: Option<ProfileRow>)
      ensures investorType == OrElse(if profile.Some? then profile.value.investor_type else None, "vc")
      ensures formData == OrEmpty(if profile.Some? then profile.value.investor_details else None)
      ensures !loading
    {
      investorType := OrElse(if profile.Some? then profile.value.investor_type else None, "vc");
      formData := OrEmpty(if profile.Some? then profile.value.investor_details else None);
      loading := false;
    }

    /** The Venture Capital / Accelerator / Incubator buttons. */
    method ChooseType(t: string)
      requires t == "vc" || t == "accelerator" || t == "incubator"
      modifies this`investorType
      ensures investorType == t
    {
      investorType := t;
    }

    /** An input's `onChange`: the typed text replaces that one key of the details. The form
        has no email or phone input. */
    method Edit(field: DetailField, value: string)
      requires field != Email && field != Phone
      modifies this`formData
      ensures formData == WithField(old(formData), field, value)
    {
      formData := WithField(formData, field, value);
    }

    /** `handleSave` for the signed-in user, given the error the update resolves with. The store
        is called only when the required fields are filled in; the callbacks run only when it
        succeeds; the type and details are sent as they stand. */
    method HandleSave(userId: string, error: Option<StoreError>)
      returns (request: Option<ProfileUpdate>, effects: seq<Effect>)
      modifies this`loading
      ensures request.Some? <==> HasRequired(formData)
      ensures !HasRequired(formData) ==>
        effects == [Alert("Organization Name, Investment Focus, and Description are required.")]
        && loading == old(loading)
      ensures HasRequired(formData) ==>
        && request == Some(ProfileUpdate(userId, ListingPatch(investorType, formData)))
        && effects == AfterWrite(error, "Investor profile saved and listed!", [CallOnSave, CallOnClose])
        && !loading
    {
      if !HasRequired(formData) {
        return None, [Alert("Organization Name, Investment Focus, and Description are required.")];
      }
      loading := true;
      request := Some(ProfileUpdate(userId, ListingPatch(investorType, formData)));
      effects := AfterWrite(error, "Investor profile saved and listed!", [CallOnSave, CallOnClose]);
      loading := false;
    }
  }
}
