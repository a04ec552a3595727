/** How the pieces fit together across the backend: a profile update applied
    to a row, and what the profile page, the directory and the detail modal
    then show for it. The store is taken to apply an update key by key. */
module ListingLifecycle {
  import opened JsText
  import opened Backend
  import opened Directory
  import NetworkPage
  import ProfilePage
  import MentorSetupForm
  import InvestorSetupForm
  import InvestorDetailModal

  /** One column after an update: left alone, set to null, or set to the value. */
  function SetColumn<T>(f: Field<T>, current: Option<T>): Option<T> {
    match f
    case Absent => current
    case Null => None
    case Put(v) => Some(v)
  }

  /** The row after `.update(patch)`. A null listing flag reads as false. */
  function Apply(row: ProfileRow, patch: ProfilePatch): (r: ProfileRow)
    ensures r.id == row.id && r.full_name == row.full_name && r.avatar_url == row.avatar_url
    ensures r.email == row.email && r.phone == row.phone && r.website == row.website && r.linkedin == row.linkedin
    ensures r.role == SetColumn(patch.role, row.role)
    ensures r.investor_type == SetColumn(patch.investor_type, row.investor_type)
    ensures r.investor_details == SetColumn(patch.investor_details, row.investor_details)
    ensures r.mentor_type == SetColumn(patch.mentor_type, row.mentor_type)
    ensures r.mentor_details == SetColumn(patch.mentor_details, row.mentor_details)
    ensures patch.role.Absent? ==> r.role == row.role
    ensures patch.is_investor_listed.Absent? ==> r.is_investor_listed == row.is_investor_listed
    ensures patch.is_investor_listed.Put? ==> r.is_investor_listed == patch.is_investor_listed.value
    ensures patch.is_investor_listed.Null? ==> !r.is_investor_listed
  {
    row.(
      role := SetColumn(patch.role, row.role),
      investor_type := SetColumn(patch.investor_type, row.investor_type),
      investor_details := SetColumn(patch.investor_details, row.investor_details),
      mentor_type := SetColumn(patch.mentor_type, row.mentor_type),
      mentor_details := SetColumn(patch.mentor_details, row.mentor_details),
      is_investor_listed := match patch.is_investor_listed
                            case Absent => row.is_investor_listed
                            case Null => false
                            case Put(b) => b)
  }

  /** A text always matches itself, whatever its case. */
  lemma SelfSearchHits(text: string)
    ensures FieldHit(Some(text), text)
  {
    assert Lower(text) <= Lower(text);
  }

  /** After a valid mentor save the row is a listed mentor: the profile page opens the mentor
      workspace, the directory shows a mentor card under the organisation's name that a search
      for that name finds under the Mentors filter, and its detail modal shows the email and
      phone from the form. */
  lemma {:induction false} MentorSaveLists(row: ProfileRow, mentorType: string, d: Details)
    requires MentorSetupForm.CheckMentor(d) == MentorSetupForm.Valid
    ensures var r := Apply(row, MentorSetupForm.ListingPatch(mentorType, d));
      && r.role == Some("mentor") && r.is_investor_listed
      && ProfilePage.RenderContent(false, ProfilePage.LandingView(r), Some(r)) == ProfilePage.MentorWorkspace
      && NetworkPage.GetCardProps(r).Some?
      && var c := NetworkPage.GetCardProps(r).value;
         && c.role == "mentor" && c.name == d.org_name.value
         && (c.typeLabel == "Accelerator" <==> mentorType == "accelerator")
         && NetworkPage.CardVisible(c, d.org_name.value, "mentor")
         && var m := InvestorDetailModal.DetailOf(Some(c)).value;
            m.email == d.email && m.phone == d.phone && !m.noContact
  {
    var r := Apply(row, MentorSetupForm.ListingPatch(mentorType, d));
    assert OrEmpty(r.mentor_details) == d;
    SelfSearchHits(d.org_name.value);
  }

  /** After a valid investor save the row is a listed investor: the profile page opens the
      investor workspace and the directory shows an investor card under the organisation's
      name, labelled Venture Capital exactly for the `vc` type and Angel Investor otherwise. */
  lemma {:induction false} InvestorSaveLists(row: ProfileRow, investorType: string, d: Details)
    requires InvestorSetupForm.HasRequired(d)
    ensures var r := Apply(row, InvestorSetupForm.ListingPatch(investorType, d));
      && r.role == Some("investor") && r.is_investor_listed
      && ProfilePage.RenderContent(false, ProfilePage.LandingView(r), Some(r)) == ProfilePage.InvestorWorkspace
      && NetworkPage.GetCardProps(r).Some?
      && var c := NetworkPage.GetCardProps(r).value;
         && c.role == "investor" && c.name == d.org_name.value
         && c.description == d.description && c.focus == d.focus
         && (c.typeLabel == "Venture Capital" <==> investorType == "vc")
         && (investorType != "vc" ==> c.typeLabel == "Angel Investor")
         && NetworkPage.CardVisible(c, d.org_name.value, "investor")
  {
    var r := Apply(row, InvestorSetupForm.ListingPatch(investorType, d));
    assert OrEmpty(r.investor_details) == d;
    SelfSearchHits(d.org_name.value);
  }

  /** Un-listing clears the flag and the mentor columns, keeps the role and every other
      column, and sends a mentor back to the setup form; doing it twice is the same as once. */
  lemma {:induction false} UnlistKeepsRole(row: ProfileRow)
    ensures var r := Apply(row, MentorSetupForm.UnlistPatch());
      && r.role == row.role && !r.is_investor_listed
      && r.mentor_type.None? && r.mentor_details.None?
      && r.investor_type == row.investor_type && r.investor_details == row.investor_details
      && Apply(r, MentorSetupForm.UnlistPatch()) == r
      && (row.role == Some("mentor") ==>
            ProfilePage.RenderContent(false, ProfilePage.LandingView(r), Some(r)) == ProfilePage.MentorSetup)
  {
  }

  /** The flag is shared by both roles: a listed mentor who then picks the investor role lands
      in the investor workspace without ever filling in the investor form, and the directory
      card then carries no investor details. */
  lemma {:induction false} SharedFlagCarriesOver(row: ProfileRow, mentorType: string, d: Details)
    requires MentorSetupForm.CheckMentor(d) == MentorSetupForm.Valid
    requires row.investor_details.None?
    ensures var listed := Apply(row, MentorSetupForm.ListingPatch(mentorType, d));
      var switched := listed.(role := Some("investor"));
      && ProfilePage.RenderContent(false, "investor", Some(switched)) == ProfilePage.InvestorWorkspace
      && NetworkPage.GetCardProps(switched).Some?
      && var c := NetworkPage.GetCardProps(switched).value;
         c.role == "investor" && c.description.None? && c.focus.None?
  {
  }
}
