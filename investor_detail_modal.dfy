/** The detail modal opened from a directory card. Contact fields and texts
    prefer the row's `mentor_details` over the card's own fields; the type
    prefers the raw `mentor_type`; the focus string becomes trimmed tags as
    on the card. */
module InvestorDetailModal {
  import opened JsText
  import opened Backend
  import NetworkPage
  import ProfileCard

  /** What the modal shows. A contact line is `Some` when it is rendered. */
  datatype Detail = Detail(
    avatarSrc: string,
    name: string,
    typeText: string,
    about: string,
    tags: seq<string>,
    email: Option<string>,
    phone: Option<string>,
    website: Option<string>,
    linkedin: Option<string>,
    noContact: bool)

  /** `value && <line/>`: a line is rendered only for a truthy value. */
  function Shown(v: Option<string>): (line: Option<string>)
    ensures line.Some? <==> Truthy(v)
    ensures line.Some? ==> line == v
  {
    if Truthy(v) then v else None
  }

  /** The modal for the selected card, or nothing when no card is selected. */
  function DetailOf(card: Option<NetworkPage.Card>): (d: Option<Detail>)
    ensures d.Some? <==> card.Some?
  {
    if card.None? then None
    else
      var c := card.value;
      var md := OrEmpty(c.row.mentor_details);
      var email := Or(md.email, c.row.email);
      var phone := Or(md.phone, c.row.phone);
      var website := Or(md.website, c.row.website);
      var description := Or(md.description, c.description);
      var focus := Or(md.focus, c.focus);
      Some(Detail(
        ProfileCard.AvatarSrc(c.avatar, Some(c.name)),
        c.name,
        OrElse(c.row.mentor_type, c.typeLabel),
        OrElse(description, "No details provided."),
        ProfileCard.FocusTags(focus),
        Shown(email), Shown(phone), Shown(website), Shown(c.row.linkedin),
        !Truthy(email) && !Truthy(phone) && !Truthy(website) && !Truthy(c.row.linkedin)))
  }

  /** Where each field of the modal comes from: the mentor details win whenever they hold a
      truthy value, otherwise the row's contact column or the card's text is used; the type is
      the raw `mentor_type` when set, else the card's label; a missing description reads
      "No details provided."; and "No contact information available." appears exactly when
      no contact line is rendered. */
  lemma {:induction false} DetailFields(c: NetworkPage.Card)
    ensures var d := DetailOf(Some(c)).value; var md := OrEmpty(c.row.mentor_details);
      && (Truthy(md.email) ==> d.email == md.email)
      && (!Truthy(md.email) ==> d.email == Shown(c.row.email))
      && (Truthy(md.phone) ==> d.phone == md.phone)
      && (!Truthy(md.phone) ==> d.phone == Shown(c.row.phone))
      && (Truthy(md.website) ==> d.website == md.website)
      && (!Truthy(md.website) ==> d.website == Shown(c.row.website))
      && (Truthy(md.description) ==> d.about == md.description.value)
      && (!Truthy(md.description) && Truthy(c.description) ==> d.about == c.description.value)
      && (!Truthy(md.description) && !Truthy(c.description) ==> d.about == "No details provided.")
      && (Truthy(md.focus) ==> d.tags == ProfileCard.FocusTags(md.focus))
      && (!Truthy(md.focus) ==> d.tags == ProfileCard.FocusTags(c.focus))
      && (!Truthy(md.focus) && c.focus == Some("") ==> d.tags == [""])
      && (!Truthy(md.focus) && c.focus.None? ==> d.tags == [])
      && (Truthy(c.row.mentor_type) ==> d.typeText == c.row.mentor_type.value)
      && (!Truthy(c.row.mentor_type) ==> d.typeText == c.typeLabel)
      && (d.noContact <==> d.email.None? && d.phone.None? && d.website.None? && d.linkedin.None?)
  {
  }

  /** For an investor card whose row has no mentor columns the modal shows the card's name,
      label, avatar and tags, and the row's own contact columns. The about text agrees with the
      card's only for a truthy description: otherwise each shows its own default. */
  lemma InvestorModalMatchesCard(row: ProfileRow)
    requires row.role == Some("investor")
    requires row.mentor_details.None? && row.mentor_type.None?
    ensures var c := NetworkPage.GetCardProps(row).value; var d := DetailOf(Some(c)).value;
      var v := ProfileCard.Render(ProfileCard.PropsOf(c));
      && d.name == v.heading && d.typeText == v.subtitle && d.avatarSrc == v.avatarSrc
      && d.email == Shown(row.email) && d.phone == Shown(row.phone) && d.website == Shown(row.website)
      && (Truthy(c.description) ==> d.about == v.bio)
      && (!Truthy(c.description) ==> d.about == "No details provided." && v.bio == "No description provided.")
      && d.tags == v.tags
  {
  }
}
