/** The directory card: default texts for missing props, the avatar
    placeholder, and the focus string split into trimmed tags. The same tag
    and avatar rules are used by the detail modal. */
module ProfileCard {
  import opened JsText
  import NetworkPage
  import Backend

  /** `focus?.split(',').map(tag => tag.trim())`; a missing focus renders no tags. */
  function FocusTags(focus: Option<string>): (tags: seq<string>)
    ensures focus.None? ==> tags == []
    ensures focus.Some? ==> |tags| == Occurrences(focus.value, ',') + 1
    ensures forall i :: 0 <= i < |tags| ==> ',' !in tags[i]
  {
    if focus.None? then []
    else
      var pieces := Split(focus.value, ',');
      SplitCount(focus.value, ',');
      seq(|pieces|, i requires 0 <= i < |pieces| => Trim(pieces[i]))
  }

  /** Each tag is its piece trimmed: a stretch of the piece with no comma and no whitespace at
      either end. */
  ghost predicate TrimmedPieces(tags: seq<string>, pieces: seq<string>) {
    && |tags| == |pieces|
    && forall i :: 0 <= i < |tags| ==>
         && tags[i] == Trim(pieces[i])
         && ',' !in tags[i]
         && (tags[i] != [] ==> !IsSpace(tags[i][0]) && !IsSpace(tags[i][|tags[i]| - 1]))
         && exists k :: OccursAt(pieces[i], tags[i], k)
  }

  /** The tags of a present focus string: one per comma-separated piece, in order (so one more
      than there are commas, an empty focus giving one empty tag); each is its piece with the
      surrounding whitespace removed, so no tag holds a comma or starts or ends with
      whitespace; and the untrimmed pieces join back into the focus string. */
  lemma {:induction false} TagsOfFocus(focus: string)
    ensures |FocusTags(Some(focus))| == Occurrences(focus, ',') + 1
    ensures Join(Split(focus, ','), ',') == focus
    ensures TrimmedPieces(FocusTags(Some(focus)), Split(focus, ','))
  {
    SplitCount(focus, ',');
    JoinSplit(focus, ',');
    TagsArePieces(focus);
  }

  /** Tag `i` is piece `i` trimmed. */
  lemma {:induction false} TagsArePieces(focus: string)
    ensures TrimmedPieces(FocusTags(Some(focus)), Split(focus, ','))
  {
    var pieces := Split(focus, ',');
    var tags := FocusTags(Some(focus));
    forall i | 0 <= i < |tags|
      ensures tags[i] == Trim(pieces[i])
      ensures ',' !in tags[i]
      ensures tags[i] != [] ==> !IsSpace(tags[i][0]) && !IsSpace(tags[i][|tags[i]| - 1])
      ensures exists k :: OccursAt(pieces[i], tags[i], k)
    {
      assert tags[i] == Trim(pieces[i]);
      var k := TrimmedPiece(pieces[i]);
    }
  }

  /** A trimmed piece is a stretch of the piece, so it holds no character the piece lacks. */
  lemma TrimmedPiece(piece: string) returns (k: nat)
    ensures OccursAt(piece, Trim(piece), k)
    ensures forall c :: c in Trim(piece) ==> c in piece
    ensures ',' !in piece ==> ',' !in Trim(piece)
  {
    TrimShape(piece);
    k := |piece| - |TrimStart(piece)|;
  }

  const PlaceholderPrefix := "https://placehold.co/100x100/2a2a2a/E5E7EB?text="

  /** `name?.charAt(0)` as a template literal renders it: `undefined` when there is no name. */
  function FirstCharText(name: Option<string>): string {
    if name.None? then "undefined" else if name.value == "" then "" else [name.value[0]]
  }

  /** `avatar || placeholder`: the avatar URL if set, else the placeholder image whose text is
      the first character of the name. */
  function AvatarSrc(avatar: Option<string>, name: Option<string>): (src: string)
    ensures Truthy(avatar) ==> src == avatar.value
    ensures !Truthy(avatar) && name.Some? && name.value != "" ==>
              src == PlaceholderPrefix + [name.value[0]]
    ensures !Truthy(avatar) && name.Some? && name.value == "" ==> src == PlaceholderPrefix
    ensures !Truthy(avatar) && name.None? ==> src == PlaceholderPrefix + "undefined"
  {
    if Truthy(avatar) then avatar.value else PlaceholderPrefix + FirstCharText(name)
  }

  /** The props a card receives. */
  datatype Props = Props(
    name: Option<string>,
    typeText: Option<string>,
    description: Option<string>,
    focus: Option<string>,
    avatar: Option<string>)

  /** What a card shows. */
  datatype CardView = CardView(
    avatarSrc: string,
    heading: string,
    subtitle: string,
    bio: string,
    tags: seq<string>)

  function Render(p: Props): (v: CardView)
    ensures !Truthy(p.name) <==> v.heading == "Unnamed Profile" && p.name != Some("Unnamed Profile")
    ensures !Truthy(p.typeText) <==> v.subtitle == "Member" && p.typeText != Some("Member")
    ensures !Truthy(p.description) <==> v.bio == "No description provided." && p.description != Some("No description provided.")
    ensures Truthy(p.name) ==> v.heading == p.name.value
    ensures Truthy(p.typeText) ==> v.subtitle == p.typeText.value
    ensures Truthy(p.description) ==> v.bio == p.description.value
    ensures v.avatarSrc == AvatarSrc(p.avatar, p.name) && v.tags == FocusTags(p.focus)
    ensures p.focus.None? ==> v.tags == []
  {
    CardView(
      AvatarSrc(p.avatar, p.name),
      OrElse(p.name, "Unnamed Profile"),
      OrElse(p.typeText, "Member"),
      OrElse(p.description, "No description provided."),
      FocusTags(p.focus))
  }

  /** The props the network page spreads onto a card. */
  function PropsOf(c: NetworkPage.Card): Props {
    Props(Some(c.name), Some(c.typeLabel), c.description, c.focus, c.avatar)
  }

  /** Cards built from listed rows always carry a name and a type, so the card never falls
      back to "Unnamed Profile" or "Member"; its placeholder avatar shows the name's initial. */
  lemma DirectoryCardsHaveNameAndType(row: Backend.ProfileRow)
    requires NetworkPage.HasCardRole(row)
    ensures var c := NetworkPage.GetCardProps(row).value; var v := Render(PropsOf(c));
      && v.heading == c.name
      && v.subtitle == c.typeLabel
      && (!Truthy(row.avatar_url) ==> v.avatarSrc == PlaceholderPrefix + [c.name[0]])
  {
  }
}
