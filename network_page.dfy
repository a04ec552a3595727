/** The network page: listed investor and mentor profiles turned into cards,
    searched and filtered on the client, with per-role totals on the filter
    buttons and a "Showing X of Y" line. The listing query that fetches the
    rows runs on the server and is an input here. */
module NetworkPage {
  import opened JsText
  import opened Backend
  import opened Seqs
  import opened Directory

  /** The props `getCardProps` builds: every column of the row (`...profile`) with the
      display fields on top of it. */
  datatype Card = Card(
    row: ProfileRow,
    role: string,
    name: string,
    typeLabel: string,
    description: Option<string>,
    focus: Option<string>,
    avatar: Option<string>)

  /** The rows `getCardProps` turns into a card. */
  predicate HasCardRole(row: ProfileRow) {
    row.role == Some("investor") || row.role == Some("mentor")
  }

  /** `getCardProps(profile)`: a card for an investor or a mentor, `null` for any other role. */
  function GetCardProps(row: ProfileRow): (card: Option<Card>)
    ensures card.Some? <==> HasCardRole(row)
    ensures card.Some? ==> card.value.row == row && row.role == Some(card.value.role)
    ensures card.Some? ==> card.value.name != "" && card.value.avatar == row.avatar_url
  {
    if row.role == Some("investor") then
      var d := OrEmpty(row.investor_details);
      Some(Card(row, "investor",
                OrElse(Or(d.org_name, row.full_name), "Unnamed Investor"),
                if row.investor_type == Some("vc") then "Venture Capital" else "Angel Investor",
                d.description, d.focus, row.avatar_url))
    else if row.role == Some("mentor") then
      var d := OrEmpty(row.mentor_details);
      Some(Card(row, "mentor",
                OrElse(Or(d.org_name, row.full_name), "Unnamed Mentor"),
                if row.mentor_type == Some("accelerator") then "Accelerator" else "Incubator",
                d.description, d.focus, row.avatar_url))
    else
      None
  }

  /** Labels and names on a card: the type label follows `investor_type === 'vc'` or
      `mentor_type === 'accelerator'` and nothing else (so accelerator and incubator
      investors are labelled angel investors); the name is the organisation name if set,
      else the person's full name, else a placeholder; the text fields come from the
      details of the card's own role. */
  lemma CardFields(row: ProfileRow)
    requires HasCardRole(row)
    ensures var c := GetCardProps(row).value;
      var d := if c.role == "investor" then OrEmpty(row.investor_details) else OrEmpty(row.mentor_details);
      && (c.role == "investor" ==>
            && (c.typeLabel == "Venture Capital" <==> row.investor_type == Some("vc"))
            && (c.typeLabel != "Venture Capital" ==> c.typeLabel == "Angel Investor"))
      && (c.role == "mentor" ==>
            && (c.typeLabel == "Accelerator" <==> row.mentor_type == Some("accelerator"))
            && (c.typeLabel != "Accelerator" ==> c.typeLabel == "Incubator"))
      && (Truthy(d.org_name) ==> c.name == d.org_name.value)
      && (!Truthy(d.org_name) && Truthy(row.full_name) ==> c.name == row.full_name.value)
      && (!Truthy(d.org_name) && !Truthy(row.full_name) ==>
            c.name == (if c.role == "investor" then "Unnamed Investor" else "Unnamed Mentor"))
      && c.description == d.description && c.focus == d.focus
  {
  }

  /** `profiles.map(getCardProps).filter(Boolean)`: one card per investor or mentor row, in
      the rows' order. */
  function AllProfiles(rows: seq<ProfileRow>): (cards: seq<Card>)
    ensures |cards| == |Filter(rows, HasCardRole)|
    ensures forall k :: 0 <= k < |cards| ==>
              cards[k].row == Filter(rows, HasCardRole)[k] && GetCardProps(cards[k].row) == Some(cards[k])
  {
    if rows == [] then []
    else
      var n := |rows| - 1;
      AllProfiles(rows[..n]) + (match GetCardProps(rows[n]) case Some(c) => [c] case None => [])
  }

  /** Every card shown anywhere on the page is an investor's or a mentor's. */
  lemma {:induction false} CardsAreInvestorsOrMentors(rows: seq<ProfileRow>)
    ensures forall c :: c in AllProfiles(rows) ==> c.role == "investor" || c.role == "mentor"
  {
    var cards := AllProfiles(rows);
    forall c | c in cards
      ensures c.role == "investor" || c.role == "mentor"
    {
      var k :| 0 <= k < |cards| && cards[k] == c;
      assert GetCardProps(c.row) == Some(c);
    }
  }

  /** The per-card test of the memoised filter: search over name, description and focus,
      role filter on the card's role. */
  predicate CardVisible(card: Card, searchQuery: string, filterRole: string) {
    Visible(searchQuery, filterRole, Some(card.role), Some(card.name), card.description, card.focus)
  }

  /** The empty search shows every card the role filter passes; a non-empty search matches on
      the card's name, description or focus, case-insensitively, and a missing description or
      focus never matches; the role filter passes on "all" or the card's own role. */
  lemma {:induction false} SearchMeaning(c: Card, searchQuery: string, filterRole: string)
    ensures searchQuery == "" ==>
      (CardVisible(c, searchQuery, filterRole) <==> filterRole == "all" || c.role == filterRole)
    ensures searchQuery != "" ==>
      (CardVisible(c, searchQuery, filterRole) <==>
        && (|| Includes(Lower(c.name), Lower(searchQuery))
            || (c.description.Some? && Includes(Lower(c.description.value), Lower(searchQuery)))
            || (c.focus.Some? && Includes(Lower(c.focus.value), Lower(searchQuery))))
        && (filterRole == "all" || c.role == filterRole))
  {
  }

  function ShowCard(searchQuery: string, filterRole: string): Card -> bool {
    (c: Card) => CardVisible(c, searchQuery, filterRole)
  }

  /** `filteredProfiles` */
  function FilteredProfiles(all: seq<Card>, searchQuery: string, filterRole: string): (shown: seq<Card>)
    ensures |shown| <= |all|
    ensures forall i :: 0 <= i < |shown| ==> shown[i] in all && CardVisible(shown[i], searchQuery, filterRole)
    ensures forall i :: 0 <= i < |all| && CardVisible(all[i], searchQuery, filterRole) ==> all[i] in shown
  {
    Filter(all, ShowCard(searchQuery, filterRole))
  }

  /** The visible cards are exactly the cards that pass the search and the role filter, in
      the order of `allProfiles`; so there are never more of them than the total. */
  lemma FilteredIsStableSelection(all: seq<Card>, searchQuery: string, filterRole: string)
    ensures var shown := FilteredProfiles(all, searchQuery, filterRole);
      && SubsequenceAt(shown, all, Kept(all, ShowCard(searchQuery, filterRole)))
      && (forall i :: 0 <= i < |all| && CardVisible(all[i], searchQuery, filterRole) ==> all[i] in shown)
      && (forall c :: c in shown ==> c in all && CardVisible(c, searchQuery, filterRole))
      && |shown| <= |all|
  {
    FilterIsOrderedSelection(all, ShowCard(searchQuery, filterRole));
  }

  /** The totals on the All / Investors / Mentors buttons. */
  datatype RoleCounts = RoleCounts(all: nat, investors: nat, mentors: nat)

  predicate IsInvestorCard(c: Card) { c.role == "investor" }
  predicate IsMentorCard(c: Card) { c.role == "mentor" }

  /** The button totals, taken over the unfiltered cards: every card, the investor cards and
      the mentor cards; the two role totals add up to the whole. */
  function Counts(rows: seq<ProfileRow>): (counts: RoleCounts)
    ensures counts.all == |AllProfiles(rows)|
    ensures counts.investors == |Filter(AllProfiles(rows), IsInvestorCard)|
    ensures counts.mentors == |Filter(AllProfiles(rows), IsMentorCard)|
    ensures counts.investors + counts.mentors == counts.all
  {
    var all := AllProfiles(rows);
    CardsAreInvestorsOrMentors(rows);
    CountSplit(all, IsInvestorCard, IsMentorCard);
    RoleCounts(|all|, |Filter(all, IsInvestorCard)|, |Filter(all, IsMentorCard)|)
  }

  /** The page state that the derived lists depend on. */
  datatype NetworkState = NetworkState(
    profiles: seq<ProfileRow>,
    loading: bool,
    searchQuery: string,
    filterRole: string)

  /** What the grid area shows. */
  datatype Grid =
    | Spinner
    | Cards(cards: seq<Card>)
    | NoMatches      // "No profiles found" with the "Clear all filters" button
    | NothingListed  // "No mentors or investors have listed their profiles yet."

  function GridOf(st: NetworkState): (g: Grid)
    ensures g == Spinner <==> st.loading
    ensures g.Cards? ==> g.cards == FilteredProfiles(AllProfiles(st.profiles), st.searchQuery, st.filterRole) && g.cards != []
    ensures !st.loading && (exists c :: c in AllProfiles(st.profiles) && CardVisible(c, st.searchQuery, st.filterRole)) ==> g.Cards?
  {
    var shown := FilteredProfiles(AllProfiles(st.profiles), st.searchQuery, st.filterRole);
    if st.loading then Spinner
    else if |shown| > 0 then Cards(shown)
    else if st.searchQuery != "" || st.filterRole != "all" then NoMatches
    else NothingListed
  }

  /** "Showing X of Y profiles", shown once loading has finished. */
  function ResultsLine(st: NetworkState): (line: Option<(nat, nat)>)
    ensures line.Some? <==> !st.loading
    ensures line.Some? ==> line.value == (|FilteredProfiles(AllProfiles(st.profiles), st.searchQuery, st.filterRole)|, |AllProfiles(st.profiles)|)
    ensures line.Some? ==> line.value.0 <= line.value.1 == Counts(st.profiles).all
  {
    var all := AllProfiles(st.profiles);
    if st.loading then None
    else Some((|FilteredProfiles(all, st.searchQuery, st.filterRole)|, |all|))
  }

  /** What "Clear all filters" sets. */
  function ClearFilters(st: NetworkState): NetworkState {
    st.(searchQuery := "", filterRole := "all")
  }

  /** After "Clear all filters" every card is visible again, in its original order, whatever
      the search and filter were. */
  lemma {:induction false} ClearedShowsAll(st: NetworkState)
    ensures var c := ClearFilters(st);
      FilteredProfiles(AllProfiles(c.profiles), c.searchQuery, c.filterRole) == AllProfiles(st.profiles)
  {
    var all := AllProfiles(st.profiles);
    FilterAllPass(all, ShowCard("", "all"));
  }

  /** The "nobody has listed yet" message appears only when there is no card at all, and the
      "no profiles found" message only when a search or a role filter is active. */
  lemma {:induction false} EmptyStatesTellTheTruth(st: NetworkState)
    ensures GridOf(st) == NothingListed ==> AllProfiles(st.profiles) == []
    ensures GridOf(st) == NoMatches ==> st.searchQuery != "" || st.filterRole != "all"
    ensures !st.loading && FilteredProfiles(AllProfiles(st.profiles), st.searchQuery, st.filterRole) == [] ==>
      (GridOf(st) == NoMatches <==> st.searchQuery != "" || st.filterRole != "all")
    ensures !st.loading && st.searchQuery == "" && st.filterRole == "all" ==>
      (GridOf(st) == NothingListed <==> AllProfiles(st.profiles) == [])
  {
    if GridOf(st) == NothingListed || (st.searchQuery == "" && st.filterRole == "all") {
      ClearedShowsAll(st);
      assert ClearFilters(st) == st.(searchQuery := "", filterRole := "all");
    }
  }

  /** Clicking a role button with an empty search shows exactly as many cards as the total
      printed on that button. */
  lemma {:induction false} ButtonTotalsMatchShown(rows: seq<ProfileRow>)
    ensures |FilteredProfiles(AllProfiles(rows), "", "investor")| == Counts(rows).investors
    ensures |FilteredProfiles(AllProfiles(rows), "", "mentor")| == Counts(rows).mentors
    ensures |FilteredProfiles(AllProfiles(rows), "", "all")| == Counts(rows).all
  {
    var all := AllProfiles(rows);
    forall i | 0 <= i < |all|
      ensures ShowCard("", "investor")(all[i]) == IsInvestorCard(all[i])
      ensures ShowCard("", "mentor")(all[i]) == IsMentorCard(all[i])
      ensures ShowCard("", "all")(all[i])
    {
      SearchMeaning(all[i], "", "investor");
      SearchMeaning(all[i], "", "mentor");
      SearchMeaning(all[i], "", "all");
    }
    FilterSameTest(all, ShowCard("", "investor"), IsInvestorCard);
    FilterSameTest(all, ShowCard("", "mentor"), IsMentorCard);
    FilterAllPass(all, ShowCard("", "all"));
  }
}
