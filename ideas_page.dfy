/** The ideas page: approved submissions (newest first, as fetched) searched by
    title, description or author name and filtered by submission type, with
    per-type totals on the filter buttons. */
module IdeasPage {
  import opened JsText
  import opened Backend
  import opened Seqs
  import opened Directory

  /** `submission.profiles?.full_name` */
  function AuthorName(s: SubmissionRow): Option<string> {
    if s.profiles.Some? then s.profiles.value.full_name else None
  }

  /** The per-submission test of the memoised filter. */
  predicate SubmissionVisible(s: SubmissionRow, searchQuery: string, filterType: string) {
    Visible(searchQuery, filterType, s.submission_type, s.title, s.description, AuthorName(s))
  }

  function ShowSubmission(searchQuery: string, filterType: string): SubmissionRow -> bool {
    (s: SubmissionRow) => SubmissionVisible(s, searchQuery, filterType)
  }

  /** `filteredSubmissions` */
  function FilteredSubmissions(subs: seq<SubmissionRow>, searchQuery: string, filterType: string): (shown: seq<SubmissionRow>)
    ensures |shown| <= |subs|
    ensures forall i :: 0 <= i < |shown| ==> shown[i] in subs && SubmissionVisible(shown[i], searchQuery, filterType)
    ensures forall i :: 0 <= i < |subs| && SubmissionVisible(subs[i], searchQuery, filterType) ==> subs[i] in shown
  {
    Filter(subs, ShowSubmission(searchQuery, filterType))
  }

  /** The visible submissions are exactly those that pass the search and the type filter, in
      the fetched order, and never more than the total shown beside them. */
  lemma FilteredIsStableSelection(subs: seq<SubmissionRow>, searchQuery: string, filterType: string)
    ensures var shown := FilteredSubmissions(subs, searchQuery, filterType);
      && SubsequenceAt(shown, subs, Kept(subs, ShowSubmission(searchQuery, filterType)))
      && (forall i :: 0 <= i < |subs| && SubmissionVisible(subs[i], searchQuery, filterType) ==> subs[i] in shown)
      && (forall s :: s in shown ==> s in subs && SubmissionVisible(s, searchQuery, filterType))
      && |shown| <= |subs|
  {
    FilterIsOrderedSelection(subs, ShowSubmission(searchQuery, filterType));
  }

  /** The empty search shows every submission the type filter passes; a non-empty search
      matches on title, description or author name, case-insensitively, and a missing field
      never matches; the type filter passes on "all" or an exact type. */
  lemma {:induction false} SearchMeaning(s: SubmissionRow, searchQuery: string, filterType: string)
    ensures searchQuery == "" ==>
      (SubmissionVisible(s, searchQuery, filterType) <==> filterType == "all" || s.submission_type == Some(filterType))
    ensures searchQuery != "" ==>
      (SubmissionVisible(s, searchQuery, filterType) <==>
        && (|| (s.title.Some? && Includes(Lower(s.title.value), Lower(searchQuery)))
            || (s.description.Some? && Includes(Lower(s.description.value), Lower(searchQuery)))
            || (AuthorName(s).Some? && Includes(Lower(AuthorName(s).value), Lower(searchQuery))))
        && (filterType == "all" || s.submission_type == Some(filterType)))
  {
  }

  /** The totals on the All Ideas / Student Projects / Startups buttons. */
  datatype TypeCounts = TypeCounts(all: nat, student: nat, entrepreneur: nat)

  predicate IsStudent(s: SubmissionRow) { s.submission_type == Some("student") }
  predicate IsEntrepreneur(s: SubmissionRow) { s.submission_type == Some("entrepreneur") }

  /** The button totals, over the unfiltered submissions: the two type totals never exceed
      "All Ideas" (a submission of any other type counts only there). */
  function Counts(subs: seq<SubmissionRow>): (counts: TypeCounts)
    ensures counts.all == |subs|
    ensures counts.student == |Filter(subs, IsStudent)|
    ensures counts.entrepreneur == |Filter(subs, IsEntrepreneur)|
    ensures counts.student + counts.entrepreneur <= counts.all
  {
    CountSplit(subs, IsStudent, IsEntrepreneur);
    TypeCounts(|subs|, |Filter(subs, IsStudent)|, |Filter(subs, IsEntrepreneur)|)
  }

  /** Clicking a type button with an empty search lists exactly as many submissions as the
      total printed on that button. */
  lemma {:induction false} ButtonTotalsMatchShown(subs: seq<SubmissionRow>)
    ensures |FilteredSubmissions(subs, "", "student")| == Counts(subs).student
    ensures |FilteredSubmissions(subs, "", "entrepreneur")| == Counts(subs).entrepreneur
    ensures |FilteredSubmissions(subs, "", "all")| == Counts(subs).all
  {
    forall i | 0 <= i < |subs|
      ensures ShowSubmission("", "student")(subs[i]) == IsStudent(subs[i])
      ensures ShowSubmission("", "entrepreneur")(subs[i]) == IsEntrepreneur(subs[i])
      ensures ShowSubmission("", "all")(subs[i])
    {
      SearchMeaning(subs[i], "", "student");
      SearchMeaning(subs[i], "", "entrepreneur");
      SearchMeaning(subs[i], "", "all");
    }
    FilterSameTest(subs, ShowSubmission("", "student"), IsStudent);
    FilterSameTest(subs, ShowSubmission("", "entrepreneur"), IsEntrepreneur);
    FilterAllPass(subs, ShowSubmission("", "all"));
  }

  datatype IdeasState = IdeasState(
    submissions: seq<SubmissionRow>,
    loading: bool,
    searchQuery: string,
    filterType: string)

  /** What "Clear all filters" sets. */
  function ClearFilters(st: IdeasState): IdeasState {
    st.(searchQuery := "", filterType := "all")
  }

  /** After "Clear all filters" every submission is listed, in the fetched order. */
  lemma {:induction false} ClearedShowsAll(st: IdeasState)
    ensures var c := ClearFilters(st);
      FilteredSubmissions(c.submissions, c.searchQuery, c.filterType) == st.submissions
  {
    FilterAllPass(st.submissions, ShowSubmission("", "all"));
  }

  /** The label an idea card shows for its type. */
  function TypeLabel(s: SubmissionRow): (shown: string)
    ensures shown == "Student Idea" <==> IsStudent(s)
    ensures shown == "Student Idea" || shown == "Startup"
  {
    if s.submission_type == Some("student") then "Student Idea" else "Startup"
  }
}
