/** The profile page: a small state machine over `profile`, `loading` and
    `currentView`, driven by the profile fetch, role selection and the
    "Go Back" buttons, and the startup dashboard's list of the user's own
    submissions. */
module ProfilePage {
  import opened JsText
  import opened Backend
  import opened Seqs

  /** What `renderContent` shows. */
  datatype Screen =
    | Spinner
    | RoleSelection
    | CreatorWorkspace
    | InvestorSetup
    | InvestorWorkspace
    | MentorSetup
    | MentorWorkspace
    | StartupWorkspace

  /** `profile?.is_investor_listed`: a missing profile reads as not listed. */
  predicate Listed(profile: Option<ProfileRow>) {
    profile.Some? && profile.value.is_investor_listed
  }

  /** The views `renderContent` has a case for besides role selection. */
  predicate KnownView(view: string) {
    view == "creator" || view == "investor" || view == "mentor" || view == "startup"
  }

  /** `renderContent()` */
  function RenderContent(loading: bool, currentView: string, profile: Option<ProfileRow>): (s: Screen)
    ensures s == Spinner <==> loading
    ensures s == RoleSelection <==> !loading && !KnownView(currentView)
    ensures s == CreatorWorkspace <==> !loading && currentView == "creator"
    ensures s == StartupWorkspace <==> !loading && currentView == "startup"
    ensures s == InvestorSetup <==> !loading && currentView == "investor" && !Listed(profile)
    ensures s == InvestorWorkspace <==> !loading && currentView == "investor" && Listed(profile)
    ensures s == MentorSetup <==> !loading && currentView == "mentor" && !Listed(profile)
    ensures s == MentorWorkspace <==> !loading && currentView == "mentor" && Listed(profile)
  {
    if loading then Spinner
    else match currentView
      case "select_role" => RoleSelection
      case "creator" => CreatorWorkspace
      case "investor" => if !Listed(profile) then InvestorSetup else InvestorWorkspace
      case "mentor" => if !Listed(profile) then MentorSetup else MentorWorkspace
      case "startup" => StartupWorkspace
      case _ => RoleSelection
  }

  /** One flag gates both roles: for any profile, the investor view shows its setup form
      exactly when the mentor view shows its own, so a profile listed under one role opens the
      other role's workspace without any of that role's details. */
  lemma {:induction false} SharedListingGate(profile: Option<ProfileRow>)
    ensures RenderContent(false, "investor", profile) == InvestorSetup
        <==> RenderContent(false, "mentor", profile) == MentorSetup
    ensures Listed(profile) ==>
        && RenderContent(false, "investor", profile) == InvestorWorkspace
        && RenderContent(false, "mentor", profile) == MentorWorkspace
  {
  }

  /** The view a loaded row opens: the row's role when it has one, role selection otherwise. */
  function LandingView(row: ProfileRow): (view: string)
    ensures Truthy(row.role) ==> view == row.role.value
    ensures !Truthy(row.role) ==> view == "select_role"
  {
    OrElse(row.role, "select_role")
  }

  /** What a user sees once the fetch has put their row in place: a row without a role (or a
      brand-new user's bare profile) shows role selection, a listed investor or mentor their
      workspace, an unlisted one their setup form. */
  lemma {:induction false} LandingScreen(row: ProfileRow)
    ensures !Truthy(row.role) ==> RenderContent(false, LandingView(row), Some(row)) == RoleSelection
    ensures row.role == Some("investor") ==>
      RenderContent(false, LandingView(row), Some(row)) == (if row.is_investor_listed then InvestorWorkspace else InvestorSetup)
    ensures row.role == Some("mentor") ==>
      RenderContent(false, LandingView(row), Some(row)) == (if row.is_investor_listed then MentorWorkspace else MentorSetup)
  {
    assert !KnownView("select_role");
  }

  /** `.upsert({ id, role })` */
  datatype RoleUpsert = RoleUpsert(id: string, role: string)

  /** The state `ProfilePage` keeps for the content area. */
  class ProfileView {
    var profile: Option<ProfileRow>
    var loading: bool
    var currentView: string

    /** The initial state: no profile, loading, view `loading`. */
    constructor ()
      ensures profile == None && loading && currentView == "loading"
      ensures RenderContent(loading, currentView, profile) == Spinner
    {
      profile := None;
      loading := true;
      currentView := "loading";
    }

    /** What the page shows in this state. */
    function Content(): Screen
      reads this
    {
      RenderContent(loading, currentView, profile)
    }

    /** `fetchProfile()` for the signed-in user, given the store's reply to
        `select('*').eq('id', user.id).single()`. Returns the id it asked for, or nothing when
        there is no user. A "no rows" reply (code PGRST116) installs a bare profile; any other
        error is only logged and leaves profile and view as they were; loading always ends. */
    method FetchProfile(user: Option<string>, reply: Reply<ProfileRow>) returns (asked: Option<string>)
      modifies this
      ensures user.None? ==> asked.None? && unchanged(this)
      ensures user.Some? ==> asked == user && !loading
      ensures user.Some? && reply.error.Some? && reply.error.value.code != "PGRST116" ==>
        profile == old(profile) && currentView == old(currentView)
      ensures user.Some? && (reply.error.None? || reply.error.value.code == "PGRST116") ==>
        if reply.data.Some? then profile == reply.data && currentView == LandingView(reply.data.value)
        else profile == Some(BareProfile(user.value)) && currentView == "select_role"
    {
      if user.None? {
        return None;
      }
      asked := user;
      loading := true;
      if reply.error.Some? && reply.error.value.code != "PGRST116" {
        // logged only
      } else if reply.data.Some? {
        profile := reply.data;
        currentView := LandingView(reply.data.value);
      } else {
        profile := Some(BareProfile(user.value));
        currentView := "select_role";
      }
      loading := false;
    }

    /** `handleRoleSelect(role)`, given the store's reply to the upsert. On success the
        returned row becomes the profile and the chosen role the view; on error the store's
        message is alerted and nothing changes. */
    method HandleRoleSelect(userId: string, role: string, reply: Reply<ProfileRow>)
      returns (request: RoleUpsert, effects: seq<Effect>)
      modifies this`profile, this`currentView
      ensures request == RoleUpsert(userId, role)
      ensures reply.error.Some? ==>
        effects == [Alert(reply.error.value.message)] && profile == old(profile) && currentView == old(currentView)
      ensures reply.error.None? ==> effects == [] && profile == reply.data && currentView == role
    {
      request := RoleUpsert(userId, role);
      if reply.error.Some? {
        effects := [Alert(reply.error.value.message)];
      } else {
        profile := reply.data;
        currentView := role;
        effects := [];
      }
    }

    /** Every "Go Back" button: back to role selection, nothing else touched. */
    method GoBack()
      modifies this`currentView
      ensures currentView == "select_role"
      ensures !loading ==> Content() == RoleSelection
    {
      currentView := "select_role";
    }
  }

  /** `(sub) => sub.id` */
  function SubmissionId(s: SubmissionRow): string { s.id }

  /** The startup dashboard's list of the user's own submissions. */
  class StartupDashboard {
    var submissions: seq<SubmissionRow>
    var loading: bool

    constructor ()
      ensures submissions == [] && loading
    {
      submissions := [];
      loading := true;
    }

    /** `fetchSubmissions()`, given the store's reply. A null `data` becomes the empty list; an
        error is only logged and keeps the list. Returns the user id it asked for. */
    method FetchSubmissions(user: Option<string>, reply: Reply<seq<SubmissionRow>>) returns (asked: Option<string>)
      modifies this
      ensures user.None? ==> asked.None? && unchanged(this)
      ensures user.Some? ==> asked == user && !loading
      ensures user.Some? && reply.error.Some? ==> submissions == old(submissions)
      ensures user.Some? && reply.error.None? ==>
        submissions == (if reply.data.Some? then reply.data.value else [])
    {
      if user.None? {
        return None;
      }
      asked := user;
      loading := true;
      if reply.error.None? {
        submissions := if reply.data.Some? then reply.data.value else [];
      }
      loading := false;
    }

    /** `handleDelete(submissionId)`: asks for confirmation, deletes the row, and on success
        drops every entry with that id from the list. Returns the id sent to the store, if any. */
    method HandleDelete(submissionId: string, confirmed: bool, error: Option<StoreError>)
      returns (deleted: Option<string>, effects: seq<Effect>)
      modifies this`submissions
      ensures !confirmed ==> deleted.None? && effects == [] && submissions == old(submissions)
      ensures confirmed ==> deleted == Some(submissionId)
      ensures confirmed && error.Some? ==>
        effects == [Alert(error.value.message)] && submissions == old(submissions)
      ensures confirmed && error.None? ==>
        effects == [Alert("Submission deleted successfully.")]
        && submissions == Without(old(submissions), SubmissionId, submissionId)
    {
      if !confirmed {
        return None, [];
      }
      deleted := Some(submissionId);
      if error.Some? {
        effects := [Alert(error.value.message)];
      } else {
        submissions := Without(submissions, SubmissionId, submissionId);
        effects := [Alert("Submission deleted successfully.")];
      }
    }
  }

  /** After a successful delete no entry with that id is listed, every other entry still is,
      in its order, and nothing else appears. */
  lemma DeleteRemovesExactly(subs: seq<SubmissionRow>, submissionId: string)
    ensures var r := Without(subs, SubmissionId, submissionId);
      && (forall i :: 0 <= i < |r| ==> r[i].id != submissionId && r[i] in subs)
      && (forall i :: 0 <= i < |subs| && subs[i].id != submissionId ==> subs[i] in r)
      && SubsequenceAt(r, subs, Kept(subs, KeyIsNot(SubmissionId, submissionId)))
  {
    WithoutRemovesExactly(subs, SubmissionId, submissionId);
  }
}
