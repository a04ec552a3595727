/** The startup form: a name, a description and a stage, inserted as an
    approved `entrepreneur` submission. The stage is collected but not sent. */
module EntrepreneurForm {
  import opened JsText
  import opened Backend

  const Incomplete := "Please provide your startup name and a description."
  const Submitted := "Your startup has been submitted and is now live on the Ideas page!"

  /** The form's state. */
  class StartupForm {
    var title: string
    var description: string
    var stage: string
    var loading: bool

    constructor ()
      ensures title == "" && description == "" && stage == "Idea" && !loading
    {
      title := "";
      description := "";
      stage := "Idea";
      loading := false;
    }

    /** The three inputs. */
    method Edit(newTitle: string, newDescription: string, newStage: string)
      modifies this`title, this`description, this`stage
      ensures title == newTitle && description == newDescription && stage == newStage
    {
      title := newTitle;
      description := newDescription;
      stage := newStage;
    }

    /** `handleSubmit` for the signed-in user, given the error the insert resolves with. An
        empty name or description stops it before the store; the insert carries the name and
        description but not the stage; the callbacks run only when it succeeds. */
    method HandleSubmit(userId: string, error: Option<StoreError>)
      returns (request: Option<SubmissionInsert>, effects: seq<Effect>)
      modifies this`loading
      ensures request.Some? <==> title != "" && description != ""
      ensures (title == "" || description == "") ==> effects == [Alert(Incomplete)] && loading == old(loading)
      ensures title != "" && description != "" ==>
        && request == Some(NewSubmission(userId, "entrepreneur", title, description))
        && effects == AfterWrite(error, Submitted, [CallOnSave, CallOnClose])
        && !loading
    {
      if title == "" || description == "" {
        return None, [Alert(Incomplete)];
      }
      loading := true;
      request := Some(NewSubmission(userId, "entrepreneur", title, description));
      effects := AfterWrite(error, Submitted, [CallOnSave, CallOnClose]);
      loading := false;
    }
  }
}
