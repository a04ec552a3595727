/** The student idea form: a title and a description, inserted as an approved
    `student` submission. */
module StudentForm {
  import opened JsText
  import opened Backend

  const Incomplete := "Please provide a title and description for your idea."
  const Submitted := "Your idea has been submitted and is now live on the Ideas page!"

  /** The form's state. */
  class IdeaForm {
    var title: string
    var description: string
    var loading: bool

    constructor ()
      ensures title == "" && description == "" && !loading
    {
      title := "";
      description := "";
      loading := false;
    }

    /** The two inputs. */
    method Edit(newTitle: string, newDescription: string)
      modifies this`title, this`description
      ensures title == newTitle && description == newDescription
    {
      title := newTitle;
      description := newDescription;
    }

    /** `handleSubmit` for the signed-in user, given the error the insert resolves with. An
        empty title or description stops it before the store; the callbacks run, save first,
        only when the insert succeeds. */
    method HandleSubmit(userId: string, error: Option<StoreError>)
      returns (request: Option<SubmissionInsert>, effects: seq<Effect>)
      modifies this`loading
      ensures request.Some? <==> title != "" && description != ""
      ensures (title == "" || description == "") ==> effects == [Alert(Incomplete)] && loading == old(loading)
      ensures title != "" && description != "" ==>
        && request == Some(NewSubmission(userId, "student", title, description))
        && effects == AfterWrite(error, Submitted, [CallOnSave, CallOnClose])
        && !loading
    {
      if title == "" || description == "" {
        return None, [Alert(Incomplete)];
      }
      loading := true;
      request := Some(NewSubmission(userId, "student", title, description));
      effects := AfterWrite(error, Submitted, [CallOnSave, CallOnClose]);
      loading := false;
    }
  }
}
