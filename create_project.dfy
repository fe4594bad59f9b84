/** The project creation form (src/pages/CreateProject.js). */
module CreateProject {
  import opened Common
  import opened Records
  import opened Text

  const FillAllFields := "Please fill out all fields."
  const ProjectCreated := "\U{2705} Project created successfully."
  const CreateFailed := "\U{274C} Failed to create project: "

  /** The two fields pass the check: neither is blank once trimmed. */
  predicate Filled(title: string, description: string) {
    Trim(title) != "" && Trim(description) != ""
  }

  /** A field passes exactly when it has a character that is not white space. */
  lemma FilledIff(title: string, description: string)
    ensures Filled(title, description) <==>
            (exists i :: 0 <= i < |title| && !IsSpace(title[i])) &&
            (exists i :: 0 <= i < |description| && !IsSpace(description[i]))
  {
    TrimEmptyIff(title);
    TrimEmptyIff(description);
  }

  /** The inserted row: the fields as typed, untrimmed, and `user?.id`. */
  function ProjectRow(title: string, description: string, user: Option<User>): (row: NewProject)
    ensures row.title == title && row.description == description
    ensures user.None? ==> row.createdBy.None?
    ensures user.Some? ==> row.createdBy == Some(user.value.id)
  {
    NewProject(title, description, match user case None => None case Some(u) => Some(u.id))
  }

  /** The form's state; `user` is the session store's user. */
  class CreateProjectForm {
    const user: Option<User>
    var title: string
    var description: string
    var effects: seq<Effect>

    constructor (user: Option<User>)
      ensures this.user == user && title == "" && description == "" && effects == []
    {
      this.user := user;
      title, description, effects := "", "", [];
    }

    /** `handleCreate`, with the insert's outcome as input. */
    method HandleCreate(insert: Remote<()>)
      modifies this
      ensures title == old(title) && description == old(description)
      ensures !Filled(title, description) ==> effects == old(effects) + [Notify(FillAllFields)]
      ensures Filled(title, description) && insert.Ok? ==>
                effects == old(effects) + [Send(InsertProject(ProjectRow(title, description, user))),
                                           Notify(ProjectCreated),
                                           Navigate("/projects")]
      ensures Filled(title, description) && insert.Err? ==>
                effects == old(effects) + [Send(InsertProject(ProjectRow(title, description, user))),
                                           Notify(CreateFailed + insert.message)]
    {
      if !Filled(title, description) {
        effects := effects + [Notify(FillAllFields)];
        return;
      }
      var sent := Send(InsertProject(ProjectRow(title, description, user)));
      if insert.Ok? {
        effects := effects + [sent, Notify(ProjectCreated), Navigate("/projects")];
      } else {
        effects := effects + [sent, Notify(CreateFailed + insert.message)];
      }
    }
  }
}
