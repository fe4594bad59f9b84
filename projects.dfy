/** The project list (src/pages/Projects.js): the fetch and the local removal. */
module Projects {
  import opened Common
  import opened Records

  /** The page's state, and what its handlers did outside it. */
  class ProjectsPage {
    var projects: seq<Project>
    var effects: seq<Effect>

    constructor ()
      ensures projects == [] && effects == []
    {
      projects, effects := [], [];
    }

    /** `fetchProjects`: a successful query replaces the list, a failed one leaves it. */
    method FetchProjects(res: Remote<seq<Project>>)
      modifies this
      ensures projects == (if res.Ok? then res.data else old(projects))
      ensures effects == old(effects) + [Send(SelectProjects)]
    {
      effects := effects + [Send(SelectProjects)];
      if res.Ok? {
        projects := res.data;
      }
    }

    /** `handleDelete`, with the confirmation answer and the delete's outcome as
        inputs. */
    method HandleDelete(id: Id, confirmed: bool, outcome: Remote<()>)
      modifies this
      ensures !confirmed ==> projects == old(projects) && effects == old(effects)
      ensures confirmed && outcome.Ok? ==>
                projects == RemoveById(old(projects), ProjectIdOf(), id) &&
                effects == old(effects) + [Send(DeleteProject(id)),
                                           Notify("\U{2705} Project deleted successfully.")]
      ensures confirmed && outcome.Err? ==>
                projects == old(projects) &&
                effects == old(effects) + [Send(DeleteProject(id)),
                                           Notify("\U{274C} Failed to delete: " + outcome.message)]
    {
      if !confirmed {
        return;
      }
      effects := effects + [Send(DeleteProject(id))];
      if outcome.Ok? {
        projects := RemoveById(projects, ProjectIdOf(), id);
        effects := effects + [Notify("\U{2705} Project deleted successfully.")];
      } else {
        effects := effects + [Notify("\U{274C} Failed to delete: " + outcome.message)];
      }
    }
  }
}
