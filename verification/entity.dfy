/** The to-do entities the SMS handler reads and writes. Nullable `long?`
    identities are Option<int>; a DateTime is an opaque int. */
module Entity {
  import opened Wrappers

  class TodoTask {
    var TaskID: Option<int>
    var TaskName: string
    var ListID: Option<int>
    var Description: string
    var Colour: string

    /** `new TodoTask { TaskName, Description, Colour, ListID }`: the
        identity is left null until the task is saved. */
    constructor (taskName: string, description: string, colour: string, listID: Option<int>)
      ensures TaskID == None && TaskName == taskName && Description == description
      ensures Colour == colour && ListID == listID
    {
      TaskID := None;
      TaskName := taskName;
      Description := description;
      Colour := colour;
      ListID := listID;
    }

    /** This task already holds every field LoadFrom copies from `other`. */
    predicate Mirrors(other: TodoTask)
      reads this, other
    {
      ListID == other.ListID && TaskName == other.TaskName &&
      Description == other.Description && Colour == other.Colour
    }

    /** Copies the four editable fields of `other`; the identity stays. A
        second call with the same `other` changes nothing. */
    method LoadFrom(other: TodoTask)
      modifies this
      ensures ListID == old(other.ListID) && TaskName == old(other.TaskName)
      ensures Description == old(other.Description) && Colour == old(other.Colour)
      ensures TaskID == old(TaskID)
      ensures unchanged(other)
      ensures Mirrors(other)
      ensures old(Mirrors(other)) ==> unchanged(this)
    {
      this.ListID := other.ListID;
      this.TaskName := other.TaskName;
      this.Description := other.Description;
      this.Colour := other.Colour;
    }
  }

  class TodoList {
    var ListID: Option<int>
    var ListName: string
    var DateCreated: int
    /** Whether the list is shown on the left-hand side of the application. */
    var LeftPositoned: bool
    var UserID: int
    /** The list's tasks; None is a null collection. */
    var TodoTasks: Option<seq<TodoTask>>

    /** `new TodoList { ListName, DateCreated, UserID, LeftPositoned }`: the
        identity and the task collection are left null. */
    constructor (listName: string, dateCreated: int, userID: int, leftPositoned: bool)
      ensures ListID == None && TodoTasks == None
      ensures ListName == listName && DateCreated == dateCreated
      ensures UserID == userID && LeftPositoned == leftPositoned
    {
      ListID := None;
      ListName := listName;
      DateCreated := dateCreated;
      UserID := userID;
      LeftPositoned := leftPositoned;
      TodoTasks := None;
    }

    /** This list already holds every field LoadFrom copies from `other`. */
    predicate Mirrors(other: TodoList)
      reads this, other
    {
      UserID == other.UserID && ListName == other.ListName &&
      DateCreated == other.DateCreated && LeftPositoned == other.LeftPositoned &&
      TodoTasks == other.TodoTasks
    }

    /** Copies the owner, name, creation date and position of `other`, and a
        copy of its task collection (the same tasks in the same order); the
        identity stays. Copying a null collection throws, hence the
        precondition. */
    method LoadFrom(other: TodoList)
      requires other.TodoTasks.Some?
      modifies this
      ensures UserID == old(other.UserID) && ListName == old(other.ListName)
      ensures DateCreated == old(other.DateCreated) && LeftPositoned == old(other.LeftPositoned)
      ensures TodoTasks == old(other.TodoTasks)
      ensures ListID == old(ListID)
      ensures unchanged(other)
      ensures Mirrors(other)
      ensures old(Mirrors(other)) ==> unchanged(this)
    {
      this.UserID := other.UserID;
      this.ListName := other.ListName;
      this.DateCreated := other.DateCreated;
      this.LeftPositoned := other.LeftPositoned;
      this.TodoTasks := Some(other.TodoTasks.value);
    }
  }
}
