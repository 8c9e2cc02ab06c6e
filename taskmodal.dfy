/** The create-task dialog: a five-field form that is reset whenever the
    dialog opens, and a submit that turns the form into the payload the
    page's `onCreate` receives and then closes the dialog. The browser's
    `new Date(s).toDateString()` is a function passed in. */
module TaskModal {
  import opened Common

  /** The form; `completed` holds the select's value, "yes" or "no". */
  datatype TaskForm = TaskForm(title: string, description: string, priority: string, dueDate: string, completed: string)

  datatype TaskField = TitleField | DescriptionField | PriorityField | DueDateField | CompletedField

  /** The object handed to `onCreate`. */
  datatype TaskPayload = TaskPayload(title: string, desc: string, priority: string, when: string, completed: bool)

  const BlankForm := TaskForm("", "", "low", "", "no")

  /** The payload built from a form: trimmed title and description, the
      priority as selected, the due date as a date string or "Today", and
      `completed` exactly when "yes" is selected. */
  function PayloadOf(form: TaskForm, toDateString: string -> string): (p: TaskPayload)
    ensures p.title == Trim(JavaScript, form.title) && p.desc == Trim(JavaScript, form.description)
    ensures p.priority == form.priority
    ensures form.dueDate == "" ==> p.when == "Today"
    ensures form.dueDate != "" ==> p.when == toDateString(form.dueDate)
    ensures p.completed <==> form.completed == "yes"
  {
    TaskPayload(Trim(JavaScript, form.title), Trim(JavaScript, form.description), form.priority,
                if form.dueDate != "" then toDateString(form.dueDate) else "Today",
                form.completed == "yes")
  }

  class TaskModalDialog {
    var form: TaskForm

    constructor ()
      ensures form == BlankForm
    {
      form := BlankForm;
    }

    /** The effect run when the dialog opens. */
    method Open()
      modifies this
      ensures form == BlankForm
    {
      form := TaskForm("", "", "low", "", "no");
    }

    /** `handleChange`: one field takes the new value. */
    method HandleChange(field: TaskField, value: string)
      modifies this
      ensures form == match field
        case TitleField => old(form).(title := value)
        case DescriptionField => old(form).(description := value)
        case PriorityField => old(form).(priority := value)
        case DueDateField => old(form).(dueDate := value)
        case CompletedField => old(form).(completed := value)
    {
      match field {
        case TitleField => form := form.(title := value);
        case DescriptionField => form := form.(description := value);
        case PriorityField => form := form.(priority := value);
        case DueDateField => form := form.(dueDate := value);
        case CompletedField => form := form.(completed := value);
      }
    }

    /** `handleSubmit`: nothing happens for a blank trimmed title;
        otherwise `onCreate` gets the payload and then `onClose` runs. The
        calls are returned in the order they are made. */
    method HandleSubmit(toDateString: string -> string) returns (created: Option<TaskPayload>, closes: bool)
      ensures Trim(JavaScript, form.title) == "" ==> created.None? && !closes
      ensures Trim(JavaScript, form.title) != "" ==> created == Some(PayloadOf(form, toDateString)) && closes
      ensures created.Some? ==> created.value.title != ""
    {
      if Trim(JavaScript, form.title) == "" {
        return None, false;
      }
      created := Some(PayloadOf(form, toDateString));
      closes := true;
    }
  }

  /** A title of only whitespace never reaches `onCreate`. */
  lemma {:induction false} BlankTitleIgnored(form: TaskForm)
    requires AllSpace(JavaScript, form.title)
    ensures Trim(JavaScript, form.title) == ""
  {
    TrimEmptyIff(JavaScript, form.title);
  }

  /** Submitting the freshly reset form with only a title typed creates a
      low-priority, open task due "Today" with an empty description. */
  lemma {:induction false} DefaultPayload(title: string, toDateString: string -> string)
    ensures PayloadOf(BlankForm.(title := title), toDateString)
         == TaskPayload(Trim(JavaScript, title), "", "low", "Today", false)
  {
    TrimEmptyIff(JavaScript, "");
  }
}
