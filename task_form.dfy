/**
 * The new-task dialog.  The app mounts it only while its open flag is set,
 * so closing unmounts it and every opening starts from the blank form; a
 * submit with a title that is blank after trimming does nothing, any other
 * submit hands the fields to `onSubmit` exactly as typed and closes.
 */
module TaskForm {
  import opened Wrappers
  import opened Types
  import JsText
  import TaskManager

  datatype FormData = FormData(title: string, description: string, status: Status, priority: Priority)

  const Blank: FormData := FormData("", "", Todo, Medium)

  /** `if (formData.title.trim())` */
  predicate Submittable(f: FormData) {
    JsText.Trim(f.title) != ""
  }

  /** A title passes the check exactly when it holds a character that is not white space. */
  lemma SubmittableIff(f: FormData)
    ensures Submittable(f) <==> exists i :: 0 <= i < |f.title| && !JsText.IsWhitespace(f.title[i])
  {
    JsText.TrimEmptyIff(f.title);
  }

  /** What `onSubmit` passes on to `addTask`: the form fields, with no completedAt. */
  function ToTaskData(f: FormData): (d: TaskManager.TaskData)
    ensures d.title == f.title && d.description == f.description
    ensures d.status == f.status && d.priority == f.priority && d.completedAt.None?
  {
    TaskManager.TaskData(f.title, f.description, f.status, f.priority, None)
  }

  /**
   * A task created from the dialog with status "completed" carries no
   * completedAt, because `addTask` copies the caller's fields and only
   * `updateTask` derives completedAt.
   */
  lemma CompletedFromFormHasNoTimestamp(f: FormData, now: Timestamp, r1: real, r2: real, r3: real)
    requires TaskManager.InUnit(r1) && TaskManager.InUnit(r2) && TaskManager.InUnit(r3)
    ensures var t := TaskManager.NewTask(ToTaskData(f), now, r1, r2, r3);
      t.title == f.title && t.status == f.status && t.completedAt.None?
  {
    TaskManager.NewTaskFields(ToTaskData(f), now, r1, r2, r3);
  }

  /**
   * The dialog's markup, or nothing while `isOpen` is false.  The app only
   * mounts the dialog with `isOpen` set, so it never takes the empty branch.
   */
  function Render(isOpen: bool, f: FormData): (r: Option<FormData>)
    ensures r.None? <==> !isOpen
    ensures r.Some? ==> r.value == f
  {
    if isOpen then Some(f) else None
  }

  /**
   * The app's `isTaskFormOpen` flag together with the fields of the dialog
   * it mounts while the flag is set.  While closed there is no mounted
   * dialog, which the blank form stands for.
   */
  class Dialog {
    var isOpen: bool
    var form: FormData

    ghost predicate Valid()
      reads this
    {
      !isOpen ==> form == Blank
    }

    constructor ()
      ensures !isOpen && form == Blank && Valid()
    {
      isOpen := false;
      form := Blank;
    }

    /** New Task: the flag is set and a fresh dialog mounts with its initial `useState` form. */
    method Open()
      modifies this
      ensures isOpen && form == Blank && Valid()
    {
      isOpen := true;
      form := Blank;
    }

    method EditTitle(title: string)
      requires isOpen
      modifies this
      ensures isOpen && form == old(form).(title := title)
    {
      form := form.(title := title);
    }

    method EditDescription(description: string)
      requires isOpen
      modifies this
      ensures isOpen && form == old(form).(description := description)
    {
      form := form.(description := description);
    }

    method EditStatus(status: Status)
      requires isOpen
      modifies this
      ensures isOpen && form == old(form).(status := status)
    {
      form := form.(status := status);
    }

    method EditPriority(priority: Priority)
      requires isOpen
      modifies this
      ensures isOpen && form == old(form).(priority := priority)
    {
      form := form.(priority := priority);
    }

    /**
     * `handleSubmit`: `submitted` is what `onSubmit` receives, if it is
     * called; `onClose` then clears the flag and the dialog unmounts.
     */
    method Submit() returns (submitted: Option<FormData>)
      requires isOpen
      modifies this
      ensures submitted.Some? <==> Submittable(old(form))
      ensures submitted.Some? ==> submitted.value == old(form) && !isOpen && form == Blank
      ensures submitted.None? ==> isOpen && form == old(form)
      ensures Valid()
    {
      if JsText.Trim(form.title) != "" {
        submitted := Some(form);
        isOpen := false;
        form := Blank;
      } else {
        submitted := None;
      }
    }

    /**
     * The close button, the backdrop and Cancel call `onClose`: the flag is
     * cleared and the dialog unmounts, so whatever was typed is lost.
     */
    method Cancel()
      modifies this
      ensures !isOpen && form == Blank && Valid()
    {
      isOpen := false;
      form := Blank;
    }
  }

  /**
   * A title with leading white space is checked trimmed but submitted as
   * typed: the task keeps the padding.
   */
  lemma PaddedTitleSentAsTyped(title: string)
    requires |title| >= 2 && JsText.IsWhitespace(title[0]) && !JsText.IsWhitespace(title[1])
    ensures Submittable(Blank.(title := title))
    ensures ToTaskData(Blank.(title := title)).title == title != JsText.Trim(title)
  {
    SubmittableIff(Blank.(title := title));
  }
}
