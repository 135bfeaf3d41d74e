/**
 * The dashboard's "create workspace" dialog: two fields that are cleared
 * whenever it opens, a submit button enabled only for two non-blank fields,
 * and a submission that sends the trimmed fields and closes the dialog once
 * the creation is answered.
 */
module CreateWorkspaceModal {
  import opened Wrappers
  import opened Text

  /** The submit button's `disabled`: while a creation runs, or while either field is blank. */
  predicate SubmitBlocked(loading: bool, name: string, clientName: string) {
    loading || Trim(name) == "" || Trim(clientName) == ""
  }

  /** The button is enabled exactly when nothing is loading and the submission would go through. */
  lemma SubmitEnabledIff(loading: bool, name: string, clientName: string)
    ensures !SubmitBlocked(loading, name, clientName)
      <==> !loading && TrimmedFields(name, clientName).Some?
  {
  }

  /** The dialog's state; `open` is the parent's flag, which `onClose` clears. */
  class Modal {
    var open: bool
    var name: string
    var clientName: string
    var loading: bool

    constructor (open: bool)
      ensures this.open == open && name == "" && clientName == "" && !loading
    {
      this.open := open;
      name := "";
      clientName := "";
      loading := false;
    }

    /** Nothing is rendered while closed. */
    predicate Rendered()
      reads this
    {
      open
    }

    predicate SubmitDisabled()
      reads this
    {
      SubmitBlocked(loading, name, clientName)
    }

    /** The parent changes `open`; a change to open clears both fields. */
    method SetOpen(open: bool)
      modifies this`open, this`name, this`clientName
      ensures this.open == open
      ensures open && !old(this.open) ==> name == "" && clientName == ""
      ensures !(open && !old(this.open)) ==> name == old(name) && clientName == old(clientName)
    {
      if open && !this.open {
        name := "";
        clientName := "";
      }
      this.open := open;
    }

    method SetFields(name: string, clientName: string)
      modifies this`name, this`clientName
      ensures this.name == name && this.clientName == clientName
    {
      this.name := name;
      this.clientName := clientName;
    }

    /** Escape, the backdrop, the close button and Cancel all call `onClose`. */
    method Close()
      modifies this`open
      ensures !open
    {
      open := false;
    }

    /**
     * `handleSubmit` up to the creation: nothing when either trimmed field is
     * blank, otherwise loading starts and the trimmed fields are sent.
     */
    method HandleSubmit() returns (create: Option<(string, string)>)
      modifies this`loading
      ensures create == TrimmedFields(name, clientName)
      ensures create.None? ==> loading == old(loading)
      ensures create.Some? ==> loading
      ensures !old(SubmitDisabled()) ==> create.Some?
    {
      create := TrimmedFields(name, clientName);
      if create.Some? {
        loading := true;
      }
    }

    /** The creation was answered: loading ends and the dialog closes. */
    method CreateDone()
      modifies this`loading, this`open
      ensures !loading && !open && !Rendered()
    {
      loading := false;
      open := false;
    }
  }
}
