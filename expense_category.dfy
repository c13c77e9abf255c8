/**
 * The expense categories screen (screens/expenseCategory/expenseCategory.js): edit mode
 * lives in the hidden `ec-id` input, which decides between PUT `{id, name}` and POST
 * `{name}`; the form's button and Cancel button follow the mode; deleting asks first.
 */
module ExpenseCategory {
  import opened Wrappers
  import opened JsText
  import Http

  /** The JSON body of a save: `{id, name}` in edit mode, `{name}` otherwise. */
  datatype CategoryPayload = CategoryPayload(id: Option<string>, name: string)

  datatype CategoryRequest = CategoryRequest(verb: Http.Method, body: CategoryPayload)

  /**
   * What `handleFormSubmit` sends for the hidden id and the name input: the trimmed name
   * is required; a non-empty id means PUT with it, an empty one POST without.
   */
  function SubmitRequest(idField: string, nameInput: string): (r: Result<CategoryRequest, string>)
    ensures r.Failure? <==> Trim(nameInput) == ""
    ensures r.Failure? ==> r.error == "Name is required"
    ensures r.Success? ==> r.value.body.name == Trim(nameInput)
    ensures r.Success? ==> (r.value.verb == Http.Put <==> idField != "")
    ensures r.Success? ==> (r.value.verb == Http.Post <==> idField == "")
    ensures r.Success? ==> r.value.body.id == (if idField != "" then Some(idField) else None)
  {
    var name := Trim(nameInput);
    if name == "" then Failure("Name is required")
    else if idField != "" then Success(CategoryRequest(Http.Put, CategoryPayload(Some(idField), name)))
    else Success(CategoryRequest(Http.Post, CategoryPayload(None, name)))
  }

  /** The form: hidden id, name input, submit button text, Cancel button, error line. */
  class CategoryForm {
    var idField: string
    var nameInput: string
    var submitText: string
    var cancelShown: bool
    var errorText: string
    var errorShown: bool

    /** The form as `renderLayout` writes it: empty, `Add`, no Cancel, no error. */
    constructor ()
      ensures idField == "" && nameInput == "" && submitText == "Add" && !cancelShown && !errorShown
      ensures ModeShown(idField, submitText, cancelShown)
    {
      idField := "";
      nameInput := "";
      submitText := "Add";
      cancelShown := false;
      errorText := "";
      errorShown := false;
    }

    /** `handleFormSubmit`: the error line shows the refusal, or is hidden and the request goes out. */
    method HandleFormSubmit() returns (r: Result<CategoryRequest, string>)
      modifies this
      ensures r == SubmitRequest(old(idField), old(nameInput))
      ensures r.Failure? ==> errorShown && errorText == r.error
      ensures r.Success? ==> !errorShown && errorText == ""
      ensures idField == old(idField) && nameInput == old(nameInput)
      ensures submitText == old(submitText) && cancelShown == old(cancelShown)
    {
      var name := Trim(nameInput);
      var id := idField;
      if name == "" {
        errorText, errorShown := "Name is required", true;
        return Failure("Name is required");
      }
      errorText, errorShown := "", false;
      var verb := if id != "" then Http.Put else Http.Post;
      var body := if id != "" then CategoryPayload(Some(id), name) else CategoryPayload(None, name);
      r := Success(CategoryRequest(verb, body));
    }

    /** `handleEdit`: the row's id and name go into the form, the button reads `Update`, Cancel shows. */
    method HandleEdit(id: string, name: string)
      modifies this
      ensures idField == id && nameInput == name && submitText == "Update" && cancelShown
      ensures id != "" ==> ModeShown(idField, submitText, cancelShown)
      ensures errorText == old(errorText) && errorShown == old(errorShown)
    {
      idField := id;
      nameInput := name;
      submitText := "Update";
      cancelShown := true;
    }

    /** `resetForm`: back to add mode, empty, `Add`, no Cancel. */
    method ResetForm()
      modifies this
      ensures idField == "" && nameInput == "" && submitText == "Add" && !cancelShown
      ensures ModeShown(idField, submitText, cancelShown)
      ensures errorText == old(errorText) && errorShown == old(errorShown)
    {
      idField := "";
      nameInput := "";
      submitText := "Add";
      cancelShown := false;
    }

    /** The response to a save: success resets the form, failure shows the message or `Error`. */
    method OnSaveResponse(success: bool, message: Option<string>)
      modifies this
      ensures success ==> idField == "" && nameInput == "" && submitText == "Add" && !cancelShown
      ensures success ==> errorText == old(errorText) && errorShown == old(errorShown)
      ensures !success ==> errorShown && errorText == (if message.Some? && message.value != "" then message.value else "Error")
      ensures !success ==> (idField == old(idField) && nameInput == old(nameInput)
        && submitText == old(submitText) && cancelShown == old(cancelShown))
    {
      if success {
        ResetForm();
      } else {
        errorText := if message.Some? && message.value != "" then message.value else "Error";
        errorShown := true;
      }
    }
  }

  /**
   * The submit button and Cancel agree with the hidden id: `Update` and Cancel in edit
   * mode, `Add` and no Cancel otherwise.
   */
  predicate ModeShown(idField: string, submitText: string, cancelShown: bool) {
    (idField != "" ==> submitText == "Update" && cancelShown)
    && (idField == "" ==> submitText == "Add" && !cancelShown)
  }

  /** `handleDelete`: nothing without confirmation; otherwise DELETE with the row's id. */
  function DeleteRequest(confirmed: bool, id: string): (r: Option<string>)
    ensures r.Some? <==> confirmed
    ensures r.Some? ==> r.value == id
  {
    if !confirmed then None else Some(id)
  }

  /** Editing a row with an id and a name, then saving, sends PUT `{id, name}` with the name trimmed. */
  lemma EditThenSubmit(id: string, name: string)
    requires id != "" && Trim(name) != ""
    ensures SubmitRequest(id, name) == Success(CategoryRequest(Http.Put, CategoryPayload(Some(id), Trim(name))))
  {
  }

  /** After a reset, a save is a POST of the name alone, or the name error. */
  lemma ResetThenSubmit(name: string)
    ensures Trim(name) != "" ==> SubmitRequest("", name) == Success(CategoryRequest(Http.Post, CategoryPayload(None, Trim(name))))
    ensures SubmitRequest("", "") == Failure("Name is required")
  {
    assert Trim("") == "";
  }
}
