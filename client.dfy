/**
 * The clients screen (screens/client/client.js): the list, the add/edit modal whose
 * `editingId` decides between PUT with an id and POST without, and the delete modal that
 * keeps the id to delete until it is confirmed or closed.
 */
module Client {
  import opened Wrappers
  import opened JsText
  import opened JsValues
  import opened JsNumbers
  import Http

  /** A client as the list gives it. */
  datatype ClientRecord = ClientRecord(id: JsValue, name: JsValue, firmName: JsValue, contact: JsValue,
                                       openingBalance: JsValue, address: JsValue, description: JsValue)

  /** The six inputs of the client form. */
  datatype ClientForm = ClientForm(name: string, firmName: string, contact: string,
                                   openingBalance: string, address: string, description: string)

  /** `form.reset()`: every input back to its empty default. */
  const BlankForm := ClientForm("", "", "", "", "", "")

  /** `value || ''` written into an input. */
  function OrEmpty(v: JsValue): (s: string)
    ensures !Truthy(v) ==> s == ""
    ensures Truthy(v) ==> s == ToString(v)
  {
    if Truthy(v) then ToString(v) else ""
  }

  /** The form `openModal(client)` fills, as its inputs read back (a `null` name leaves the input empty). */
  function FormOf(c: ClientRecord): ClientForm {
    ClientForm(InputText(c.name), OrEmpty(c.firmName), OrEmpty(c.contact),
               OrEmpty(c.openingBalance), OrEmpty(c.address), OrEmpty(c.description))
  }

  /** The JSON body of a save: `formData`, with `id` only in edit mode. */
  datatype ClientPayload = ClientPayload(id: Option<JsValue>, name: string, firmName: string, contact: string,
                                         openingBalance: string, address: string, description: string)

  datatype ClientRequest = ClientRequest(verb: Http.Method, body: ClientPayload)

  /**
   * What `handleSubmit` does with the form: every field trimmed; an empty name is an error
   * and nothing is sent; a truthy `editingId` means PUT with that id, anything else POST.
   */
  function SubmitRequest(editingId: JsValue, form: ClientForm): (r: Result<ClientRequest, string>)
    ensures r.Failure? <==> Trim(form.name) == ""
    ensures r.Failure? ==> r.error == "Name is required"
    ensures r.Success? ==> (r.value.verb == Http.Put <==> Truthy(editingId))
    ensures r.Success? ==> (r.value.verb == Http.Post <==> !Truthy(editingId))
    ensures r.Success? ==> (r.value.body.id == Some(editingId) <==> Truthy(editingId))
    ensures r.Success? ==> (r.value.body.id == None <==> !Truthy(editingId))
    ensures r.Success? ==> r.value.body == ClientPayload(r.value.body.id, Trim(form.name), Trim(form.firmName),
      Trim(form.contact), Trim(form.openingBalance), Trim(form.address), Trim(form.description))
  {
    var body := ClientPayload(None, Trim(form.name), Trim(form.firmName), Trim(form.contact),
                              Trim(form.openingBalance), Trim(form.address), Trim(form.description));
    if body.name == "" then Failure("Name is required")
    else if Truthy(editingId) then Success(ClientRequest(Http.Put, body.(id := Some(editingId))))
    else Success(ClientRequest(Http.Post, body))
  }

  /** What `confirmDelete` sends: nothing without a stored id, otherwise DELETE with that id. */
  function DeleteRequest(deleteId: Option<string>): (r: Option<string>)
    ensures r.Some? <==> Present(deleteId)
    ensures r.Some? ==> r == deleteId
  {
    if Present(deleteId) then deleteId else None
  }

  /** The clients screen's module state and the state of its two modals. */
  class ClientScreen {
    var clients: seq<ClientRecord>
    var editingId: JsValue
    var modalTitle: string
    var modalShown: bool
    var form: ClientForm
    var deleteId: Option<string>
    var deleteModalShown: bool

    constructor ()
      ensures clients == [] && editingId == Null && !modalShown && form == BlankForm
      ensures deleteId == None && !deleteModalShown
    {
      clients := [];
      editingId := Null;
      modalTitle := "";
      modalShown := false;
      form := BlankForm;
      deleteId := None;
      deleteModalShown := false;
    }

    /** `fetchClients` after the response: the list is replaced only on success. */
    method ReceiveClients(success: bool, data: seq<ClientRecord>, message: Option<string>) returns (error: Option<string>)
      modifies this
      ensures success ==> clients == data && error == None
      ensures !success ==> clients == old(clients)
      ensures !success ==> error == Some(if Present(message) then message.value else "Failed to fetch clients")
      ensures editingId == old(editingId) && form == old(form) && deleteId == old(deleteId)
      ensures modalShown == old(modalShown) && deleteModalShown == old(deleteModalShown)
      ensures modalTitle == old(modalTitle)
    {
      if success {
        clients := data;
        error := None;
      } else {
        error := Some(if Present(message) then message.value else "Failed to fetch clients");
      }
    }

    /** `openModal(client)`: edit mode for a client, add mode (and a reset form) without one. */
    method OpenModal(client: Option<ClientRecord>)
      modifies this
      ensures editingId == (if client.Some? then client.value.id else Null)
      ensures modalTitle == (if client.Some? then "Edit Client" else "Add New Client")
      ensures form == (if client.Some? then FormOf(client.value) else BlankForm)
      ensures modalShown
      ensures clients == old(clients) && deleteId == old(deleteId) && deleteModalShown == old(deleteModalShown)
    {
      editingId := if client.Some? then client.value.id else Null;
      modalTitle := if client.Some? then "Edit Client" else "Add New Client";
      if client.Some? {
        var c := client.value;
        form := ClientForm(InputText(c.name), OrEmpty(c.firmName), OrEmpty(c.contact),
                           OrEmpty(c.openingBalance), OrEmpty(c.address), OrEmpty(c.description));
      } else {
        form := BlankForm;
      }
      modalShown := true;
    }

    /** `closeModal`: the modal hides and edit mode ends. */
    method CloseModal()
      modifies this
      ensures !modalShown && editingId == Null
      ensures form == old(form) && modalTitle == old(modalTitle) && clients == old(clients)
      ensures deleteId == old(deleteId) && deleteModalShown == old(deleteModalShown)
    {
      modalShown := false;
      editingId := Null;
    }

    /** `handleSubmit`: the request for the current form and mode, or the error shown instead. */
    method HandleSubmit() returns (r: Result<ClientRequest, string>)
      ensures r == SubmitRequest(editingId, form)
    {
      var name := Trim(form.name);
      var body := ClientPayload(None, name, Trim(form.firmName), Trim(form.contact),
                                Trim(form.openingBalance), Trim(form.address), Trim(form.description));
      if name == "" {
        return Failure("Name is required");
      }
      if Truthy(editingId) {
        body := body.(id := Some(editingId));
      }
      var verb := if Truthy(editingId) then Http.Put else Http.Post;
      r := Success(ClientRequest(verb, body));
    }

    /** After a save: on success the modal closes (ending edit mode), otherwise an error is shown. */
    method OnSaveResponse(success: bool, message: Option<string>) returns (error: Option<string>)
      modifies this
      ensures success ==> error == None && !modalShown && editingId == Null
      ensures !success ==> error == Some(if Present(message) then message.value else "Operation failed")
      ensures !success ==> modalShown == old(modalShown) && editingId == old(editingId)
      ensures clients == old(clients) && form == old(form) && deleteId == old(deleteId)
      ensures deleteModalShown == old(deleteModalShown)
    {
      if success {
        CloseModal();
        error := None;
      } else {
        error := Some(if Present(message) then message.value else "Operation failed");
      }
    }

    /**
     * `handleEdit(id)`: the modal opens for the first listed client with that id, and nothing
     * happens when there is none. The lookup is the corrected `FindClientById`, which accepts
     * the id as a number or as its text; `FindClient` is the strict lookup as written.
     */
    method HandleEdit(id: int)
      modifies this
      ensures FindClientById(clients, id).None? ==>
        editingId == old(editingId) && form == old(form) && modalShown == old(modalShown) && modalTitle == old(modalTitle)
      ensures FindClientById(clients, id).Some? ==>
        editingId == FindClientById(clients, id).value.id && ToString(editingId) == IntToString(id)
        && form == FormOf(FindClientById(clients, id).value) && modalShown && modalTitle == "Edit Client"
      ensures clients == old(clients) && deleteId == old(deleteId) && deleteModalShown == old(deleteModalShown)
    {
      var client := FindClientById(clients, id);
      if client.Some? {
        OpenModal(client);
      }
    }

    /** `handleDelete(id)`: the delete modal shows and keeps the id, as a string (`dataset`). */
    method HandleDelete(id: int)
      modifies this
      ensures deleteModalShown && deleteId == Some(IntToString(id))
      ensures clients == old(clients) && editingId == old(editingId) && form == old(form)
      ensures modalShown == old(modalShown) && modalTitle == old(modalTitle)
    {
      deleteModalShown := true;
      deleteId := Some(IntToString(id));
    }

    /** `closeDeleteModal`: the modal hides and the stored id is removed. */
    method CloseDeleteModal()
      modifies this
      ensures !deleteModalShown && deleteId == None
      ensures clients == old(clients) && editingId == old(editingId) && form == old(form)
      ensures modalShown == old(modalShown) && modalTitle == old(modalTitle)
    {
      deleteModalShown := false;
      deleteId := None;
    }

    /** `confirmDelete`: the id to send, or nothing when no id is stored. */
    method ConfirmDelete() returns (r: Option<string>)
      ensures r == DeleteRequest(deleteId)
    {
      if deleteId.None? || deleteId.value == "" {
        return None;
      }
      r := deleteId;
    }

    /** After a delete: on success the delete modal closes, otherwise an error is shown. */
    method OnDeleteResponse(success: bool, message: Option<string>) returns (error: Option<string>)
      modifies this
      ensures success ==> error == None && !deleteModalShown && deleteId == None
      ensures !success ==> error == Some(if Present(message) then message.value else "Failed to delete client")
      ensures !success ==> deleteModalShown == old(deleteModalShown) && deleteId == old(deleteId)
      ensures clients == old(clients) && editingId == old(editingId) && form == old(form)
      ensures modalShown == old(modalShown)
    {
      if success {
        CloseDeleteModal();
        error := None;
      } else {
        error := Some(if Present(message) then message.value else "Failed to delete client");
      }
    }
  }

  /** `clients.find(c => c.id === id)`: strict equality with the number from the button. */
  function FindClient(clients: seq<ClientRecord>, id: int): (r: Option<ClientRecord>)
    ensures r.Some? ==> r.value in clients && r.value.id == Int(id)
    ensures r.None? <==> forall k :: 0 <= k < |clients| ==> clients[k].id != Int(id)
  {
    if clients == [] then None
    else if clients[0].id == Int(id) then Some(clients[0])
    else
      var r := FindClient(clients[1..], id);
      assert forall k :: 1 <= k < |clients| ==> clients[k] == clients[1..][k - 1];
      r
  }

  /**
   * As written, clients whose ids come as strings (as a database driver commonly returns
   * them) can never be opened for editing from their button: the number never strictly
   * equals the text.
   */
  lemma StringIdsNeverEdit(clients: seq<ClientRecord>, id: int)
    requires forall k :: 0 <= k < |clients| ==> clients[k].id.Str?
    ensures FindClient(clients, id) == None
  {
  }

  /** The corrected lookup: `clients.find(c => String(c.id) === String(id))`. */
  function FindClientById(clients: seq<ClientRecord>, id: int): (r: Option<ClientRecord>)
    ensures r.Some? ==> r.value in clients && ToString(r.value.id) == IntToString(id)
    ensures r.None? <==> forall k :: 0 <= k < |clients| ==> ToString(clients[k].id) != IntToString(id)
  {
    if clients == [] then None
    else if ToString(clients[0].id) == IntToString(id) then Some(clients[0])
    else
      var r := FindClientById(clients[1..], id);
      assert forall k :: 1 <= k < |clients| ==> clients[k] == clients[1..][k - 1];
      r
  }

  /** The corrected lookup finds a client whose id is the number, or the number's text. */
  lemma NumberOrTextIdFound(c: ClientRecord, rest: seq<ClientRecord>, id: int)
    requires c.id == Int(id) || c.id == Str(IntToString(id))
    ensures FindClientById([c] + rest, id) == Some(c)
  {
  }

  /** Whenever the strict lookup finds a client, the corrected one finds one too. */
  lemma {:induction false} CorrectedFindsWhatStrictFinds(clients: seq<ClientRecord>, id: int)
    requires FindClient(clients, id).Some?
    ensures FindClientById(clients, id).Some?
  {
    var k :| 0 <= k < |clients| && clients[k].id == Int(id);
    assert ToString(clients[k].id) == IntToString(id);
  }

  /**
   * Opening a client and saving it unchanged sends PUT with its id when the id is truthy,
   * with every field trimmed once (trimming what is already trimmed changes nothing).
   */
  lemma EditThenSubmit(c: ClientRecord)
    requires Truthy(c.id) && Trim(InputText(c.name)) != ""
    ensures SubmitRequest(c.id, FormOf(c)).Success?
    ensures SubmitRequest(c.id, FormOf(c)).value.verb == Http.Put
    ensures SubmitRequest(c.id, FormOf(c)).value.body.id == Some(c.id)
    ensures SubmitRequest(c.id, SubmitForm(SubmitRequest(c.id, FormOf(c)).value.body)) == SubmitRequest(c.id, FormOf(c))
  {
    var body := SubmitRequest(c.id, FormOf(c)).value.body;
    TrimIdempotent(InputText(c.name));
    TrimIdempotent(OrEmpty(c.firmName));
    TrimIdempotent(OrEmpty(c.contact));
    TrimIdempotent(OrEmpty(c.openingBalance));
    TrimIdempotent(OrEmpty(c.address));
    TrimIdempotent(OrEmpty(c.description));
  }

  /** The form a saved body would fill again: the sent values put back into the inputs. */
  function SubmitForm(b: ClientPayload): ClientForm {
    ClientForm(b.name, b.firmName, b.contact, b.openingBalance, b.address, b.description)
  }

  /** A freshly reset form (add mode, or after closing) is refused for its empty name. */
  lemma BlankFormRefused(editingId: JsValue)
    ensures SubmitRequest(editingId, BlankForm) == Failure("Name is required")
  {
    assert Trim("") == "";
  }

  /** After the modal closes, a save is a POST without an id. */
  lemma ClosedModalPosts(form: ClientForm)
    requires Trim(form.name) != ""
    ensures SubmitRequest(Null, form).Success? && SubmitRequest(Null, form).value.verb == Http.Post
    ensures SubmitRequest(Null, form).value.body.id == None
  {
  }

  /**
   * `handleViewDetails(id)`: the id is stored in `localStorage` as its decimal text, which
   * the details page sends as `client_id` and which reads back as the clicked number.
   */
  function StoredClientId(id: int): (r: string)
    ensures ParseInt(r) == Some(id)
  {
    ParseIntOfIntToString(id);
    IntToString(id)
  }

  /** The id kept by `handleDelete` reads back as the clicked number; after closing, nothing is sent. */
  lemma DeleteIdRoundTrip(id: int)
    ensures DeleteRequest(Some(IntToString(id))).Some?
    ensures ParseInt(DeleteRequest(Some(IntToString(id))).value) == Some(id)
    ensures DeleteRequest(None) == None
  {
    ParseIntOfIntToString(id);
  }
}
