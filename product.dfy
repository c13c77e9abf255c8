/**
 * The products screen (screens/product/product.js): the add/update form whose module-level
 * `editingId` decides between PUT with the id and POST without, the weight check, and the
 * reset after a successful save, and the delete confirmation.
 */
module Product {
  import opened Wrappers
  import opened JsText
  import opened JsValues
  import opened JsNumbers
  import Http

  /** A product as the list gives it to `handleEdit`. */
  datatype ProductRecord = ProductRecord(id: JsValue, name: JsValue, weight: JsValue)

  /** The JSON body of a save: `{id, name, weight}` when editing, `{name, weight}` otherwise. */
  datatype ProductPayload = ProductPayload(id: Option<JsValue>, name: string, weight: JsNumber)

  datatype ProductRequest = ProductRequest(verb: Http.Method, body: ProductPayload)

  /**
   * What `handleAddProduct` sends for the two inputs: both trimmed and required, the
   * weight read by `parseFloat` and refused only when that gives `NaN`.
   */
  function SaveRequest(editingId: JsValue, nameInput: string, weightInput: string): (r: Result<ProductRequest, string>)
    ensures r == Failure("Please enter product name and weight") <==> Trim(nameInput) == "" || Trim(weightInput) == ""
    ensures r == Failure("Weight must be a valid number") <==>
      Trim(nameInput) != "" && Trim(weightInput) != "" && ParseFloat(Trim(weightInput)) == NaN
    ensures r.Success? ==> r.value.body.name == Trim(nameInput) && r.value.body.weight == ParseFloat(Trim(weightInput))
    ensures r.Success? ==> r.value.body.weight != NaN
    ensures r.Success? ==> (r.value.verb == Http.Put <==> Truthy(editingId))
    ensures r.Success? ==> (r.value.verb == Http.Post <==> !Truthy(editingId))
    ensures r.Success? ==> r.value.body.id == (if Truthy(editingId) then Some(editingId) else None)
  {
    var name := Trim(nameInput);
    var weight := Trim(weightInput);
    if name == "" || weight == "" then Failure("Please enter product name and weight")
    else
      var weightValue := ParseFloat(weight);
      if weightValue == NaN then Failure("Weight must be a valid number")
      else if Truthy(editingId) then Success(ProductRequest(Http.Put, ProductPayload(Some(editingId), name, weightValue)))
      else Success(ProductRequest(Http.Post, ProductPayload(None, name, weightValue)))
  }

  /** The form's inputs, its button and the edit mode. */
  class ProductScreen {
    var editingId: JsValue
    var nameInput: string
    var weightInput: string
    var buttonText: string
    /** Whether the delete confirmation is on screen. */
    var confirmShown: bool
    /** The id the confirm button's current `onclick` would delete; none before any delete click. */
    var pendingDelete: Option<int>

    constructor ()
      ensures editingId == Null && nameInput == "" && weightInput == "" && buttonText == "Add Product"
      ensures !confirmShown && pendingDelete == None
    {
      editingId := Null;
      nameInput := "";
      weightInput := "";
      buttonText := "Add Product";
      confirmShown := false;
      pendingDelete := None;
    }

    /** `handleAddProduct` up to the request: the request, or the error shown instead. */
    method HandleAddProduct() returns (r: Result<ProductRequest, string>)
      ensures r == SaveRequest(editingId, nameInput, weightInput)
    {
      var name := Trim(nameInput);
      var weight := Trim(weightInput);
      if name != "" && weight != "" {
        var weightValue := ParseFloat(weight);
        if weightValue == NaN {
          return Failure("Weight must be a valid number");
        }
        var verb := if Truthy(editingId) then Http.Put else Http.Post;
        var payload := if Truthy(editingId)
          then ProductPayload(Some(editingId), name, weightValue)
          else ProductPayload(None, name, weightValue);
        r := Success(ProductRequest(verb, payload));
      } else {
        r := Failure("Please enter product name and weight");
      }
    }

    /**
     * The response to a save: on success the inputs clear, edit mode ends and the button
     * reads "Add Product"; otherwise the server's message is shown (`String(undefined)` if none).
     */
    method OnSaveResponse(statusSuccess: bool, message: JsValue) returns (error: Option<string>)
      modifies this
      ensures confirmShown == old(confirmShown) && pendingDelete == old(pendingDelete)
      ensures statusSuccess ==> error == None
      ensures statusSuccess ==> nameInput == "" && weightInput == "" && editingId == Null && buttonText == "Add Product"
      ensures !statusSuccess ==> error == Some(ToString(message))
      ensures !statusSuccess ==> (nameInput == old(nameInput) && weightInput == old(weightInput)
        && editingId == old(editingId) && buttonText == old(buttonText))
    {
      if statusSuccess {
        nameInput := "";
        weightInput := "";
        editingId := Null;
        buttonText := "Add Product";
        error := None;
      } else {
        error := Some(ToString(message));
      }
    }

    /**
     * `handleEdit(product)`: the inputs take the product's values (a `null` one leaves its
     * input empty) and the button reads "Update Product".
     */
    method HandleEdit(product: ProductRecord)
      modifies this
      ensures confirmShown == old(confirmShown) && pendingDelete == old(pendingDelete)
      ensures nameInput == InputText(product.name) && weightInput == InputText(product.weight)
      ensures editingId == product.id && buttonText == "Update Product"
    {
      nameInput := InputText(product.name);
      weightInput := InputText(product.weight);
      editingId := product.id;
      buttonText := "Update Product";
    }

    /**
     * `handleDelete(id)`: the confirmation shows and its confirm button is rebound to delete
     * this id; the form is not touched.
     */
    method HandleDelete(id: int)
      modifies this
      ensures confirmShown && pendingDelete == Some(id)
      ensures editingId == old(editingId) && nameInput == old(nameInput)
      ensures weightInput == old(weightInput) && buttonText == old(buttonText)
    {
      confirmShown := true;
      pendingDelete := Some(id);
    }

    /** The Cancel button hides the confirmation; the binding of the confirm button stays. */
    method CancelDelete()
      modifies this
      ensures !confirmShown && pendingDelete == old(pendingDelete)
      ensures editingId == old(editingId) && nameInput == old(nameInput)
      ensures weightInput == old(weightInput) && buttonText == old(buttonText)
    {
      confirmShown := false;
    }

    /** The confirm button: the id sent with DELETE, nothing before any delete was asked for. */
    method ConfirmDelete() returns (id: Option<int>)
      ensures id == pendingDelete
      ensures id.Some? <==> pendingDelete.Some?
    {
      id := pendingDelete;
    }

    /**
     * The end of the confirm handler: the message of a refused delete is shown, and the
     * confirmation closes whatever the outcome (a failed request included).
     */
    method OnDeleteResponse(statusSuccess: bool, message: JsValue) returns (error: Option<string>)
      modifies this
      ensures !confirmShown && pendingDelete == old(pendingDelete)
      ensures error.None? <==> statusSuccess
      ensures !statusSuccess ==> error == Some(ToString(message))
      ensures editingId == old(editingId) && nameInput == old(nameInput)
      ensures weightInput == old(weightInput) && buttonText == old(buttonText)
    {
      error := if statusSuccess then None else Some(ToString(message));
      confirmShown := false;
    }
  }

  /** After a successful save the form is empty, so saving again at once is refused. */
  lemma ResetFormRefused()
    ensures SaveRequest(Null, "", "") == Failure("Please enter product name and weight")
  {
    assert Trim("") == "";
  }

  /**
   * Editing a product with a truthy id, an integer weight and a name, then saving, sends
   * PUT with that id, the name and the weight as a number.
   */
  lemma EditThenSave(p: ProductRecord, name: string, w: int)
    requires Truthy(p.id) && p.name == Str(name) && p.weight == Int(w)
    requires Trim(name) != ""
    ensures SaveRequest(p.id, InputText(p.name), InputText(p.weight))
      == Success(ProductRequest(Http.Put, ProductPayload(Some(p.id), Trim(name), Finite(w as real))))
  {
    var nameText, weightText := InputText(p.name), InputText(p.weight);
    assert nameText == name && weightText == IntToString(w);
    WeightTextReadsBack(w);
    SaveRequestPut(p.id, nameText, weightText, w as real);
  }

  /** With an id, a name and a weight that reads as the number `v`, the save is PUT of those. */
  lemma SaveRequestPut(editingId: JsValue, nameInput: string, weightInput: string, v: real)
    requires Truthy(editingId) && Trim(nameInput) != "" && Trim(weightInput) != ""
    requires ParseFloat(Trim(weightInput)) == Finite(v)
    ensures SaveRequest(editingId, nameInput, weightInput)
      == Success(ProductRequest(Http.Put, ProductPayload(Some(editingId), Trim(nameInput), Finite(v))))
  {
  }

  /** An integer weight, shown in the input and read back, is that number. */
  lemma WeightTextReadsBack(w: int)
    ensures Trim(IntToString(w)) == IntToString(w) && Trim(IntToString(w)) != ""
    ensures ParseFloat(Trim(IntToString(w))) == Finite(w as real)
  {
    IntToStringHasNoSpace(w);
    TrimOfUnpadded(IntToString(w));
    ParseFloatOfIntToString(w);
  }

  /** An integer's decimal rendering is non-empty and neither starts nor ends with white space. */
  lemma IntToStringHasNoSpace(w: int)
    ensures IntToString(w) != []
    ensures !IsJsSpace(IntToString(w)[0]) && !IsJsSpace(IntToString(w)[|IntToString(w)| - 1])
  {
    var m: nat := if w < 0 then -w else w;
    var d := NatToString(m);
    assert d != [] && IsDigit(d[0]) && IsDigit(d[|d| - 1]);
  }

  /** A weight that does not start like a number is refused with the weight message. */
  lemma LetterWeightRefused(editingId: JsValue, name: string, weight: string)
    requires Trim(name) != "" && Trim(weight) != ""
    requires 'a' <= Trim(weight)[0] <= 'z'
    ensures SaveRequest(editingId, name, weight) == Failure("Weight must be a valid number")
  {
    var t := Trim(weight);
    ParseFloatOfNonNumeric(t);
  }
}
