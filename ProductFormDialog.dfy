/**
 * The dialog that adds or edits a catalogue product: how its form is filled, how input changes
 * it, the checks run on submit, and which id the saved product carries.
 */
module ProductFormDialog {
  import opened Wrappers
  import opened Text
  import Numeric
  import Db
  import opened FormOutcome

  /** The inputs of the form, by their `name`. */
  datatype Field = NameField | CategoryField | PriceField | BarcodeField | HsnField

  /** The empty form of a new product. */
  const Blank: Db.Product := Db.Product(None, "", "", 0.0, "", "")

  /** The price input's `parseFloat(value) || 0`. */
  function PriceInput(text: string): (price: real)
    ensures price == 0.0 || Numeric.ParseFloat(text) == Some(price)
    ensures Numeric.ParseFloat(text).None? ==> price == 0.0
    ensures Numeric.ParseFloat(text).Some? ==> price == Numeric.ParseFloat(text).value
  {
    Numeric.ParseFloatOr0(text)
  }

  /**
   * The submit guards, in order: the name may not be empty or white space only, then the
   * price must be positive.
   */
  function CheckProduct(form: Db.Product): (refusal: Option<string>)
    ensures refusal.None? <==> !AllSpace(form.name) && form.price > 0.0
    ensures AllSpace(form.name) ==> refusal == Some("Product name is required")
    ensures !AllSpace(form.name) && form.price <= 0.0 ==> refusal == Some("Price must be greater than zero")
  {
    TrimEmptyIff(form.name);
    if Trim(form.name) == "" then Some("Product name is required")
    else if form.price <= 0.0 then Some("Price must be greater than zero")
    else None
  }

  /**
   * The product handed to `onSave`: the form with the id of the product being edited, or no
   * id when adding, whatever id the form held.
   */
  function ToSave(form: Db.Product, editing: Option<Db.Product>): (p: Db.Product)
    ensures p.id == (if editing.Some? then editing.value.id else None)
    ensures p.(id := form.id) == form
  {
    form.(id := if editing.Some? then editing.value.id else None)
  }

  /** Adding never saves an id, so the store assigns a fresh one. */
  lemma AddingSavesNoId(form: Db.Product)
    ensures ToSave(form, None).id.None?
    ensures ToSave(ToSave(form, None), None) == ToSave(form, None)
  {
  }

  class Dialog {
    var formData: Db.Product
    /** The `product` the dialog was opened with; none when adding. */
    var editing: Option<Db.Product>
    var isSubmitting: bool
    var open: bool

    constructor(open: bool)
      ensures formData == Blank && editing.None? && !isSubmitting && this.open == open
    {
      formData := Blank;
      editing := None;
      isSubmitting := false;
      this.open := open;
    }

    /** The effect run when `product` or `open` changes: a copy of the product, or a blank form. */
    method Load(product: Option<Db.Product>)
      modifies this
      ensures formData == (if product.Some? then product.value else Blank)
      ensures editing == product
      ensures isSubmitting == old(isSubmitting) && open == old(open)
    {
      editing := product;
      if product.Some? {
        formData := product.value;
      } else {
        formData := Blank;
      }
    }

    /** `handleChange`: only the named field changes; the price is parsed. */
    method HandleChange(field: Field, value: string)
      modifies this
      ensures field == NameField ==> formData == old(formData).(name := value)
      ensures field == CategoryField ==> formData == old(formData).(category := value)
      ensures field == PriceField ==> formData == old(formData).(price := PriceInput(value))
      ensures field == BarcodeField ==> formData == old(formData).(barcode := value)
      ensures field == HsnField ==> formData == old(formData).(hsn := value)
      ensures editing == old(editing) && isSubmitting == old(isSubmitting) && open == old(open)
    {
      match field
      case NameField => formData := formData.(name := value);
      case CategoryField => formData := formData.(category := value);
      case PriceField => formData := formData.(price := PriceInput(value));
      case BarcodeField => formData := formData.(barcode := value);
      case HsnField => formData := formData.(hsn := value);
    }

    /**
     * `handleSubmit`: a refused form changes nothing; an accepted one is handed to `onSave`
     * with the edited product's id, and `saveSucceeds` says whether that worked. The dialog
     * closes only after a save; `isSubmitting` is false again either way.
     */
    method Submit(saveSucceeds: bool) returns (outcome: Outcome<Db.Product>)
      modifies this
      ensures CheckProduct(old(formData)).Some? ==>
        outcome == Rejected(CheckProduct(old(formData)).value) && isSubmitting == old(isSubmitting)
      ensures CheckProduct(old(formData)).None? ==> !isSubmitting
      ensures CheckProduct(old(formData)).None? ==>
        outcome == (if saveSucceeds then Saved(ToSave(old(formData), old(editing)))
                    else SaveFailed(ToSave(old(formData), old(editing)), "Failed to save product"))
      ensures formData == old(formData) && editing == old(editing)
      ensures open == (old(open) && !outcome.Saved?)
    {
      var refusal := CheckProduct(formData);
      if refusal.Some? {
        return Rejected(refusal.value);
      }
      isSubmitting := true;
      var product := ToSave(formData, editing);
      if saveSucceeds {
        open := false;
        outcome := Saved(product);
      } else {
        outcome := SaveFailed(product, "Failed to save product");
      }
      isSubmitting := false;
    }
  }

  /** The name is checked first: a blank form is refused for its name, not for its price. */
  lemma BlankFormRefusedForName()
    ensures CheckProduct(Blank) == Some("Product name is required")
  {
  }
}
