/**
 * The settings page: the store-details form, how it is filled from the saved record, how
 * input changes it, and the UPI-id check run before it is saved.
 */
module Settings {
  import opened Wrappers
  import Db
  import UpiUtils
  import opened FormOutcome

  /** The inputs of the form, by their `name`. */
  datatype Field = NameField | PhoneField | AddressField | EmailField | GstField | UpiIdField

  /**
   * The form holds the seven text fields of the store record; the receipt size and logo are
   * not among them and stay unset.
   */
  const Initial: Db.StoreInfo := Db.StoreInfo(Db.StoreInfoKey, "", "", "", "", "", "", None, None, None)

  /** The form filled from a saved record: its seven text fields. */
  function FormOf(stored: Db.StoreInfo): (form: Db.StoreInfo)
    ensures form.id == stored.id && form.name == stored.name && form.address == stored.address
    ensures form.phone == stored.phone && form.email == stored.email
    ensures form.upiId == stored.upiId && form.gst == stored.gst
    ensures form.billWidth.None? && form.billHeight.None? && form.logo.None?
  {
    Db.StoreInfo(stored.id, stored.name, stored.address, stored.phone, stored.email, stored.gst, stored.upiId,
      None, None, None)
  }

  /** The save guard: an empty UPI id is allowed, any other must be valid. */
  function CheckSettings(form: Db.StoreInfo): (refusal: Option<string>)
    ensures refusal.None? <==> form.upiId == "" || UpiUtils.IsValidUpiId(form.upiId)
    ensures refusal.Some? ==> refusal.value == "Please enter a valid UPI ID (e.g., example@upi)"
  {
    if form.upiId != "" && !UpiUtils.IsValidUpiId(form.upiId) then
      Some("Please enter a valid UPI ID (e.g., example@upi)")
    else None
  }

  class Page {
    var storeSettings: Db.StoreInfo

    /** The initial form: the settings key as id and every other field empty. */
    constructor()
      ensures storeSettings == Initial
    {
      storeSettings := Initial;
    }

    /** The effect run when the saved record arrives; nothing happens while there is none. */
    method Load(storeInfo: Option<Db.StoreInfo>)
      modifies this
      ensures storeSettings == (if storeInfo.Some? then FormOf(storeInfo.value) else old(storeSettings))
    {
      if storeInfo.Some? {
        storeSettings := FormOf(storeInfo.value);
      }
    }

    /** `handleInputChange`: only the field named by the input changes. */
    method HandleInputChange(field: Field, value: string)
      modifies this
      ensures field == NameField ==> storeSettings == old(storeSettings).(name := value)
      ensures field == PhoneField ==> storeSettings == old(storeSettings).(phone := value)
      ensures field == AddressField ==> storeSettings == old(storeSettings).(address := value)
      ensures field == EmailField ==> storeSettings == old(storeSettings).(email := value)
      ensures field == GstField ==> storeSettings == old(storeSettings).(gst := value)
      ensures field == UpiIdField ==> storeSettings == old(storeSettings).(upiId := value)
    {
      match field
      case NameField => storeSettings := storeSettings.(name := value);
      case PhoneField => storeSettings := storeSettings.(phone := value);
      case AddressField => storeSettings := storeSettings.(address := value);
      case EmailField => storeSettings := storeSettings.(email := value);
      case GstField => storeSettings := storeSettings.(gst := value);
      case UpiIdField => storeSettings := storeSettings.(upiId := value);
    }

    /**
     * `handleSaveSettings`: a refused form is not saved; otherwise the form is written as the
     * store record, under the settings key, and `saveSucceeds` says whether that worked.
     */
    method SaveSettings(saveSucceeds: bool) returns (outcome: Outcome<Db.StoreInfo>)
      ensures CheckSettings(storeSettings).Some? ==> outcome == Rejected(CheckSettings(storeSettings).value)
      ensures CheckSettings(storeSettings).None? ==>
        outcome == (if saveSucceeds then Saved(Db.WithStoreId(storeSettings))
                    else SaveFailed(Db.WithStoreId(storeSettings), "Failed to save settings"))
    {
      var refusal := CheckSettings(storeSettings);
      if refusal.Some? {
        return Rejected(refusal.value);
      }
      var record := Db.WithStoreId(storeSettings);
      if saveSucceeds {
        outcome := Saved(record);
      } else {
        outcome := SaveFailed(record, "Failed to save settings");
      }
    }
  }

  /**
   * Saving the form writes a record without receipt size or logo: loading a record and saving
   * it straight back keeps its seven text fields and drops those three.
   */
  lemma LoadThenSave(stored: Db.StoreInfo)
    ensures var saved := Db.WithStoreId(FormOf(stored));
      && saved == stored.(id := Db.StoreInfoKey, billWidth := None, billHeight := None, logo := None)
  {
  }

  /** An empty UPI id skips the check; a provider with a dot is refused. */
  lemma SettingsGuardExamples(form: Db.StoreInfo)
    ensures CheckSettings(form.(upiId := "")).None?
    ensures CheckSettings(form.(upiId := "a@ok.bank")).Some?
    ensures CheckSettings(form.(upiId := "shop@upi")).None?
  {
    UpiUtils.UpiIdDottedProviderRejected();
    UpiUtils.UpiIdAccepted();
  }
}
