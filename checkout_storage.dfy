/**
 * Persistence of the delivery address under one key of the browser's
 * key-value store.
 *
 * The store holds text. Text that `JSON.stringify` produced is kept as the
 * JSON value it encodes (`JsonText`), so `JSON.parse(JSON.stringify(v)) == v`
 * is built into the model; any other text (`OtherText`, the empty string
 * among it) makes `JSON.parse` throw.
 */
module CheckoutStorage {
  import opened Outcomes
  import opened CheckoutTypes

  const CheckoutDataKey := "ck_checkout_data"

  /** A JSON value, as `JSON.parse` returns it. */
  datatype Json =
    | JNull
    | JBool(b: bool)
    | JNumber(n: int)
    | JString(s: string)
    | JArray(elems: seq<Json>)
    | JObject(fields: map<string, Json>)

  /** What one key of the store holds. */
  datatype StoredText = JsonText(value: Json) | OtherText(raw: string)

  /** The result of a store access: a value, or an exception. */
  datatype Attempt<T> = Returned(value: T) | Threw

  /**
   * The browser's `localStorage`. When it is not `available` (storage
   * switched off) every access throws; when it is `full`, only a write
   * throws, and reads and removals still work.
   */
  class LocalStorage {
    var entries: map<string, StoredText>
    var available: bool
    var full: bool

    constructor(entries: map<string, StoredText>, available: bool, full: bool)
      ensures this.entries == entries && this.available == available && this.full == full
    {
      this.entries := entries;
      this.available := available;
      this.full := full;
    }

    /** A write succeeds. */
    predicate Writable()
      reads this
    {
      available && !full
    }

    method SetItem(key: string, value: StoredText) returns (r: Attempt<()>)
      modifies this
      ensures r.Returned? == old(Writable()) && available == old(available) && full == old(full)
      ensures entries == if r.Returned? then old(entries)[key := value] else old(entries)
    {
      if !available || full {
        return Threw;
      }
      entries := entries[key := value];
      return Returned(());
    }

    method GetItem(key: string) returns (r: Attempt<Option<StoredText>>)
      ensures !available ==> r == Threw
      ensures available ==> r == Returned(if key in entries then Some(entries[key]) else None)
    {
      if !available {
        return Threw;
      }
      return Returned(if key in entries then Some(entries[key]) else None);
    }

    method RemoveItem(key: string) returns (r: Attempt<()>)
      modifies this
      ensures r.Returned? == old(available) && available == old(available) && full == old(full)
      ensures entries == if r.Returned? then old(entries) - {key} else old(entries)
    {
      if !available {
        return Threw;
      }
      entries := entries - {key};
      return Returned(());
    }
  }

  // ---------------------------------------------------------------------
  // Conversions

  /** The seven property names of a stored address. */
  const AddressKeys: set<string> :=
    {"fullName", "email", "phoneNumber", "address", "landmark", "pincode", "deliveryInstructions"}

  /** The field-by-field copy `saveCheckoutData` makes of the form. */
  function FormToAddress(data: CheckoutFormData): DeliveryAddress {
    DeliveryAddress(data.fullName, data.email, data.phoneNumber, data.address,
                    data.landmark, data.pincode, data.deliveryInstructions)
  }

  /** `deliveryAddressToFormData`: the copy back, which the save-side copy undoes. */
  function DeliveryAddressToFormData(address: DeliveryAddress): (r: CheckoutFormData)
    ensures FormToAddress(r) == address
  {
    CheckoutFormData(address.fullName, address.email, address.phoneNumber, address.address,
                     address.landmark, address.pincode, address.deliveryInstructions)
  }

  /** The two copies undo each other, in both orders. */
  lemma ConversionsInverse(data: CheckoutFormData, address: DeliveryAddress)
    ensures DeliveryAddressToFormData(FormToAddress(data)) == data
    ensures FormToAddress(DeliveryAddressToFormData(address)) == address
    ensures forall f :: FieldValue(DeliveryAddressToFormData(FormToAddress(data)), f) == FieldValue(data, f)
  {
  }

  /** The object `JSON.stringify` is given for an address. */
  function AddressToJson(a: DeliveryAddress): Json {
    JObject(map[
      "fullName" := JString(a.fullName),
      "email" := JString(a.email),
      "phoneNumber" := JString(a.phoneNumber),
      "address" := JString(a.address),
      "landmark" := JString(a.landmark),
      "pincode" := JString(a.pincode),
      "deliveryInstructions" := JString(a.deliveryInstructions)])
  }

  /** The values `!data` is true for. */
  predicate Falsy(v: Json) {
    v.JNull? || v == JBool(false) || v == JNumber(0) || v == JString("")
  }

  /** `typeof v === 'object'` (null included) */
  predicate IsObjectType(v: Json) { v.JNull? || v.JArray? || v.JObject? }

  /** `v[name]`: an array has no property with one of these names. */
  function Property(v: Json, name: string): Option<Json> {
    if v.JObject? && name in v.fields then Some(v.fields[name]) else None
  }

  predicate IsStringProperty(v: Json, name: string) {
    var p := Property(v, name);
    p.Some? && p.value.JString?
  }

  /** `validateStoredCheckoutData`: a non-null object whose seven named properties are all strings. */
  function ValidateStoredCheckoutData(data: Json): (r: bool)
    ensures r <==> data.JObject? && forall k :: k in AddressKeys ==> k in data.fields && data.fields[k].JString?
  {
    if Falsy(data) || !IsObjectType(data) then false
    else
      IsStringProperty(data, "fullName")
      && IsStringProperty(data, "email")
      && IsStringProperty(data, "phoneNumber")
      && IsStringProperty(data, "address")
      && IsStringProperty(data, "landmark")
      && IsStringProperty(data, "pincode")
      && IsStringProperty(data, "deliveryInstructions")
  }

  /** The address a validated object stands for. */
  function JsonToAddress(data: Json): DeliveryAddress
    requires ValidateStoredCheckoutData(data)
  {
    var f := data.fields;
    DeliveryAddress(f["fullName"].s, f["email"].s, f["phoneNumber"].s, f["address"].s,
                    f["landmark"].s, f["pincode"].s, f["deliveryInstructions"].s)
  }

  /** An encoded address passes validation and decodes to itself. */
  lemma AddressJsonRoundTrip(a: DeliveryAddress)
    ensures ValidateStoredCheckoutData(AddressToJson(a))
    ensures JsonToAddress(AddressToJson(a)) == a
  {
    var v := AddressToJson(a);
    assert IsStringProperty(v, "fullName") && IsStringProperty(v, "email") && IsStringProperty(v, "phoneNumber");
    assert IsStringProperty(v, "address") && IsStringProperty(v, "landmark") && IsStringProperty(v, "pincode");
    assert IsStringProperty(v, "deliveryInstructions");
  }

  // ---------------------------------------------------------------------
  // The store operations

  /** What `getCheckoutData` returns for a store in this state. */
  function ReadCheckoutData(available: bool, entries: map<string, StoredText>): Option<DeliveryAddress> {
    if !available || CheckoutDataKey !in entries then None
    else match entries[CheckoutDataKey]
      case OtherText(_) => None
      case JsonText(v) => if ValidateStoredCheckoutData(v) then Some(JsonToAddress(v)) else None
  }

  /** `saveCheckoutData`: writes the one key, or reports failure and writes nothing. */
  method SaveCheckoutData(store: LocalStorage, data: CheckoutFormData) returns (saved: bool)
    modifies store
    ensures saved == old(store.Writable()) && store.available == old(store.available) && store.full == old(store.full)
    ensures store.entries == if saved then old(store.entries)[CheckoutDataKey := JsonText(AddressToJson(FormToAddress(data)))]
                             else old(store.entries)
    ensures saved ==> ReadCheckoutData(store.available, store.entries) == Some(FormToAddress(data))
    ensures !saved ==> ReadCheckoutData(store.available, store.entries) == old(ReadCheckoutData(store.available, store.entries))
    ensures forall k :: k != CheckoutDataKey ==>
      (k in store.entries <==> k in old(store.entries)) && (k in store.entries ==> store.entries[k] == old(store.entries)[k])
  {
    var address := FormToAddress(data);
    var r := store.SetItem(CheckoutDataKey, JsonText(AddressToJson(address)));
    SaveThenRead(old(store.entries), address);
    saved := r.Returned?;
  }

  /** `getCheckoutData`: never throws; anything missing, unreadable or malformed reads as `null`. */
  method GetCheckoutData(store: LocalStorage) returns (r: Option<DeliveryAddress>)
    ensures r == ReadCheckoutData(store.available, store.entries)
    ensures r.Some? <==>
      && store.available && CheckoutDataKey in store.entries
      && store.entries[CheckoutDataKey].JsonText?
      && ValidateStoredCheckoutData(store.entries[CheckoutDataKey].value)
  {
    var item := store.GetItem(CheckoutDataKey);
    if item.Threw? {
      return None;
    }
    match item.value {
      case None =>
        return None;
      case Some(text) =>
        match text {
          case OtherText(_) =>
            return None;
          case JsonText(parsed) =>
            if ValidateStoredCheckoutData(parsed) {
              return Some(JsonToAddress(parsed));
            }
            return None;
        }
    }
  }

  /** `clearCheckoutData` */
  method ClearCheckoutData(store: LocalStorage) returns (cleared: bool)
    modifies store
    ensures cleared == old(store.available) && store.available == old(store.available) && store.full == old(store.full)
    ensures store.entries == if cleared then old(store.entries) - {CheckoutDataKey} else old(store.entries)
    ensures cleared ==> ReadCheckoutData(store.available, store.entries) == None
  {
    var r := store.RemoveItem(CheckoutDataKey);
    cleared := r.Returned?;
  }

  /** `hasCheckoutData`: the key is present, whatever it holds. */
  method HasCheckoutData(store: LocalStorage) returns (r: bool)
    ensures r <==> store.available && CheckoutDataKey in store.entries
  {
    var item := store.GetItem(CheckoutDataKey);
    r := item.Returned? && item.value.Some?;
  }

  /** Reading right after a save gives back the saved fields. */
  lemma SaveThenRead(entries: map<string, StoredText>, address: DeliveryAddress)
    ensures ReadCheckoutData(true, entries[CheckoutDataKey := JsonText(AddressToJson(address))]) == Some(address)
  {
    AddressJsonRoundTrip(address);
  }

  /** A form saved and read back fills the form with the same values. */
  lemma SaveThenRestoreForm(entries: map<string, StoredText>, data: CheckoutFormData)
    ensures var read := ReadCheckoutData(true, entries[CheckoutDataKey := JsonText(AddressToJson(FormToAddress(data)))]);
      read.Some? && DeliveryAddressToFormData(read.value) == data
  {
    SaveThenRead(entries, FormToAddress(data));
  }

  /** After the key is removed nothing reads back, and `hasCheckoutData` is false. */
  lemma ReadAfterClear(available: bool, entries: map<string, StoredText>)
    ensures ReadCheckoutData(available, entries - {CheckoutDataKey}) == None
    ensures CheckoutDataKey !in entries - {CheckoutDataKey}
  {
  }

  /** Only the one key matters to the reader. */
  lemma ReadIgnoresOtherKeys(available: bool, entries: map<string, StoredText>, k: string, t: StoredText)
    requires k != CheckoutDataKey
    ensures ReadCheckoutData(available, entries[k := t]) == ReadCheckoutData(available, entries)
  {
  }
}
