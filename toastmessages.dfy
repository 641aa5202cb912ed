/**
 * The notification texts (`src/utils/toastMessages.js`): a table from category and
 * operation to a title and message per level, and the two lookups that fall back to a
 * generic text.
 */
module ToastMessages {
  import opened Wrappers

  datatype Message = Message(title: string, message: string)

  /**
   * What an operation holds: a message per level (`success`, `error`), or, in the
   * `network` and `validation` categories, a title and message directly.
   */
  datatype Operation = Levels(success: Option<Message>, error: Option<Message>) | Direct(direct: Message)

  type Named<V> = seq<(string, V)>

  /** The first entry under key `k`: `obj?.[k]` on an object with those own keys. */
  function Find<V>(a: Named<V>, k: string): (r: Option<V>)
    ensures r.Some? ==> (k, r.value) in a
    ensures r.None? <==> forall i :: 0 <= i < |a| ==> a[i].0 != k
  {
    if a == [] then None else if a[0].0 == k then Some(a[0].1) else Find(a[1..], k)
  }

  function Both(successTitle: string, successMessage: string, errorTitle: string, errorMessage: string): Operation {
    Levels(Some(Message(successTitle, successMessage)), Some(Message(errorTitle, errorMessage)))
  }

  const NetworkOperations: Named<Operation> := [
    ("online", Direct(Message("Connection Restored", "You are back online."))),
    ("offline", Direct(Message("No Internet Connection", "Please check your internet connection."))),
    ("timeout", Direct(Message("Request Timeout", "The request took too long. Please try again.")))
  ]

  const ValidationOperations: Named<Operation> := [
    ("required", Direct(Message("Required Field", "Please fill in all required fields."))),
    ("invalid", Direct(Message("Invalid Input", "Please check your input and try again."))),
    ("fileSize", Direct(Message("File Too Large", "File size exceeds the maximum limit."))),
    ("fileType", Direct(Message("Invalid File Type", "Please select a valid file type.")))
  ]

  const AuthOperations: Named<Operation> := [
    ("login", Both("Welcome Back!", "You have been logged in successfully.",
      "Login Failed", "Invalid credentials. Please try again.")),
    ("logout", Levels(Some(Message("Logged Out", "You have been logged out successfully.")), None)),
    ("register", Both("Account Created", "Your account has been created successfully!",
      "Registration Failed", "Failed to create account. Please try again."))
  ]

  const ProductOperations: Named<Operation> := [
    ("create", Both("Product Created", "Product has been created successfully!",
      "Creation Failed", "Failed to create product. Please try again.")),
    ("update", Both("Product Updated", "Product has been updated successfully!",
      "Update Failed", "Failed to update product. Please try again.")),
    ("delete", Both("Product Deleted", "Product has been deleted successfully!",
      "Deletion Failed", "Failed to delete product. Please try again."))
  ]

  const OrderOperations: Named<Operation> := [
    ("create", Both("Order Created", "Order has been created successfully!",
      "Creation Failed", "Failed to create order. Please try again.")),
    ("update", Both("Order Updated", "Order status has been updated successfully!",
      "Update Failed", "Failed to update order. Please try again.")),
    ("delete", Both("Order Cancelled", "Order has been cancelled successfully!",
      "Cancellation Failed", "Failed to cancel order. Please try again."))
  ]

  const CustomerOperations: Named<Operation> := [
    ("create", Both("Customer Added", "Customer has been added successfully!",
      "Addition Failed", "Failed to add customer. Please try again.")),
    ("update", Both("Customer Updated", "Customer information has been updated successfully!",
      "Update Failed", "Failed to update customer. Please try again.")),
    ("delete", Both("Customer Removed", "Customer has been removed successfully!",
      "Removal Failed", "Failed to remove customer. Please try again."))
  ]

  const FileOperations: Named<Operation> := [
    ("upload", Both("File Uploaded", "File has been uploaded successfully!",
      "Upload Failed", "Failed to upload file. Please try again.")),
    ("delete", Both("File Deleted", "File has been deleted successfully!",
      "Deletion Failed", "Failed to delete file. Please try again."))
  ]

  const SettingsOperations: Named<Operation> := [
    ("save", Both("Settings Saved", "Your settings have been saved successfully!",
      "Save Failed", "Failed to save settings. Please try again.")),
    ("reset", Both("Settings Reset", "Settings have been reset to default values.",
      "Reset Failed", "Failed to reset settings. Please try again."))
  ]

  const GeneralOperations: Named<Operation> := [
    ("save", Both("Saved Successfully", "Changes have been saved successfully!",
      "Save Failed", "Failed to save changes. Please try again.")),
    ("delete", Both("Deleted Successfully", "Item has been deleted successfully!",
      "Deletion Failed", "Failed to delete item. Please try again.")),
    ("copy", Both("Copied to Clipboard", "Text has been copied to clipboard.",
      "Copy Failed", "Failed to copy text. Please try again.")),
    ("export", Both("Export Successful", "Data has been exported successfully!",
      "Export Failed", "Failed to export data. Please try again.")),
    ("import", Both("Import Successful", "Data has been imported successfully!",
      "Import Failed", "Failed to import data. Please try again."))
  ]

  /** `toastMessages[category]`: the operations of a category, `None` for an unknown one. */
  function Operations(category: string): Option<Named<Operation>> {
    if category == "product" then Some(ProductOperations)
    else if category == "order" then Some(OrderOperations)
    else if category == "customer" then Some(CustomerOperations)
    else if category == "auth" then Some(AuthOperations)
    else if category == "file" then Some(FileOperations)
    else if category == "settings" then Some(SettingsOperations)
    else if category == "general" then Some(GeneralOperations)
    else if category == "network" then Some(NetworkOperations)
    else if category == "validation" then Some(ValidationOperations)
    else None
  }

  /** The generic text used when the table has no entry. */
  const Fallback := Message("Operation Completed", "The operation has been completed successfully.")

  /**
   * What `getToastMessage` returns: a title-and-message pair, or a bare string, which is what
   * indexing a direct entry by "title" or "message" yields.
   */
  datatype Toast = ToastMessage(msg: Message) | ToastText(text: string)

  /** `toastMessages[category]?.[operation]?.[type]`. */
  function Entry(category: string, operation: string, level: string): Option<Toast> {
    var ops := Operations(category);
    var op := if ops.Some? then Find(ops.value, operation) else None;
    if op.None? then None
    else match op.value
      case Levels(s, e) =>
        if level == "success" && s.Some? then Some(ToastMessage(s.value))
        else if level == "error" && e.Some? then Some(ToastMessage(e.value))
        else None
      case Direct(m) =>
        if level == "title" then Some(ToastText(m.title))
        else if level == "message" then Some(ToastText(m.message))
        else None
  }

  /** `getToastMessage(category, operation, type)`: the entry when there is one, else the fallback. */
  function GetToastMessage(category: string, operation: string, level: string): (r: Toast)
    ensures Entry(category, operation, level).Some? ==> r == Entry(category, operation, level).value
    ensures Entry(category, operation, level).None? ==> r == ToastMessage(Fallback)
    ensures level != "title" && level != "message" ==> r.ToastMessage?
  {
    var e := Entry(category, operation, level);
    if e.Some? then e.value else ToastMessage(Fallback)
  }

  /** `getToastMessage(category, operation)`: the level defaults to "success". */
  function GetToastMessageDefault(category: string, operation: string): Toast {
    GetToastMessage(category, operation, "success")
  }

  /**
   * `getErrorMessage(category, operation, customError)`: the error entry, with its message
   * replaced by a non-empty custom error.
   */
  function GetErrorMessage(category: string, operation: string, customError: Option<string>): (r: Message)
    ensures r.title == GetToastMessage(category, operation, "error").msg.title
    ensures customError.Some? && customError.value != "" ==> r.message == customError.value
    ensures !(customError.Some? && customError.value != "") ==> r == GetToastMessage(category, operation, "error").msg
  {
    var defaultError := GetToastMessage(category, operation, "error").msg;
    if customError.Some? && customError.value != "" then Message(defaultError.title, customError.value)
    else defaultError
  }

  /** A known entry is found: creating a product succeeds with "Product Created". */
  lemma ProductCreateMessages()
    ensures GetToastMessage("product", "create", "success") == ToastMessage(Message("Product Created", "Product has been created successfully!"))
    ensures GetErrorMessage("product", "create", Some("Network Error")) == Message("Creation Failed", "Network Error")
  {
  }

  /** Every operation of a list holds its title and message directly. */
  predicate AllDirect(ops: Named<Operation>) {
    forall i :: 0 <= i < |ops| ==> ops[i].1.Direct?
  }

  /** In a category of direct entries, a success or error lookup falls back. */
  lemma DirectCategoryFallsBack(category: string, operation: string, level: string)
    requires Operations(category).Some? && AllDirect(Operations(category).value)
    requires level == "success" || level == "error"
    ensures GetToastMessage(category, operation, level) == ToastMessage(Fallback)
  {
    var op := Find(Operations(category).value, operation);
    if op.Some? {
      assert op.value.Direct?;
    }
  }

  /** Network and validation entries have no levels: a success or error lookup falls back. */
  lemma DirectEntriesFallBack(operation: string, level: string)
    requires level == "success" || level == "error"
    ensures GetToastMessage("network", operation, level) == ToastMessage(Fallback)
    ensures GetToastMessage("validation", operation, level) == ToastMessage(Fallback)
  {
    assert Operations("network") == Some(NetworkOperations);
    assert AllDirect(NetworkOperations);
    DirectCategoryFallsBack("network", operation, level);
    assert Operations("validation") == Some(ValidationOperations);
    assert AllDirect(ValidationOperations);
    DirectCategoryFallsBack("validation", operation, level);
  }

  /** Logging out has no error entry: its error lookup falls back. */
  lemma LogoutErrorFallsBack()
    ensures GetToastMessage("auth", "logout", "error") == ToastMessage(Fallback)
    ensures GetErrorMessage("auth", "logout", None) == Fallback
  {
  }

  /** An unknown category falls back whatever the operation and level. */
  lemma UnknownCategoryFallsBack(category: string, operation: string, level: string)
    requires Operations(category).None?
    ensures GetToastMessage(category, operation, level) == ToastMessage(Fallback)
  {
  }
}
