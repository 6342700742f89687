/** The KV page: which namespace is selected, the table rows, and the
    add/edit form. */
module KvPage {
  import opened Wrappers
  import opened Types
  import opened Bindings
  import opened Schemas
  import opened KvStore

  /** One element of `kvData`: the listed key's fields plus its value text. */
  datatype KvRow = KvRow(name: string, expiration: Option<Expiry>, metadata: Option<string>, value: string)

  /** The expiration column: a dash, or the time the key expires. */
  datatype ExpirationCell = Dash | ExpiresAt(expiry: Expiry)

  /** One rendered table row. */
  datatype RowView = RowView(name: string, value: string, expiration: ExpirationCell)

  /** `item.expiration ? <date> : "-"`: a missing or zero expiration is falsy. */
  function ExpirationCellOf(e: Option<Expiry>): (cell: ExpirationCell)
    ensures cell.Dash? <==> e.None? || e.value == At(0)
    ensures cell.ExpiresAt? ==> e == Some(cell.expiry)
  {
    if e.None? || e.value == At(0) then Dash else ExpiresAt(e.value)
  }

  /** `KVRows`: one row per entry, in order, showing the name and value. */
  function KvRows(kvData: seq<KvRow>): (rows: seq<RowView>)
    ensures |rows| == |kvData|
    ensures forall i :: 0 <= i < |rows| ==>
      rows[i].name == kvData[i].name && rows[i].value == kvData[i].value
      && rows[i].expiration == ExpirationCellOf(kvData[i].expiration)
  {
    seq(|kvData|, i requires 0 <= i < |kvData| =>
      RowView(kvData[i].name, kvData[i].value, ExpirationCellOf(kvData[i].expiration)))
  }

  /** `rows` is the toolbar and table shown under a non-empty selected name. */
  datatype KvPageView =
    | NoNamespaces
    | NamespaceBrowser(names: seq<string>, selected: string, rows: Option<seq<RowView>>)

  /** `KVPage`: the empty state when no binding is a KV namespace (whatever
      `kvId` says); otherwise the chips and the selected namespace, and,
      only when the selected name is not empty, the table of its rows, a
      missing `kvData` showing as no rows. */
  function KvPageOf(env: Env, kvId: Option<string>, kvData: Option<seq<KvRow>>): (view: KvPageView)
    ensures view.NoNamespaces? <==> NamesOfKind(env, KVNamespace) == []
    ensures view.NamespaceBrowser? ==>
      && view.names == NamesOfKind(env, KVNamespace)
      && Some(view.selected) == Select(view.names, kvId)
      && (view.rows.Some? <==> view.selected != "")
      && (view.rows.Some? ==> view.rows.value == KvRows(kvData.GetOr([])))
    ensures kvData.None? && view.NamespaceBrowser? && view.rows.Some? ==> view.rows.value == []
  {
    var names := NamesOfKind(env, KVNamespace);
    var selected := Select(names, kvId);
    if names == [] then NoNamespaces
    else
      var table := if selected.value != "" then Some(KvRows(kvData.GetOr([]))) else None;
      NamespaceBrowser(names, selected.value, table)
  }

  /** The `entry` a form is filled from; a field may be missing when the
      entry echoes a request body. */
  datatype FormEntry = FormEntry(
    key: Option<string>,
    value: Option<string>,
    expirationTtl: Option<Num>,
    metadata: Option<string>)

  /** The form as rendered; `hiddenKey` is the text the hidden key field
      submits (an undefined key submits the empty text). */
  datatype FormView = FormView(
    isEdit: bool,
    title: string,
    error: Option<string>,
    hiddenKey: Option<string>,
    keyInput: string,
    keyDisabled: bool,
    valueText: string,
    metadataText: string,
    submitLabel: string)

  /** How a template literal shows an optional string. */
  function Shown(s: Option<string>): string {
    if s.Some? then s.value else "undefined"
  }

  /** `KVKeyForm`: edit mode exactly when an entry is given; in edit mode the
      key input is disabled and a hidden field carries the key. */
  function KeyForm(entry: Option<FormEntry>, error: Option<string>): (form: FormView)
    ensures form.isEdit <==> entry.Some?
    ensures form.keyDisabled <==> form.isEdit
    ensures form.hiddenKey.Some? <==> form.isEdit
    ensures form.isEdit ==>
      && form.hiddenKey == Some(entry.value.key.GetOr(""))
      && form.title == "Edit Key: " + Shown(entry.value.key)
      && form.submitLabel == "Update"
    ensures !form.isEdit ==>
      && form.title == "Add New Key" && form.submitLabel == "Add Key"
      && form.keyInput == "" && form.valueText == "" && form.metadataText == ""
    ensures form.error.Some? <==> error.Some? && error.value != ""
    ensures form.error.Some? ==> form.error == error
  {
    var isEdit := entry.Some?;
    FormView(
      isEdit,
      if isEdit then "Edit Key: " + Shown(entry.value.key) else "Add New Key",
      if error.Some? && error.value != "" then error else None,
      if isEdit then Some(entry.value.key.GetOr("")) else None,
      if isEdit then entry.value.key.GetOr("") else "",
      isEdit,
      if isEdit then entry.value.value.GetOr("") else "",
      if isEdit then entry.value.metadata.GetOr("") else "",
      if isEdit then "Update" else "Add Key")
  }
}
