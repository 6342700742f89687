/** `kvEntrySchema`: validation of the KV entry form. Parsing JSON and
    JavaScript's `Number()` are foreign; the model takes their verdicts as
    parameters (`isJson(text)`: `JSON.parse(text)` does not throw;
    `isNaN(text)`: `Number(text)` is NaN). */
module Schemas {
  import opened Wrappers
  import opened Strings

  /** A number obtained as `Number(text)`; its value is left symbolic. */
  datatype Num = NumberOf(text: string)

  /** The form fields as the request body carries them; a field the body
      lacks is `None`. */
  datatype FormBody = FormBody(
    key: Option<string>,
    value: Option<string>,
    expirationTtl: Option<string>,
    metadata: Option<string>)

  /** The validated entry (`KVEntryInput`). */
  datatype KvEntryInput = KvEntryInput(
    key: string,
    value: string,
    expirationTtl: Option<Num>,
    metadata: Option<string>)

  /** One validation issue. The messages of the first three are the schema's
      own; the last two are the schema library's built-in messages. */
  datatype Issue =
    | KeyTooShort
    | ValueTooShort
    | MetadataNotJson
    | FieldMissing(field: string)
    | TtlNotANumber

  function Message(issue: Issue): string {
    match issue
    case KeyTooShort => "Key is required"
    case ValueTooShort => "Value is required"
    case MetadataNotJson => "Metadata must be valid JSON"
    case FieldMissing(_) => "Required"
    case TtlNotANumber => "Expected number, received nan"
  }

  /** `z.string().min(1, msg)` on one field. */
  function RequiredText(field: Option<string>, name: string, tooShort: Issue): seq<Issue> {
    match field
    case None => [FieldMissing(name)]
    case Some(s) => if |s| < 1 then [tooShort] else []
  }

  /** `z.coerce.number().optional()` */
  function TtlIssues(field: Option<string>, isNaN: string -> bool): seq<Issue> {
    if field.Some? && isNaN(field.value) then [TtlNotANumber] else []
  }

  /** `z.string().optional().refine(...)`: an absent or empty text passes
      without being parsed. */
  function MetadataIssues(field: Option<string>, isJson: string -> bool): seq<Issue> {
    if field.None? || field.value == "" then []
    else if isJson(field.value) then []
    else [MetadataNotJson]
  }

  /** All issues, in the order of the schema's fields. */
  function Issues(body: FormBody, isJson: string -> bool, isNaN: string -> bool): seq<Issue> {
    RequiredText(body.key, "key", KeyTooShort)
    + RequiredText(body.value, "value", ValueTooShort)
    + TtlIssues(body.expirationTtl, isNaN)
    + MetadataIssues(body.metadata, isJson)
  }

  /** `kvEntrySchema.safeParse(body)` */
  function Validate(body: FormBody, isJson: string -> bool, isNaN: string -> bool)
    : (r: Result<KvEntryInput, seq<Issue>>)
    ensures r.Err? ==> |r.error| > 0
    ensures r.Ok? ==> |r.value.key| >= 1 && |r.value.value| >= 1
    ensures r.Ok? ==> r.value.metadata.None? || r.value.metadata.value == ""
                      || isJson(r.value.metadata.value)
  {
    var issues := Issues(body, isJson, isNaN);
    if issues != [] then Err(issues)
    else Ok(KvEntryInput(
      body.key.value,
      body.value.value,
      if body.expirationTtl.Some? then Some(NumberOf(body.expirationTtl.value)) else None,
      body.metadata))
  }

  /** The schema's rules, stated field by field. */
  predicate Acceptable(body: FormBody, isJson: string -> bool, isNaN: string -> bool) {
    && body.key.Some? && |body.key.value| >= 1
    && body.value.Some? && |body.value.value| >= 1
    && (body.expirationTtl.Some? ==> !isNaN(body.expirationTtl.value))
    && (body.metadata.Some? && body.metadata.value != "" ==> isJson(body.metadata.value))
  }

  /** Validation succeeds exactly when every rule holds, and then keeps the
      fields as given (the TTL as `Number(text)`). */
  lemma ValidateExactlyAcceptable(body: FormBody, isJson: string -> bool, isNaN: string -> bool)
    ensures Validate(body, isJson, isNaN).Ok? <==> Acceptable(body, isJson, isNaN)
    ensures Validate(body, isJson, isNaN).Ok? ==>
      var e := Validate(body, isJson, isNaN).value;
      && Some(e.key) == body.key && Some(e.value) == body.value
      && e.metadata == body.metadata
      && (e.expirationTtl.Some? <==> body.expirationTtl.Some?)
      && (e.expirationTtl.Some? ==> e.expirationTtl.value == NumberOf(body.expirationTtl.value))
  {
  }

  /** Each rule's message is reported exactly when that rule is broken, so
      every problem is reported at once. */
  lemma IssuesPerField(body: FormBody, isJson: string -> bool, isNaN: string -> bool)
    ensures KeyTooShort in Issues(body, isJson, isNaN) <==> body.key == Some("")
    ensures ValueTooShort in Issues(body, isJson, isNaN) <==> body.value == Some("")
    ensures FieldMissing("key") in Issues(body, isJson, isNaN) <==> body.key.None?
    ensures FieldMissing("value") in Issues(body, isJson, isNaN) <==> body.value.None?
    ensures TtlNotANumber in Issues(body, isJson, isNaN)
        <==> body.expirationTtl.Some? && isNaN(body.expirationTtl.value)
    ensures MetadataNotJson in Issues(body, isJson, isNaN)
        <==> body.metadata.Some? && body.metadata.value != "" && !isJson(body.metadata.value)
  {
  }

  /** The form's error text: every issue's message, joined with ", ". */
  function ErrorText(issues: seq<Issue>): (text: string)
    ensures |issues| > 0 ==> |text| > 0
  {
    Join(Messages(issues), ", ")
  }

  function Messages(issues: seq<Issue>): (ms: seq<string>)
    ensures |ms| == |issues|
    ensures forall i :: 0 <= i < |ms| ==> ms[i] == Message(issues[i])
  {
    seq(|issues|, i requires 0 <= i < |issues| => Message(issues[i]))
  }

  /** The joined text contains every part. */
  lemma {:induction false} JoinContainsEach(parts: seq<string>, sep: string, i: nat)
    requires i < |parts|
    ensures Includes(Join(parts, sep), parts[i])
    decreases |parts|
  {
    if i == 0 {
      if |parts| > 1 {
        assert Join(parts, sep) == parts[0] + (sep + Join(parts[1..], sep));
      }
      assert StartsWith(Join(parts, sep), parts[0]);
    } else {
      JoinContainsEach(parts[1..], sep, i - 1);
      IncludesSuffix(parts[0] + sep, Join(parts[1..], sep), parts[i]);
      assert Join(parts, sep) == (parts[0] + sep) + Join(parts[1..], sep);
    }
  }

  /** Every issue's message appears in the error text. */
  lemma ErrorTextMentionsEachIssue(issues: seq<Issue>, i: nat)
    requires i < |issues|
    ensures Includes(ErrorText(issues), Message(issues[i]))
  {
    JoinContainsEach(Messages(issues), ", ", i);
  }

  /** An empty key with value "x" is rejected with the text "Key is required";
      key "a", value "b" and well-formed metadata is accepted; the same with
      metadata that does not parse is rejected. */
  lemma ValidationExamples(isJson: string -> bool, isNaN: string -> bool)
    requires isJson("{\"x\":1}") && !isJson("{bad json")
    ensures Validate(FormBody(Some(""), Some("x"), None, None), isJson, isNaN)
      == Err([KeyTooShort])
    ensures ErrorText([KeyTooShort]) == "Key is required"
    ensures Validate(FormBody(Some("a"), Some("b"), None, Some("{\"x\":1}")), isJson, isNaN).Ok?
    ensures Validate(FormBody(Some("a"), Some("b"), None, Some("{bad json")), isJson, isNaN)
      == Err([MetadataNotJson])
  {
    assert Messages([KeyTooShort]) == ["Key is required"];
    assert Issues(FormBody(Some(""), Some("x"), None, None), isJson, isNaN)
      == [KeyTooShort] + [] + [] + [] == [KeyTooShort];
    assert Issues(FormBody(Some("a"), Some("b"), None, Some("{bad json")), isJson, isNaN)
      == [] + [] + [] + [MetadataNotJson] == [MetadataNotJson];
  }
}
