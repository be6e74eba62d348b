/** The identity framework's value types as the connector uses them, the
    script handles, the invocation arguments, and the host environment
    (script engine, file system, system properties) the connector calls out to. */
module Framework {
  import opened Dynamic

  /** `Uid.NAME`, `Name.NAME`, `OperationalAttributes.CURRENT_PASSWORD_NAME`
      and `OperationOptions.OP_PAGED_RESULTS_COOKIE`. */
  const UID_NAME := "__UID__"
  const NAME_NAME := "__NAME__"
  const CURRENT_PASSWORD_NAME := "__CURRENT_PASSWORD__"
  const PAGED_RESULTS_COOKIE := "PAGED_RESULTS_COOKIE"

  /** The message keys of the precondition failures; the localized text that
      the configuration looks up for them is not modelled. */
  const MSG_OBJECT_CLASS_REQUIRED := "MSG_OBJECT_CLASS_REQUIRED"
  const MSG_INVALID_ATTRIBUTE_SET := "MSG_INVALID_ATTRIBUTE_SET"
  const MSG_BLANK_UID := "MSG_BLANK_UID"
  const MSG_BLANK_RESULT_HANDLER := "MSG_BLANK_RESULT_HANDLER"

  /** An attribute: a name and its ordered values (no values is not absent). */
  datatype Attribute = Attribute(name: string, values: seq<Value>)

  /** A built connector object: object class, uid, name and the other
      attributes keyed by name. */
  datatype ConnectorObject = ConnectorObject(
    objectClass: string,
    uid: Option<string>,
    name: Option<string>,
    attributes: map<string, seq<Value>>)

  /** A `Uid` argument; its value may still be null. */
  datatype Uid = Uid(value: Option<string>)

  datatype SearchResult = SearchResult(pagedResultsCookie: Option<string>, remainingPagedResults: int)

  datatype DeltaType = CreateOrUpdate | Delete

  datatype SyncDelta = SyncDelta(
    uid: string,
    previousUid: Option<string>,
    token: Value,
    deltaType: DeltaType,
    connectorObject: ConnectorObject)

  /** A compiled script: the language it was compiled for and its source. */
  datatype Executor = Executor(language: string, source: string)

  /** One entry of the argument map handed to a script. */
  datatype Arg =
    | Text(s: string)
    | NullArg
    | Attributes(m: map<string, seq<Value>>)
    | Raw(v: Value)

  type Args = map<string, Arg>

  /** What running a script gives: a returned value or a raised exception. */
  datatype ScriptOutcome = Returned(value: Value) | Threw(exception: Exception)

  /** The world outside the connector: the readable files, the system
      properties, whether a source compiles in a language, the script engine,
      the framework's check that a value has a supported attribute type, and
      the framework's set of operational attribute names. */
  datatype Host = Host(
    files: map<string, string>,
    properties: map<string, string>,
    compiles: (string, string) -> bool,
    run: (Executor, Args) -> ScriptOutcome,
    supportedType: Value -> bool,
    operational: set<string>)

  /** The exception `FrameworkUtil.checkAttributeType` raises for a value of an
      unsupported type. */
  const UNSUPPORTED_TYPE := IllegalArgument("unsupported attribute type")

  /** A `ResultsHandler`; `pagedResults` says whether it is also a
      `SearchResultsHandler`, which receives the closing summary. */
  datatype SearchHandler = SearchHandler(pagedResults: bool)

  /** A `SyncResultsHandler` whose answers to successive deltas are given in
      order; a delta past the end of the list is accepted. */
  datatype SyncHandler = SyncHandler(answers: seq<bool>)

  function Answer(handler: SyncHandler, k: nat): bool
  {
    if k < |handler.answers| then handler.answers[k] else true
  }

  /** The value-wrapping rule shared by search and sync: a collection becomes
      the attribute's values as it is, any other non-null value a single value,
      and null no value at all. */
  function AttributeValues(v: Value): seq<Value>
  {
    if v.List? then v.items else if v.Null? then [] else [v]
  }
}
