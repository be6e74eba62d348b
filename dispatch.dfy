/** What each operation does once its script slot is settled: the fixed order
    of the precondition checks, the arguments handed to the script, and how the
    script's result or exception becomes the operation's result. */
module Dispatch {
  import opened Dynamic
  import opened Framework
  import opened Arguments
  import opened SearchResults
  import opened SyncDeltas

  type Unit = ()

  /** A `ConnectorException` wrapping the exception it was raised for. */
  function Wrapped(message: string, cause: Exception): Exception
  {
    Connector(message, Some(cause))
  }

  const CREATE_ERROR := "Create script error"
  const CREATE_NO_UID := "Create script didn't return with the __UID__ value"
  const UPDATE_NO_UID := "Update script didn't return with the __UID__ value"
  const DELETE_ERROR := "Delete script error"
  const SEARCH_ERROR := "Search script error"
  const SYNC_ERROR := "Sync script error"
  const TOKEN_ERROR := "Sync (GetLatestSyncToken) script error"
  const UNKNOWN_TOKEN := "Unknown Token type"
  const TEST_ERROR := "Test script error"

  function UpdateError(action: string): string
  {
    "Update(" + action + ") script error"
  }

  /** An attribute set that is null or empty is refused. */
  predicate Blank(attrs: Option<seq<Attribute>>)
  {
    attrs.None? || attrs.value == []
  }

  /** A uid that is null or holds a null value is refused. */
  predicate BlankUid(uid: Option<Uid>)
  {
    uid.None? || uid.value.value.None?
  }

  function CreateArguments(objectClass: string, id: Arg, attrs: seq<Attribute>): Args
  {
    map["action" := Text("CREATE"), "objectClass" := Text(objectClass), "id" := id,
        "attributes" := Attributes(AttributeMap(attrs) - {NAME_NAME})]
  }

  /** `create` after its reload step, given the create slot. */
  function CreateOutcome(exec: Option<Executor>, objectClass: Option<string>, attrs: Option<seq<Attribute>>, host: Host)
    : (r: Result<string>)
    ensures exec.None? ==> r == Err(UnsupportedOperation)
    ensures exec.Some? && objectClass.None? ==> r == Err(IllegalArgument(MSG_OBJECT_CLASS_REQUIRED))
    ensures exec.Some? && objectClass.Some? && Blank(attrs) ==> r == Err(IllegalArgument(MSG_INVALID_ATTRIBUTE_SET))
    ensures r.Ok? ==> (exec.Some? && objectClass.Some? && attrs.Some? && CreateId(attrs.value).Ok?
      && host.run(exec.value, CreateArguments(objectClass.value, CreateId(attrs.value).value, attrs.value)) == Returned(Str(r.value)))
    ensures r.Err? && r.error.Connector? ==> r.error.message == CREATE_ERROR && r.error.cause.Some?
    ensures exec.Some? && objectClass.Some? && !Blank(attrs) && CreateId(attrs.value).Err? ==>
      r == Err(CreateId(attrs.value).error)
    ensures exec.Some? && objectClass.Some? && !Blank(attrs) && CreateId(attrs.value).Ok? ==>
      var out := host.run(exec.value, CreateArguments(objectClass.value, CreateId(attrs.value).value, attrs.value));
      (out.Threw? ==> r == Err(Wrapped(CREATE_ERROR, out.exception)))
      && (out.Returned? && !out.value.Str? ==> r == Err(Wrapped(CREATE_ERROR, Connector(CREATE_NO_UID, None))))
      && (out.Returned? && out.value.Str? ==> r == Ok(out.value.s))
  {
    if exec.None? then Err(UnsupportedOperation)
    else if objectClass.None? then Err(IllegalArgument(MSG_OBJECT_CLASS_REQUIRED))
    else if Blank(attrs) then Err(IllegalArgument(MSG_INVALID_ATTRIBUTE_SET))
    else
      match CreateId(attrs.value)
      case Err(x) => Err(x)
      case Ok(id) =>
        match host.run(exec.value, CreateArguments(objectClass.value, id, attrs.value))
        case Threw(e) => Err(Wrapped(CREATE_ERROR, e))
        case Returned(v) =>
          if v.Str? then Ok(v.s) else Err(Wrapped(CREATE_ERROR, Connector(CREATE_NO_UID, None)))
  }

  function UpdateArguments(action: string, objectClass: string, id: string, attrs: seq<Attribute>, operational: set<string>): Args
  {
    map["action" := Text(action), "objectClass" := Text(objectClass), "uid" := Text(id),
        "attributes" := Attributes(AttributeMap(KeptAttributes(attrs, action, operational)))]
  }

  /** `genericUpdate` after its reload step, given the update slot. */
  function UpdateOutcome(action: string, exec: Option<Executor>, objectClass: Option<string>, uid: Option<Uid>,
                         attrs: Option<seq<Attribute>>, host: Host): (r: Result<string>)
    ensures exec.None? ==> r == Err(UnsupportedOperation)
    ensures exec.Some? && objectClass.None? ==> r == Err(IllegalArgument(MSG_OBJECT_CLASS_REQUIRED))
    ensures exec.Some? && objectClass.Some? && Blank(attrs) ==> r == Err(IllegalArgument(MSG_INVALID_ATTRIBUTE_SET))
    ensures exec.Some? && objectClass.Some? && !Blank(attrs) && BlankUid(uid) ==> r == Err(IllegalArgument(MSG_BLANK_UID))
    ensures r.Ok? ==> (exec.Some? && objectClass.Some? && attrs.Some? && !BlankUid(uid)
      && host.run(exec.value, UpdateArguments(action, objectClass.value, uid.value.value.value, attrs.value, host.operational))
         == Returned(Str(r.value)))
    ensures r.Err? && r.error.Connector? ==>
      r.error == Connector(UPDATE_NO_UID, None) || (r.error.message == UpdateError(action) && r.error.cause.Some?)
    ensures exec.Some? && objectClass.Some? && !Blank(attrs) && !BlankUid(uid) ==>
      var out := host.run(exec.value, UpdateArguments(action, objectClass.value, uid.value.value.value, attrs.value, host.operational));
      (out.Threw? ==> r == Err(Wrapped(UpdateError(action), out.exception)))
      && (out.Returned? && !out.value.Str? ==> r == Err(Connector(UPDATE_NO_UID, None)))
      && (out.Returned? && out.value.Str? ==> r == Ok(out.value.s))
  {
    if exec.None? then Err(UnsupportedOperation)
    else if objectClass.None? then Err(IllegalArgument(MSG_OBJECT_CLASS_REQUIRED))
    else if Blank(attrs) then Err(IllegalArgument(MSG_INVALID_ATTRIBUTE_SET))
    else if BlankUid(uid) then Err(IllegalArgument(MSG_BLANK_UID))
    else
      match host.run(exec.value, UpdateArguments(action, objectClass.value, uid.value.value.value, attrs.value, host.operational))
      case Threw(e) => Err(Wrapped(UpdateError(action), e))
      case Returned(v) => if v.Str? then Ok(v.s) else Err(Connector(UPDATE_NO_UID, None))
  }

  function DeleteArguments(objectClass: string, id: string): Args
  {
    map["action" := Text("DELETE"), "objectClass" := Text(objectClass), "uid" := Text(id)]
  }

  /** `delete` after its reload step, given the delete slot; whatever the
      script returns is ignored. */
  function DeleteOutcome(exec: Option<Executor>, objectClass: Option<string>, uid: Option<Uid>, host: Host): (r: Result<Unit>)
    ensures exec.None? ==> r == Err(UnsupportedOperation)
    ensures exec.Some? && objectClass.None? ==> r == Err(IllegalArgument(MSG_OBJECT_CLASS_REQUIRED))
    ensures exec.Some? && objectClass.Some? && BlankUid(uid) ==> r == Err(IllegalArgument(MSG_BLANK_UID))
    ensures exec.Some? && objectClass.Some? && !BlankUid(uid) ==>
      (r.Ok? <==> host.run(exec.value, DeleteArguments(objectClass.value, uid.value.value.value)).Returned?)
    ensures r.Err? && r.error.Connector? ==> r.error.message == DELETE_ERROR && r.error.cause.Some?
    ensures exec.Some? && objectClass.Some? && !BlankUid(uid) ==>
      var out := host.run(exec.value, DeleteArguments(objectClass.value, uid.value.value.value));
      out.Threw? ==> r == Err(Wrapped(DELETE_ERROR, out.exception))
  {
    if exec.None? then Err(UnsupportedOperation)
    else if objectClass.None? then Err(IllegalArgument(MSG_OBJECT_CLASS_REQUIRED))
    else if BlankUid(uid) then Err(IllegalArgument(MSG_BLANK_UID))
    else
      match host.run(exec.value, DeleteArguments(objectClass.value, uid.value.value.value))
      case Threw(e) => Err(Wrapped(DELETE_ERROR, e))
      case Returned(_) => Ok(())
  }

  function SearchArguments(objectClass: string, query: Value): Args
  {
    map["objectClass" := Text(objectClass), "action" := Text("SEARCH"), "query" := Raw(query)]
  }

  /** The unchecked cast to a list: null passes the cast and fails when the
      loop starts, anything but a list fails the cast. */
  function Rows(v: Value): (r: Result<seq<Value>>)
    ensures r.Ok? <==> v.List?
    ensures r.Ok? ==> r.value == v.items
  {
    match v
    case List(items) => Ok(items)
    case Null => Err(NullPointer)
    case _ => Err(ClassCast)
  }

  function SearchFailed(e: Exception): SearchRun
  {
    SearchRun([], None, Some(e))
  }

  /** `executeQuery` after its reload step, given the search slot: what the
      handler received and the exception the call ends with.  The translator's
      exception is wrapped like the script's own. */
  function QueryOutcome(exec: Option<Executor>, objectClass: Option<string>, query: Value,
                        handler: Option<SearchHandler>, host: Host): (r: SearchRun)
    ensures exec.None? ==> r == SearchFailed(UnsupportedOperation)
    ensures exec.Some? && objectClass.None? ==> r == SearchFailed(IllegalArgument(MSG_OBJECT_CLASS_REQUIRED))
    ensures exec.Some? && objectClass.Some? && handler.None? ==> r == SearchFailed(IllegalArgument(MSG_BLANK_RESULT_HANDLER))
    ensures r.failure.None? ==> (exec.Some? && objectClass.Some? && handler.Some?
      && host.run(exec.value, SearchArguments(objectClass.value, query)).Returned?
      && Rows(host.run(exec.value, SearchArguments(objectClass.value, query)).value).Ok?
      && r == Translate(Rows(host.run(exec.value, SearchArguments(objectClass.value, query)).value).value,
                        objectClass.value, handler.value))
    ensures r.failure.Some? ==> r.summary.None?
    ensures r.failure.Some? && r.failure.value.Connector? ==>
      r.failure.value.message == SEARCH_ERROR && r.failure.value.cause.Some?
    ensures exec.Some? && objectClass.Some? && handler.Some? ==>
      var out := host.run(exec.value, SearchArguments(objectClass.value, query));
      (out.Threw? ==> r == SearchFailed(Wrapped(SEARCH_ERROR, out.exception)))
      && (out.Returned? && !out.value.List? ==> r == SearchFailed(Wrapped(SEARCH_ERROR, Rows(out.value).error)))
      && (out.Returned? && out.value.List? ==>
            var scan := ScanRows(out.value.items, objectClass.value);
            r.objects == scan.objects
            && (scan.failure.Some? ==> r.failure == Some(Wrapped(SEARCH_ERROR, scan.failure.value)))
            && (scan.failure.None? ==> r.failure.None?))
  {
    if exec.None? then SearchFailed(UnsupportedOperation)
    else if objectClass.None? then SearchFailed(IllegalArgument(MSG_OBJECT_CLASS_REQUIRED))
    else if handler.None? then SearchFailed(IllegalArgument(MSG_BLANK_RESULT_HANDLER))
    else
      match host.run(exec.value, SearchArguments(objectClass.value, query))
      case Threw(e) => SearchFailed(Wrapped(SEARCH_ERROR, e))
      case Returned(v) =>
        match Rows(v)
        case Err(x) => SearchFailed(Wrapped(SEARCH_ERROR, x))
        case Ok(rows) =>
          var run := Translate(rows, objectClass.value, handler.value);
          if run.failure.Some? then run.(failure := Some(Wrapped(SEARCH_ERROR, run.failure.value))) else run
  }

  function SyncArguments(objectClass: string, token: Option<Value>): Args
  {
    map["objectClass" := Text(objectClass), "action" := Text("SYNC"),
        "token" := Raw(if token.Some? then token.value else Null)]
  }

  function SyncFailed(e: Exception): SyncRun
  {
    SyncRun([], false, Some(e))
  }

  /** `sync` after its reload step, given the sync slot; `token` is the
      previous sync token, if any. */
  function SyncOutcome(exec: Option<Executor>, objectClass: Option<string>, token: Option<Value>,
                       handler: Option<SyncHandler>, host: Host): (r: SyncRun)
    ensures exec.None? ==> r == SyncFailed(UnsupportedOperation)
    ensures exec.Some? && objectClass.None? ==> r == SyncFailed(IllegalArgument(MSG_OBJECT_CLASS_REQUIRED))
    ensures exec.Some? && objectClass.Some? && handler.None? ==> r == SyncFailed(IllegalArgument(MSG_BLANK_RESULT_HANDLER))
    ensures r.failure.None? ==> (exec.Some? && objectClass.Some? && handler.Some?
      && host.run(exec.value, SyncArguments(objectClass.value, token)).Returned?
      && Rows(host.run(exec.value, SyncArguments(objectClass.value, token)).value).Ok?
      && r == SyncRows(Rows(host.run(exec.value, SyncArguments(objectClass.value, token)).value).value,
                       objectClass.value, handler.value))
    ensures r.failure.Some? && r.failure.value.Connector? ==>
      r.failure.value.message == SYNC_ERROR && r.failure.value.cause.Some?
    ensures exec.Some? && objectClass.Some? && handler.Some? ==>
      var out := host.run(exec.value, SyncArguments(objectClass.value, token));
      (out.Threw? ==> r == SyncFailed(Wrapped(SYNC_ERROR, out.exception)))
      && (out.Returned? && !out.value.List? ==> r == SyncFailed(Wrapped(SYNC_ERROR, Rows(out.value).error)))
      && (out.Returned? && out.value.List? ==>
            var run := SyncRows(out.value.items, objectClass.value, handler.value);
            r.deltas == run.deltas && r.stopped == run.stopped
            && (run.failure.Some? ==> r.failure == Some(Wrapped(SYNC_ERROR, run.failure.value)))
            && (run.failure.None? ==> r.failure.None?))
  {
    if exec.None? then SyncFailed(UnsupportedOperation)
    else if objectClass.None? then SyncFailed(IllegalArgument(MSG_OBJECT_CLASS_REQUIRED))
    else if handler.None? then SyncFailed(IllegalArgument(MSG_BLANK_RESULT_HANDLER))
    else
      match host.run(exec.value, SyncArguments(objectClass.value, token))
      case Threw(e) => SyncFailed(Wrapped(SYNC_ERROR, e))
      case Returned(v) =>
        match Rows(v)
        case Err(x) => SyncFailed(Wrapped(SYNC_ERROR, x))
        case Ok(rows) =>
          var run := SyncRows(rows, objectClass.value, handler.value);
          if run.failure.Some? then run.(failure := Some(Wrapped(SYNC_ERROR, run.failure.value))) else run
  }

  function LatestTokenArguments(objectClass: string): Args
  {
    map["objectClass" := Text(objectClass), "action" := Text("GET_LATEST_SYNC_TOKEN")]
  }

  /** `getLatestSyncToken` after its reload step, given the sync slot.  An
      `IllegalArgumentException` inside the `try`, from the type check or from
      the script itself, becomes "Unknown Token type"; any other exception,
      including the null dereference of a null result, the generic error. */
  function LatestTokenOutcome(exec: Option<Executor>, objectClass: Option<string>, host: Host): (r: Result<Value>)
    ensures exec.None? ==> r == Err(UnsupportedOperation)
    ensures exec.Some? && objectClass.None? ==> r == Err(IllegalArgument(MSG_OBJECT_CLASS_REQUIRED))
    ensures r.Ok? ==> (r.value != Null && host.supportedType(r.value) && exec.Some? && objectClass.Some?
      && host.run(exec.value, LatestTokenArguments(objectClass.value)) == Returned(r.value))
    ensures exec.Some? && objectClass.Some? ==>
      var out := host.run(exec.value, LatestTokenArguments(objectClass.value));
      (out.Returned? && out.value != Null && !host.supportedType(out.value) ==> r == Err(Wrapped(UNKNOWN_TOKEN, UNSUPPORTED_TYPE)))
      && (out == Returned(Null) ==> r == Err(Wrapped(TOKEN_ERROR, NullPointer)))
      && (out.Threw? ==> r == Err(Wrapped(if out.exception.IllegalArgument? then UNKNOWN_TOKEN else TOKEN_ERROR, out.exception)))
      && (out.Returned? && out.value != Null && host.supportedType(out.value) ==> r == Ok(out.value))
  {
    if exec.None? then Err(UnsupportedOperation)
    else if objectClass.None? then Err(IllegalArgument(MSG_OBJECT_CLASS_REQUIRED))
    else
      var failure :=
        match host.run(exec.value, LatestTokenArguments(objectClass.value))
        case Threw(e) => Some(e)
        case Returned(v) =>
          if v.Null? then Some(NullPointer)
          else if !host.supportedType(v) then Some(UNSUPPORTED_TYPE)
          else None;
      match failure
      case Some(e) => Err(Wrapped(if e.IllegalArgument? then UNKNOWN_TOKEN else TOKEN_ERROR, e))
      case None => Ok(host.run(exec.value, LatestTokenArguments(objectClass.value)).value)
  }

  const TEST_ARGUMENTS: Args := map["action" := Text("TEST")]

  /** `test` after its reload step, given the test slot: without a script it
      does nothing. */
  function TestOutcome(exec: Option<Executor>, host: Host): (r: Result<Unit>)
    ensures exec.None? ==> r == Ok(())
    ensures exec.Some? ==> (r.Ok? <==> host.run(exec.value, TEST_ARGUMENTS).Returned?)
    ensures r.Err? ==> r.error.Connector? && r.error.message == TEST_ERROR && r.error.cause.Some?
    ensures exec.Some? && host.run(exec.value, TEST_ARGUMENTS).Threw? ==>
      r == Err(Wrapped(TEST_ERROR, host.run(exec.value, TEST_ARGUMENTS).exception))
  {
    if exec.None? then Ok(())
    else
      match host.run(exec.value, TEST_ARGUMENTS)
      case Threw(e) => Err(Wrapped(TEST_ERROR, e))
      case Returned(_) => Ok(())
  }

  /** With no script in its slot, every operation but `test` refuses with
      `UnsupportedOperationException` whatever its arguments, and `test`
      succeeds without doing anything. */
  lemma NoScriptRefusesBeforeChecks(action: string, objectClass: Option<string>, uid: Option<Uid>,
                                    attrs: Option<seq<Attribute>>, query: Value, token: Option<Value>,
                                    searchHandler: Option<SearchHandler>, syncHandler: Option<SyncHandler>, host: Host)
    ensures CreateOutcome(None, objectClass, attrs, host) == Err(UnsupportedOperation)
    ensures UpdateOutcome(action, None, objectClass, uid, attrs, host) == Err(UnsupportedOperation)
    ensures DeleteOutcome(None, objectClass, uid, host) == Err(UnsupportedOperation)
    ensures QueryOutcome(None, objectClass, query, searchHandler, host) == SearchFailed(UnsupportedOperation)
    ensures SyncOutcome(None, objectClass, token, syncHandler, host) == SyncFailed(UnsupportedOperation)
    ensures LatestTokenOutcome(None, objectClass, host) == Err(UnsupportedOperation)
    ensures TestOutcome(None, host) == Ok(())
  {
  }

  /** A script that does not return a string, null included, is a failed `create`: the
      connector's own "didn't return" exception is caught by the same `try`
      and wrapped as a script error.  In the update family the same case is
      raised outside the `try` and is not wrapped. */
  lemma NonStringUidWrappedOnlyByCreate(exec: Executor, objectClass: string, uid: string, attrs: seq<Attribute>,
                                        action: string, v: Value, host: Host)
    requires attrs != [] && !v.Str?
    requires CreateId(attrs).Ok?
    requires host.run(exec, CreateArguments(objectClass, CreateId(attrs).value, attrs)) == Returned(v)
    requires host.run(exec, UpdateArguments(action, objectClass, uid, attrs, host.operational)) == Returned(v)
    ensures CreateOutcome(Some(exec), Some(objectClass), Some(attrs), host)
         == Err(Connector(CREATE_ERROR, Some(Connector(CREATE_NO_UID, None))))
    ensures UpdateOutcome(action, Some(exec), Some(objectClass), Some(Uid(Some(uid))), Some(attrs), host)
         == Err(Connector(UPDATE_NO_UID, None))
  {
  }

  /** `ADD_ATTRIBUTE_VALUES` and `REMOVE_ATTRIBUTE_VALUES` never pass an
      operational attribute to the script; `UPDATE` passes every attribute. */
  lemma UpdateFamilyAttributes(objectClass: string, id: string, attrs: seq<Attribute>, operational: set<string>, name: string)
    ensures name in operational ==>
      name !in UpdateArguments("ADD_ATTRIBUTE_VALUES", objectClass, id, attrs, operational)["attributes"].m
      && name !in UpdateArguments("REMOVE_ATTRIBUTE_VALUES", objectClass, id, attrs, operational)["attributes"].m
    ensures name in UpdateArguments("UPDATE", objectClass, id, attrs, operational)["attributes"].m
        <==> exists a :: a in attrs && a.name == name
  {
    UpdateAttributeKeys(attrs, "ADD_ATTRIBUTE_VALUES", operational, name);
    UpdateAttributeKeys(attrs, "REMOVE_ATTRIBUTE_VALUES", operational, name);
    UpdateAttributeKeys(attrs, "UPDATE", operational, name);
    assert IsPlainUpdate("UPDATE");
    assert !IsPlainUpdate("ADD_ATTRIBUTE_VALUES");
    assert !IsPlainUpdate("REMOVE_ATTRIBUTE_VALUES");
  }
}
