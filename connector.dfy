/** The connector object: its configuration and its nine script slots, loaded
    by `init` and, when the configuration asks for it, reloaded at the top of
    every operation. */
module Connector {
  import opened Dynamic
  import opened Framework
  import opened Placeholders
  import opened Arguments
  import opened SearchResults
  import opened SyncDeltas
  import opened Dispatch

  /** A configured script: its inline source (possibly null) and the name of
      a file that, when given, is read instead. */
  datatype ScriptSource = ScriptSource(inline: Option<string>, fileName: Option<string>)

  datatype Config = Config(
    language: string,
    create: ScriptSource,
    update: ScriptSource,
    delete: ScriptSource,
    search: ScriptSource,
    authenticate: ScriptSource,
    resolveUsername: ScriptSource,
    sync: ScriptSource,
    schemaFileName: Option<string>,
    test: ScriptSource,
    reloadScriptOnExecution: bool)

  /** The schema script has no inline form: its inline source is always empty. */
  function SchemaSource(cfg: Config): ScriptSource
  {
    ScriptSource(Some(""), cfg.schemaFileName)
  }

  const SCRIPT_ERROR := "Script error"

  /** `getScriptExecutor`, given the file name after placeholder resolution:
      no executor for an empty source, a compiled executor otherwise. */
  function Load(source: ScriptSource, language: string, path: string, host: Host): Result<Option<Executor>>
  {
    var code: Result<Option<string>> :=
      if source.fileName.None? then Ok(source.inline)
      else if path in host.files then Ok(Some(host.files[path]))
      else Err(Wrapped(SCRIPT_ERROR, FileNotReadable(path)));
    match code
    case Err(x) => Err(x)
    case Ok(None) => Err(NullPointer)
    case Ok(Some(c)) =>
      if |c| == 0 then Ok(None)
      else if !host.compiles(language, c) then Err(CompileFailure(c))
      else Ok(Some(Executor(language, c)))
  }

  /** What loading gives: the read failure for a missing file, a null
      dereference for a null inline source, no executor exactly when the
      source is empty, and otherwise a compiled executor of the source read
      from the file, or of the inline source when there is no file name; a
      source that does not compile raises the compiler's failure unwrapped,
      because only the read failure is caught. */
  lemma LoadCases(source: ScriptSource, language: string, path: string, host: Host)
    ensures source.fileName.Some? && path !in host.files ==> Load(source, language, path, host) == Err(Wrapped(SCRIPT_ERROR, FileNotReadable(path)))
    ensures source.fileName.None? && source.inline.None? ==> Load(source, language, path, host) == Err(NullPointer)
    ensures Load(source, language, path, host) == Ok(None) <==>
      if source.fileName.Some? then path in host.files && host.files[path] == "" else source.inline == Some("")
    ensures Load(source, language, path, host).Ok? && Load(source, language, path, host).value.Some? ==>
      var e := Load(source, language, path, host).value.value;
      e.language == language && e.source != "" && host.compiles(language, e.source)
      && (source.fileName.Some? ==> path in host.files && e.source == host.files[path])
      && (source.fileName.None? ==> source.inline == Some(e.source))
    ensures var code := if source.fileName.None? then source.inline
                        else if path in host.files then Some(host.files[path]) else None;
      code.Some? && code.value != "" ==>
        Load(source, language, path, host)
          == if host.compiles(language, code.value) then Ok(Some(Executor(language, code.value)))
             else Err(CompileFailure(code.value))
  {
  }

  /** `path` is what placeholder resolution may make of the file name; without
      a file name the path is not used. */
  ghost predicate PathFor(source: ScriptSource, properties: map<string, string>, path: string)
  {
    source.fileName.None? || IsResolution(source.fileName.value, properties, path)
  }

  /** Some resolution of the file name loads `result`. */
  ghost predicate Loads(source: ScriptSource, language: string, host: Host, result: Result<Option<Executor>>)
  {
    exists path :: PathFor(source, host.properties, path) && Load(source, language, path, host) == result
  }

  /** The reload step of an operation: with reloading off the slot is kept;
      with it on the slot is replaced by a fresh load, unless loading fails,
      in which case the slot is kept and the failure ends the operation. */
  ghost predicate Refreshed(reload: bool, source: ScriptSource, language: string, host: Host,
                            before: Option<Executor>, after: Option<Executor>, failure: Option<Exception>)
  {
    if !reload then after == before && failure.None?
    else
      exists path :: PathFor(source, host.properties, path) &&
        match Load(source, language, path, host)
        case Err(x) => failure == Some(x) && after == before
        case Ok(e) => failure.None? && after == e
  }

  /** A file name makes the inline source irrelevant. */
  lemma FileWinsOverInline(source: ScriptSource, otherInline: Option<string>, language: string, path: string, host: Host)
    requires source.fileName.Some?
    ensures Load(source, language, path, host) == Load(source.(inline := otherInline), language, path, host)
  {
  }

  /** Without a schema file name the schema slot is always empty. */
  lemma SchemaNeedsFile(cfg: Config, path: string, host: Host)
    requires cfg.schemaFileName.None?
    ensures Load(SchemaSource(cfg), cfg.language, path, host) == Ok(None)
  {
  }

  /** A file name without placeholders whose value is known is read as it is. */
  lemma PlainFileNameReadAsIs(source: ScriptSource, host: Host, path: string)
    requires source.fileName.Some?
    requires forall v :: v in Names(source.fileName.value) ==> v !in host.properties
    requires PathFor(source, host.properties, path)
    ensures path == source.fileName.value
  {
    var order :| Enumerates(order, Names(source.fileName.value))
      && path == Substitute(source.fileName.value, order, host.properties);
    SubstituteUntouched(source.fileName.value, order, host.properties);
  }

  class ScriptedConnector {
    var config: Option<Config>
    var createExecutor: Option<Executor>
    var updateExecutor: Option<Executor>
    var deleteExecutor: Option<Executor>
    var searchExecutor: Option<Executor>
    var authenticateExecutor: Option<Executor>
    var resolveUsernameExecutor: Option<Executor>
    var syncExecutor: Option<Executor>
    var schemaExecutor: Option<Executor>
    var testExecutor: Option<Executor>

    /** Before `init` there is no configuration and every slot is empty. */
    constructor()
      ensures config.None?
      ensures createExecutor.None? && updateExecutor.None? && deleteExecutor.None?
      ensures searchExecutor.None? && authenticateExecutor.None? && resolveUsernameExecutor.None?
      ensures syncExecutor.None? && schemaExecutor.None? && testExecutor.None?
    {
      config := None;
      createExecutor, updateExecutor, deleteExecutor := None, None, None;
      searchExecutor, authenticateExecutor, resolveUsernameExecutor := None, None, None;
      syncExecutor, schemaExecutor, testExecutor := None, None, None;
    }

    /** `getScriptExecutor`: the file name is resolved against the system
        properties, the file read, and a non-empty source compiled. */
    method GetScriptExecutor(source: ScriptSource, language: string, host: Host)
      returns (r: Result<Option<Executor>>, ghost path: string)
      ensures PathFor(source, host.properties, path)
      ensures r == Load(source, language, path, host)
    {
      var scriptCode := source.inline;
      path := "";
      if source.fileName.Some? {
        var resolved;
        ghost var order;
        resolved, order := ResolveVariables(source.fileName.value, host.properties);
        assert IsResolution(source.fileName.value, host.properties, resolved);
        path := resolved;
        if resolved !in host.files {
          r := Err(Wrapped(SCRIPT_ERROR, FileNotReadable(resolved)));
          return;
        }
        scriptCode := Some(host.files[resolved]);
      }
      if scriptCode.None? {
        r := Err(NullPointer);
        return;
      }
      if |scriptCode.value| > 0 {
        if !host.compiles(language, scriptCode.value) {
          r := Err(CompileFailure(scriptCode.value));
          return;
        }
        r := Ok(Some(Executor(language, scriptCode.value)));
      } else {
        r := Ok(None);
      }
    }

    /** One slot's load in `init`, with the resolved path left implicit. */
    method LoadSlot(source: ScriptSource, language: string, host: Host) returns (r: Result<Option<Executor>>)
      ensures Loads(source, language, host, r)
    {
      ghost var path;
      r, path := GetScriptExecutor(source, language, host);
    }

    /** `init`: keeps the configuration and loads the nine slots in order;
        the first load that fails ends it. */
    method Init(cfg: Config, host: Host) returns (r: Result<Unit>)
      modifies this
      ensures config == Some(cfg)
      ensures r.Ok? ==>
        Loads(cfg.create, cfg.language, host, Ok(createExecutor))
        && Loads(cfg.update, cfg.language, host, Ok(updateExecutor))
        && Loads(cfg.delete, cfg.language, host, Ok(deleteExecutor))
        && Loads(cfg.search, cfg.language, host, Ok(searchExecutor))
        && Loads(cfg.authenticate, cfg.language, host, Ok(authenticateExecutor))
        && Loads(cfg.resolveUsername, cfg.language, host, Ok(resolveUsernameExecutor))
        && Loads(cfg.sync, cfg.language, host, Ok(syncExecutor))
        && Loads(SchemaSource(cfg), cfg.language, host, Ok(schemaExecutor))
        && Loads(cfg.test, cfg.language, host, Ok(testExecutor))
      ensures r.Err? ==>
        Loads(cfg.create, cfg.language, host, Err(r.error))
        || Loads(cfg.update, cfg.language, host, Err(r.error))
        || Loads(cfg.delete, cfg.language, host, Err(r.error))
        || Loads(cfg.search, cfg.language, host, Err(r.error))
        || Loads(cfg.authenticate, cfg.language, host, Err(r.error))
        || Loads(cfg.resolveUsername, cfg.language, host, Err(r.error))
        || Loads(cfg.sync, cfg.language, host, Err(r.error))
        || Loads(SchemaSource(cfg), cfg.language, host, Err(r.error))
        || Loads(cfg.test, cfg.language, host, Err(r.error))
      ensures r.Err? ==>
        (FirstSlotsStopped(cfg, host, r.error)
          && resolveUsernameExecutor == old(resolveUsernameExecutor) && syncExecutor == old(syncExecutor)
          && schemaExecutor == old(schemaExecutor) && testExecutor == old(testExecutor))
        || (Loads(cfg.create, cfg.language, host, Ok(createExecutor))
          && Loads(cfg.update, cfg.language, host, Ok(updateExecutor))
          && Loads(cfg.delete, cfg.language, host, Ok(deleteExecutor))
          && Loads(cfg.search, cfg.language, host, Ok(searchExecutor))
          && Loads(cfg.authenticate, cfg.language, host, Ok(authenticateExecutor))
          && LastSlotsStopped(cfg, host, r.error))
    {
      config := Some(cfg);
      r := LoadFirstSlots(cfg, host);
      if r.Err? { return; }
      r := LoadLastSlots(cfg, host);
    }

    /** The first five loads of `init` stopped at the failure `e`: the slots
        before the failing one hold their fresh loads, the failing slot and the
        slots after it keep what they held. */
    twostate predicate FirstSlotsStopped(cfg: Config, host: Host, e: Exception)
      reads this
    {
      var lang := cfg.language;
      (Loads(cfg.create, lang, host, Err(e))
        && createExecutor == old(createExecutor) && updateExecutor == old(updateExecutor)
        && deleteExecutor == old(deleteExecutor) && searchExecutor == old(searchExecutor)
        && authenticateExecutor == old(authenticateExecutor))
      || (Loads(cfg.create, lang, host, Ok(createExecutor)) && Loads(cfg.update, lang, host, Err(e))
        && updateExecutor == old(updateExecutor) && deleteExecutor == old(deleteExecutor)
        && searchExecutor == old(searchExecutor) && authenticateExecutor == old(authenticateExecutor))
      || (Loads(cfg.create, lang, host, Ok(createExecutor)) && Loads(cfg.update, lang, host, Ok(updateExecutor))
        && Loads(cfg.delete, lang, host, Err(e))
        && deleteExecutor == old(deleteExecutor) && searchExecutor == old(searchExecutor)
        && authenticateExecutor == old(authenticateExecutor))
      || (Loads(cfg.create, lang, host, Ok(createExecutor)) && Loads(cfg.update, lang, host, Ok(updateExecutor))
        && Loads(cfg.delete, lang, host, Ok(deleteExecutor)) && Loads(cfg.search, lang, host, Err(e))
        && searchExecutor == old(searchExecutor) && authenticateExecutor == old(authenticateExecutor))
      || (Loads(cfg.create, lang, host, Ok(createExecutor)) && Loads(cfg.update, lang, host, Ok(updateExecutor))
        && Loads(cfg.delete, lang, host, Ok(deleteExecutor)) && Loads(cfg.search, lang, host, Ok(searchExecutor))
        && Loads(cfg.authenticate, lang, host, Err(e)) && authenticateExecutor == old(authenticateExecutor))
    }

    /** The last four loads of `init` stopped at the failure `e`, in the same
        sense. */
    twostate predicate LastSlotsStopped(cfg: Config, host: Host, e: Exception)
      reads this
    {
      var lang := cfg.language;
      (Loads(cfg.resolveUsername, lang, host, Err(e))
        && resolveUsernameExecutor == old(resolveUsernameExecutor) && syncExecutor == old(syncExecutor)
        && schemaExecutor == old(schemaExecutor) && testExecutor == old(testExecutor))
      || (Loads(cfg.resolveUsername, lang, host, Ok(resolveUsernameExecutor)) && Loads(cfg.sync, lang, host, Err(e))
        && syncExecutor == old(syncExecutor) && schemaExecutor == old(schemaExecutor) && testExecutor == old(testExecutor))
      || (Loads(cfg.resolveUsername, lang, host, Ok(resolveUsernameExecutor)) && Loads(cfg.sync, lang, host, Ok(syncExecutor))
        && Loads(SchemaSource(cfg), lang, host, Err(e))
        && schemaExecutor == old(schemaExecutor) && testExecutor == old(testExecutor))
      || (Loads(cfg.resolveUsername, lang, host, Ok(resolveUsernameExecutor)) && Loads(cfg.sync, lang, host, Ok(syncExecutor))
        && Loads(SchemaSource(cfg), lang, host, Ok(schemaExecutor)) && Loads(cfg.test, lang, host, Err(e))
        && testExecutor == old(testExecutor))
    }

    /** The first five loads of `init`, in its order: create, update, delete,
        search, authenticate.  A failure stops the loads. */
    method LoadFirstSlots(cfg: Config, host: Host) returns (r: Result<Unit>)
      modifies this`createExecutor, this`updateExecutor, this`deleteExecutor, this`searchExecutor, this`authenticateExecutor
      ensures r.Ok? ==>
        Loads(cfg.create, cfg.language, host, Ok(createExecutor))
        && Loads(cfg.update, cfg.language, host, Ok(updateExecutor))
        && Loads(cfg.delete, cfg.language, host, Ok(deleteExecutor))
        && Loads(cfg.search, cfg.language, host, Ok(searchExecutor))
        && Loads(cfg.authenticate, cfg.language, host, Ok(authenticateExecutor))
      ensures r.Err? ==>
        Loads(cfg.create, cfg.language, host, Err(r.error))
        || Loads(cfg.update, cfg.language, host, Err(r.error))
        || Loads(cfg.delete, cfg.language, host, Err(r.error))
        || Loads(cfg.search, cfg.language, host, Err(r.error))
        || Loads(cfg.authenticate, cfg.language, host, Err(r.error))
      ensures r.Err? ==> FirstSlotsStopped(cfg, host, r.error)
    {
      var loaded;
      loaded := LoadSlot(cfg.create, cfg.language, host);
      if loaded.Err? { return Err(loaded.error); }
      createExecutor := loaded.value;
      loaded := LoadSlot(cfg.update, cfg.language, host);
      if loaded.Err? { return Err(loaded.error); }
      updateExecutor := loaded.value;
      loaded := LoadSlot(cfg.delete, cfg.language, host);
      if loaded.Err? { return Err(loaded.error); }
      deleteExecutor := loaded.value;
      loaded := LoadSlot(cfg.search, cfg.language, host);
      if loaded.Err? { return Err(loaded.error); }
      searchExecutor := loaded.value;
      loaded := LoadSlot(cfg.authenticate, cfg.language, host);
      if loaded.Err? { return Err(loaded.error); }
      authenticateExecutor := loaded.value;
      r := Ok(());
    }

    /** The last four loads of `init`: resolve-username, sync, schema, test. */
    method LoadLastSlots(cfg: Config, host: Host) returns (r: Result<Unit>)
      modifies this`resolveUsernameExecutor, this`syncExecutor, this`schemaExecutor, this`testExecutor
      ensures r.Ok? ==>
        Loads(cfg.resolveUsername, cfg.language, host, Ok(resolveUsernameExecutor))
        && Loads(cfg.sync, cfg.language, host, Ok(syncExecutor))
        && Loads(SchemaSource(cfg), cfg.language, host, Ok(schemaExecutor))
        && Loads(cfg.test, cfg.language, host, Ok(testExecutor))
      ensures r.Err? ==>
        Loads(cfg.resolveUsername, cfg.language, host, Err(r.error))
        || Loads(cfg.sync, cfg.language, host, Err(r.error))
        || Loads(SchemaSource(cfg), cfg.language, host, Err(r.error))
        || Loads(cfg.test, cfg.language, host, Err(r.error))
      ensures r.Err? ==> LastSlotsStopped(cfg, host, r.error)
    {
      var loaded;
      loaded := LoadSlot(cfg.resolveUsername, cfg.language, host);
      if loaded.Err? { return Err(loaded.error); }
      resolveUsernameExecutor := loaded.value;
      loaded := LoadSlot(cfg.sync, cfg.language, host);
      if loaded.Err? { return Err(loaded.error); }
      syncExecutor := loaded.value;
      loaded := LoadSlot(SchemaSource(cfg), cfg.language, host);
      if loaded.Err? { return Err(loaded.error); }
      schemaExecutor := loaded.value;
      loaded := LoadSlot(cfg.test, cfg.language, host);
      if loaded.Err? { return Err(loaded.error); }
      testExecutor := loaded.value;
      r := Ok(());
    }

    /** The reload step shared by every operation: a fresh load of `source`
        when the configuration asks for it, otherwise the slot as it is. */
    method Reload(slot: Option<Executor>, source: ScriptSource, host: Host)
      returns (exec: Option<Executor>, failure: Option<Exception>)
      requires config.Some?
      ensures Refreshed(config.value.reloadScriptOnExecution, source, config.value.language, host, slot, exec, failure)
    {
      exec, failure := slot, None;
      if config.value.reloadScriptOnExecution {
        var loaded;
        ghost var path;
        loaded, path := GetScriptExecutor(source, config.value.language, host);
        if loaded.Err? {
          failure := Some(loaded.error);
        } else {
          exec := loaded.value;
        }
      }
    }

    /** `create`. */
    method Create(objectClass: Option<string>, createAttributes: Option<seq<Attribute>>, host: Host)
      returns (r: Result<string>, ghost reloadFailure: Option<Exception>)
      modifies this`createExecutor
      ensures config.None? ==> r == Err(NullPointer) && createExecutor == old(createExecutor)
      ensures config.Some? ==>
        Refreshed(config.value.reloadScriptOnExecution, config.value.create, config.value.language, host,
                  old(createExecutor), createExecutor, reloadFailure)
        && r == if reloadFailure.Some? then Err(reloadFailure.value)
                else CreateOutcome(createExecutor, objectClass, createAttributes, host)
    {
      reloadFailure := None;
      if config.None? { return Err(NullPointer), None; }
      var failure;
      createExecutor, failure := Reload(createExecutor, config.value.create, host);
      if failure.Some? { return Err(failure.value), failure; }
      if createExecutor.None? { return Err(UnsupportedOperation), None; }
      if objectClass.None? { return Err(IllegalArgument(MSG_OBJECT_CLASS_REQUIRED)), None; }
      if createAttributes.None? || |createAttributes.value| == 0 {
        return Err(IllegalArgument(MSG_INVALID_ATTRIBUTE_SET)), None;
      }
      var id := CreateId(createAttributes.value);
      if id.Err? { return Err(id.error), None; }
      var attrMap := CreateAttributeMap(createAttributes.value);
      var arguments := map["action" := Text("CREATE"), "objectClass" := Text(objectClass.value), "id" := id.value,
                           "attributes" := Attributes(attrMap)];
      match host.run(createExecutor.value, arguments)
      case Threw(e) =>
        r := Err(Wrapped(CREATE_ERROR, e));
      case Returned(uidAfter) =>
        if uidAfter.Str? {
          r := Ok(uidAfter.s);
        } else {
          r := Err(Wrapped(CREATE_ERROR, Connector(CREATE_NO_UID, None)));
        }
    }

    /** `genericUpdate`, shared by the three update operations. */
    method GenericUpdate(action: string, objectClass: Option<string>, uid: Option<Uid>, attrs: Option<seq<Attribute>>, host: Host)
      returns (r: Result<string>, ghost reloadFailure: Option<Exception>)
      modifies this`updateExecutor
      ensures config.None? ==> r == Err(NullPointer) && updateExecutor == old(updateExecutor)
      ensures config.Some? ==>
        Refreshed(config.value.reloadScriptOnExecution, config.value.update, config.value.language, host,
                  old(updateExecutor), updateExecutor, reloadFailure)
        && r == if reloadFailure.Some? then Err(reloadFailure.value)
                else UpdateOutcome(action, updateExecutor, objectClass, uid, attrs, host)
    {
      reloadFailure := None;
      if config.None? { return Err(NullPointer), None; }
      var failure;
      updateExecutor, failure := Reload(updateExecutor, config.value.update, host);
      if failure.Some? { return Err(failure.value), failure; }
      if updateExecutor.None? { return Err(UnsupportedOperation), None; }
      if objectClass.None? { return Err(IllegalArgument(MSG_OBJECT_CLASS_REQUIRED)), None; }
      if attrs.None? || |attrs.value| == 0 { return Err(IllegalArgument(MSG_INVALID_ATTRIBUTE_SET)), None; }
      if uid.None? || uid.value.value.None? { return Err(IllegalArgument(MSG_BLANK_UID)), None; }
      var id := uid.value.value.value;
      var attrMap := UpdateAttributeMap(attrs.value, action, host.operational);
      var arguments := map["action" := Text(action), "objectClass" := Text(objectClass.value), "uid" := Text(id),
                           "attributes" := Attributes(attrMap)];
      match host.run(updateExecutor.value, arguments)
      case Threw(e) =>
        r := Err(Wrapped(UpdateError(action), e));
      case Returned(uidAfter) =>
        if uidAfter.Str? {
          r := Ok(uidAfter.s);
        } else {
          r := Err(Connector(UPDATE_NO_UID, None));
        }
    }

    /** `update`: every attribute, operational ones included, reaches the script. */
    method Update(objectClass: Option<string>, uid: Option<Uid>, replaceAttributes: Option<seq<Attribute>>, host: Host)
      returns (r: Result<string>, ghost reloadFailure: Option<Exception>)
      modifies this`updateExecutor
      ensures config.None? ==> r == Err(NullPointer) && updateExecutor == old(updateExecutor)
      ensures config.Some? ==>
        Refreshed(config.value.reloadScriptOnExecution, config.value.update, config.value.language, host,
                  old(updateExecutor), updateExecutor, reloadFailure)
        && r == if reloadFailure.Some? then Err(reloadFailure.value)
                else UpdateOutcome("UPDATE", updateExecutor, objectClass, uid, replaceAttributes, host)
    {
      r, reloadFailure := GenericUpdate("UPDATE", objectClass, uid, replaceAttributes, host);
    }

    /** `addAttributeValues`: operational attributes are dropped. */
    method AddAttributeValues(objectClass: Option<string>, uid: Option<Uid>, valuesToAdd: Option<seq<Attribute>>, host: Host)
      returns (r: Result<string>, ghost reloadFailure: Option<Exception>)
      modifies this`updateExecutor
      ensures config.None? ==> r == Err(NullPointer) && updateExecutor == old(updateExecutor)
      ensures config.Some? ==>
        Refreshed(config.value.reloadScriptOnExecution, config.value.update, config.value.language, host,
                  old(updateExecutor), updateExecutor, reloadFailure)
        && r == if reloadFailure.Some? then Err(reloadFailure.value)
                else UpdateOutcome("ADD_ATTRIBUTE_VALUES", updateExecutor, objectClass, uid, valuesToAdd, host)
    {
      r, reloadFailure := GenericUpdate("ADD_ATTRIBUTE_VALUES", objectClass, uid, valuesToAdd, host);
    }

    /** `removeAttributeValues`: operational attributes are dropped. */
    method RemoveAttributeValues(objectClass: Option<string>, uid: Option<Uid>, valuesToRemove: Option<seq<Attribute>>, host: Host)
      returns (r: Result<string>, ghost reloadFailure: Option<Exception>)
      modifies this`updateExecutor
      ensures config.None? ==> r == Err(NullPointer) && updateExecutor == old(updateExecutor)
      ensures config.Some? ==>
        Refreshed(config.value.reloadScriptOnExecution, config.value.update, config.value.language, host,
                  old(updateExecutor), updateExecutor, reloadFailure)
        && r == if reloadFailure.Some? then Err(reloadFailure.value)
                else UpdateOutcome("REMOVE_ATTRIBUTE_VALUES", updateExecutor, objectClass, uid, valuesToRemove, host)
    {
      r, reloadFailure := GenericUpdate("REMOVE_ATTRIBUTE_VALUES", objectClass, uid, valuesToRemove, host);
    }

    /** `delete`. */
    method Delete(objectClass: Option<string>, uid: Option<Uid>, host: Host)
      returns (r: Result<Unit>, ghost reloadFailure: Option<Exception>)
      modifies this`deleteExecutor
      ensures config.None? ==> r == Err(NullPointer) && deleteExecutor == old(deleteExecutor)
      ensures config.Some? ==>
        Refreshed(config.value.reloadScriptOnExecution, config.value.delete, config.value.language, host,
                  old(deleteExecutor), deleteExecutor, reloadFailure)
        && r == if reloadFailure.Some? then Err(reloadFailure.value)
                else DeleteOutcome(deleteExecutor, objectClass, uid, host)
    {
      reloadFailure := None;
      if config.None? { return Err(NullPointer), None; }
      var failure;
      deleteExecutor, failure := Reload(deleteExecutor, config.value.delete, host);
      if failure.Some? { return Err(failure.value), failure; }
      if deleteExecutor.None? { return Err(UnsupportedOperation), None; }
      if objectClass.None? { return Err(IllegalArgument(MSG_OBJECT_CLASS_REQUIRED)), None; }
      if uid.None? || uid.value.value.None? { return Err(IllegalArgument(MSG_BLANK_UID)), None; }
      var id := uid.value.value.value;
      var arguments := map["action" := Text("DELETE"), "objectClass" := Text(objectClass.value), "uid" := Text(id)];
      match host.run(deleteExecutor.value, arguments)
      case Threw(e) =>
        r := Err(Wrapped(DELETE_ERROR, e));
      case Returned(_) =>
        r := Ok(());
    }

    /** `executeQuery`: the objects the handler received, the closing summary,
        and the exception the call ends with. */
    method ExecuteQuery(objectClass: Option<string>, query: Value, handler: Option<SearchHandler>, host: Host)
      returns (r: SearchRun, ghost reloadFailure: Option<Exception>)
      modifies this`searchExecutor
      ensures config.None? ==> r == SearchFailed(NullPointer) && searchExecutor == old(searchExecutor)
      ensures config.Some? ==>
        Refreshed(config.value.reloadScriptOnExecution, config.value.search, config.value.language, host,
                  old(searchExecutor), searchExecutor, reloadFailure)
        && r == if reloadFailure.Some? then SearchFailed(reloadFailure.value)
                else QueryOutcome(searchExecutor, objectClass, query, handler, host)
    {
      reloadFailure := None;
      if config.None? { return SearchFailed(NullPointer), None; }
      var failure;
      searchExecutor, failure := Reload(searchExecutor, config.value.search, host);
      if failure.Some? { return SearchFailed(failure.value), failure; }
      if searchExecutor.None? { return SearchFailed(UnsupportedOperation), None; }
      if objectClass.None? { return SearchFailed(IllegalArgument(MSG_OBJECT_CLASS_REQUIRED)), None; }
      if handler.None? { return SearchFailed(IllegalArgument(MSG_BLANK_RESULT_HANDLER)), None; }
      var arguments := map["objectClass" := Text(objectClass.value), "action" := Text("SEARCH"), "query" := Raw(query)];
      match host.run(searchExecutor.value, arguments)
      case Threw(e) =>
        r := SearchFailed(Wrapped(SEARCH_ERROR, e));
      case Returned(results) =>
        if results.Null? {
          r := SearchFailed(Wrapped(SEARCH_ERROR, NullPointer));
        } else if !results.List? {
          r := SearchFailed(Wrapped(SEARCH_ERROR, ClassCast));
        } else {
          var delivered, summary, error := ProcessResults(objectClass.value, results.items, handler.value);
          r := SearchRun(delivered, summary, if error.Some? then Some(Wrapped(SEARCH_ERROR, error.value)) else None);
        }
    }

    /** `sync`: the deltas the handler received and the exception the call
        ends with. */
    method Sync(objectClass: Option<string>, token: Option<Value>, handler: Option<SyncHandler>, host: Host)
      returns (delivered: seq<SyncDelta>, failure: Option<Exception>, ghost reloadFailure: Option<Exception>)
      modifies this`syncExecutor
      ensures config.None? ==> delivered == [] && failure == Some(NullPointer) && syncExecutor == old(syncExecutor)
      ensures config.Some? ==>
        Refreshed(config.value.reloadScriptOnExecution, config.value.sync, config.value.language, host,
                  old(syncExecutor), syncExecutor, reloadFailure)
      ensures config.Some? && reloadFailure.Some? ==> delivered == [] && failure == reloadFailure
      ensures config.Some? && reloadFailure.None? ==>
        delivered == SyncOutcome(syncExecutor, objectClass, token, handler, host).deltas
        && failure == SyncOutcome(syncExecutor, objectClass, token, handler, host).failure
    {
      delivered, reloadFailure := [], None;
      if config.None? { return [], Some(NullPointer), None; }
      var loadFailure;
      syncExecutor, loadFailure := Reload(syncExecutor, config.value.sync, host);
      if loadFailure.Some? { return [], loadFailure, loadFailure; }
      if syncExecutor.None? { return [], Some(UnsupportedOperation), None; }
      if objectClass.None? { return [], Some(IllegalArgument(MSG_OBJECT_CLASS_REQUIRED)), None; }
      if handler.None? { return [], Some(IllegalArgument(MSG_BLANK_RESULT_HANDLER)), None; }
      var arguments := map["objectClass" := Text(objectClass.value), "action" := Text("SYNC"),
                           "token" := Raw(if token.Some? then token.value else Null)];
      match host.run(syncExecutor.value, arguments)
      case Threw(e) =>
        failure := Some(Wrapped(SYNC_ERROR, e));
      case Returned(results) =>
        if results.Null? {
          failure := Some(Wrapped(SYNC_ERROR, NullPointer));
        } else if !results.List? {
          failure := Some(Wrapped(SYNC_ERROR, ClassCast));
        } else {
          var error;
          delivered, error := ProcessDeltas(objectClass.value, results.items, handler.value);
          failure := if error.Some? then Some(Wrapped(SYNC_ERROR, error.value)) else None;
        }
    }

    /** `getLatestSyncToken`, which runs the sync script. */
    method GetLatestSyncToken(objectClass: Option<string>, host: Host)
      returns (r: Result<Value>, ghost reloadFailure: Option<Exception>)
      modifies this`syncExecutor
      ensures config.None? ==> r == Err(NullPointer) && syncExecutor == old(syncExecutor)
      ensures config.Some? ==>
        Refreshed(config.value.reloadScriptOnExecution, config.value.sync, config.value.language, host,
                  old(syncExecutor), syncExecutor, reloadFailure)
        && r == if reloadFailure.Some? then Err(reloadFailure.value)
                else LatestTokenOutcome(syncExecutor, objectClass, host)
    {
      reloadFailure := None;
      if config.None? { return Err(NullPointer), None; }
      var failure;
      syncExecutor, failure := Reload(syncExecutor, config.value.sync, host);
      if failure.Some? { return Err(failure.value), failure; }
      if syncExecutor.None? { return Err(UnsupportedOperation), None; }
      if objectClass.None? { return Err(IllegalArgument(MSG_OBJECT_CLASS_REQUIRED)), None; }
      var arguments := map["objectClass" := Text(objectClass.value), "action" := Text("GET_LATEST_SYNC_TOKEN")];
      // The `try` block: the script runs, then the result's type is checked.
      var outcome := host.run(syncExecutor.value, arguments);
      var caught: Option<Exception> := None;
      if outcome.Threw? {
        caught := Some(outcome.exception);
      } else if outcome.value.Null? {
        caught := Some(NullPointer);
      } else if !host.supportedType(outcome.value) {
        caught := Some(UNSUPPORTED_TYPE);
      }
      if caught.None? {
        r := Ok(outcome.value);
      } else if caught.value.IllegalArgument? {
        r := Err(Wrapped(UNKNOWN_TOKEN, caught.value));
      } else {
        r := Err(Wrapped(TOKEN_ERROR, caught.value));
      }
    }

    /** `test`: without a test script it does nothing. */
    method Test(host: Host) returns (r: Result<Unit>, ghost reloadFailure: Option<Exception>)
      modifies this`testExecutor
      ensures config.None? ==> r == Err(NullPointer) && testExecutor == old(testExecutor)
      ensures config.Some? ==>
        Refreshed(config.value.reloadScriptOnExecution, config.value.test, config.value.language, host,
                  old(testExecutor), testExecutor, reloadFailure)
        && r == if reloadFailure.Some? then Err(reloadFailure.value) else TestOutcome(testExecutor, host)
    {
      reloadFailure := None;
      if config.None? { return Err(NullPointer), None; }
      var failure;
      testExecutor, failure := Reload(testExecutor, config.value.test, host);
      if failure.Some? { return Err(failure.value), failure; }
      r := Ok(());
      if testExecutor.Some? {
        match host.run(testExecutor.value, TEST_ARGUMENTS)
        case Threw(e) =>
          r := Err(Wrapped(TEST_ERROR, e));
        case Returned(_) =>
      }
    }
  }
}
