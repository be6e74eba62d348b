/** `processDeltas`: turns the rows a sync script returns into an ordered stream
    of sync deltas, stopping as soon as the handler refuses one. */
module SyncDeltas {
  import opened Dynamic
  import opened Framework

  /** `(String) value`: a string or null passes the cast, anything else fails. */
  function CastString(v: Value): (r: Result<Option<string>>)
    ensures r.Err? <==> !(v.Str? || v.Null?)
    ensures r == Ok(None) <==> v.Null?
    ensures r.Ok? && r.value.Some? ==> v == Str(r.value.value)
  {
    match v
    case Null => Ok(None)
    case Str(s) => Ok(Some(s))
    case _ => Err(ClassCast)
  }

  /** The delta type of a row: `DELETE` in any case, otherwise create-or-update
      (also when the operation is absent). */
  function DeltaKind(operation: Option<string>): (k: DeltaType)
    ensures k == Delete <==> operation.Some? && EqualsIgnoreCase(operation.value, "DELETE")
  {
    if operation.Some? && EqualsIgnoreCase(operation.value, "DELETE") then Delete else CreateOrUpdate
  }

  /** A token the row leaves out becomes the long `0`. */
  function TokenOf(v: Value): (t: Value)
    ensures t != Null
    ensures v == Null ==> t == Num(0)
    ensures v != Null ==> t == v
  {
    if v.Null? then Num(0) else v
  }

  /** The attributes an update row starts with: the current password when the
      row has one. */
  function PasswordAttributes(password: Value): (r: Result<map<string, seq<Value>>>)
    ensures password.Null? ==> r == Ok(map[])
    ensures password.Str? ==> r == Ok(map[CURRENT_PASSWORD_NAME := [password]])
    ensures r.Err? <==> !(password.Str? || password.Null?)
  {
    match password
    case Null => Ok(map[])
    case Str(_) => Ok(map[CURRENT_PASSWORD_NAME := [password]])
    case _ => Err(ClassCast)
  }

  /** The `attributes` entries added in order to `start`, each value wrapped;
      a later entry of the same name overwrites an earlier one. */
  function AddAll(start: map<string, seq<Value>>, entries: seq<Entry>): map<string, seq<Value>>
    decreases |entries|
  {
    if entries == [] then start
    else
      var last := entries[|entries| - 1];
      AddAll(start, entries[..|entries| - 1])[last.key := AttributeValues(last.value)]
  }

  /** The keys after the fold are the starting keys and the entry keys. */
  lemma {:induction false} AddAllKeys(start: map<string, seq<Value>>, entries: seq<Entry>)
    ensures AddAll(start, entries).Keys == start.Keys + set e | e in entries :: e.key
    decreases |entries|
  {
    if entries != [] {
      var init := entries[..|entries| - 1];
      AddAllKeys(start, init);
      assert entries == init + [entries[|entries| - 1]];
    }
  }

  /** An entry that no later entry overwrites gives its wrapped value. */
  lemma {:induction false} AddAllValue(start: map<string, seq<Value>>, entries: seq<Entry>, i: nat)
    requires i < |entries|
    requires forall j :: i < j < |entries| ==> entries[j].key != entries[i].key
    ensures entries[i].key in AddAll(start, entries)
    ensures AddAll(start, entries)[entries[i].key] == AttributeValues(entries[i].value)
    decreases |entries|
  {
    if i < |entries| - 1 {
      AddAllValue(start, entries[..|entries| - 1], i);
    }
  }

  /** A starting attribute that no entry names keeps its values. */
  lemma {:induction false} AddAllKeeps(start: map<string, seq<Value>>, entries: seq<Entry>, k: string)
    requires k in start
    requires forall j :: 0 <= j < |entries| ==> entries[j].key != k
    ensures k in AddAll(start, entries) && AddAll(start, entries)[k] == start[k]
    decreases |entries|
  {
    if entries != [] {
      AddAllKeeps(start, entries[..|entries| - 1], k);
    }
  }

  /** The loop over the `attributes` map of an update row. */
  method AddAttributes(start: map<string, seq<Value>>, entries: seq<Entry>) returns (attributes: map<string, seq<Value>>)
    ensures attributes == AddAll(start, entries)
  {
    attributes := start;
    for j := 0 to |entries|
      invariant attributes == AddAll(start, entries[..j])
    {
      var attrName, attrValue := entries[j].key, entries[j].value;
      assert entries[..j + 1][..j] == entries[..j];
      if attrValue.List? {
        attributes := attributes[attrName := attrValue.items];
      } else if attrValue != Null {
        attributes := attributes[attrName := [attrValue]];
      } else {
        attributes := attributes[attrName := []];
      }
    }
    assert entries[..|entries|] == entries;
  }

  /** The create-or-update delta of a row whose uid is `uid`: the previous uid
      when it is not empty, the current password, then the `attributes` map. */
  function UpdateDelta(entries: seq<Entry>, uid: string, token: Value, objectClass: string): Result<SyncDelta>
  {
    match CastString(Get(entries, "previousUid"))
    case Err(x) => Err(x)
    case Ok(prev) =>
      match PasswordAttributes(Get(entries, "password"))
      case Err(x) => Err(x)
      case Ok(start) =>
        var attrs := Get(entries, "attributes");
        if attrs.Null? then Err(NullPointer)
        else if !attrs.Dict? then Err(ClassCast)
        else
          var previousUid := if prev.Some? && prev.value != "" then prev else None;
          Ok(SyncDelta(uid, previousUid, token, CreateOrUpdate,
                       ConnectorObject(objectClass, Some(uid), Some(uid), AddAll(start, attrs.entries))))
  }

  /** An update delta keeps the row's uid, token and object class, has a
      previous uid exactly when the row's is not empty, and its attributes are
      the current password (when there is one) plus the `attributes` keys. */
  lemma UpdateDeltaShape(entries: seq<Entry>, uid: string, token: Value, objectClass: string)
    ensures var r := UpdateDelta(entries, uid, token, objectClass);
      r.Ok? ==>
        var d := r.value;
        var prev := Get(entries, "previousUid");
        var attrs := Get(entries, "attributes");
        d.uid == uid && d.token == token && d.deltaType == CreateOrUpdate
        && d.connectorObject.uid == Some(uid) && d.connectorObject.name == Some(uid) && d.connectorObject.objectClass == objectClass
        && (d.previousUid.Some? <==> prev.Str? && prev.s != "")
        && (d.previousUid.Some? ==> prev == Str(d.previousUid.value))
        && attrs.Dict?
        && d.connectorObject.attributes.Keys
           == (if Get(entries, "password").Str? then {CURRENT_PASSWORD_NAME} else {}) + set e | e in attrs.entries :: e.key
  {
    var r := UpdateDelta(entries, uid, token, objectClass);
    if r.Ok? {
      var start := PasswordAttributes(Get(entries, "password")).value;
      AddAllKeys(start, Get(entries, "attributes").entries);
    }
  }

  /** One row: `Ok(None)` when it is skipped, the delta it gives, or the
      exception its translation raises (a row that is not a map, a field of the
      wrong type, an update row without `attributes`). */
  function RowDelta(row: Value, objectClass: string): Result<Option<SyncDelta>>
  {
    if row.Null? then Err(NullPointer)
    else if !row.Dict? then Err(ClassCast)
    else
      var entries := row.entries;
      match CastString(Get(entries, "uid"))
      case Err(x) => Err(x)
      case Ok(uid) =>
        if uid.None? || uid.value == "" then Ok(None)
        else
          var token := TokenOf(Get(entries, "token"));
          match CastString(Get(entries, "operation"))
          case Err(x) => Err(x)
          case Ok(op) =>
            if DeltaKind(op) == Delete then
              Ok(Some(SyncDelta(uid.value, None, token, Delete, ConnectorObject(objectClass, uid, uid, map[]))))
            else
              match UpdateDelta(entries, uid.value, token, objectClass)
              case Err(x) => Err(x)
              case Ok(d) => Ok(Some(d))
  }

  /** What a row gives: it is skipped exactly when its uid is null or empty; a
      delta carries the row's uid, its object holds that uid as uid and name,
      its token is defaulted, and it is a delete exactly for a `DELETE`
      operation; a delete has nothing else, an update is `UpdateDelta`. */
  lemma RowDeltaShape(row: Value, objectClass: string)
    ensures var r := RowDelta(row, objectClass);
      (r.Ok? && r.value.None? <==> row.Dict? && Get(row.entries, "uid") in {Null, Str("")})
      && (r.Ok? ==> row.Dict?)
    ensures var r := RowDelta(row, objectClass);
      r.Ok? && r.value.Some? ==>
        var d := r.value.value;
        row.Dict? && Get(row.entries, "uid") == Str(d.uid) && d.uid != ""
        && d.connectorObject.uid == Some(d.uid) && d.connectorObject.name == Some(d.uid)
        && d.connectorObject.objectClass == objectClass
        && d.token == TokenOf(Get(row.entries, "token"))
        && (d.deltaType == Delete <==> Get(row.entries, "operation").Str? && EqualsIgnoreCase(Get(row.entries, "operation").s, "DELETE"))
        && (d.deltaType == Delete ==> d.previousUid.None? && d.connectorObject.attributes == map[])
        && (d.deltaType == CreateOrUpdate ==> UpdateDelta(row.entries, d.uid, d.token, objectClass) == Ok(d))
  {
    if row.Dict? {
      var uid := Get(row.entries, "uid");
      var op := Get(row.entries, "operation");
      if uid.Str? && uid.s != "" && (op.Str? || op.Null?) {
        var token := TokenOf(Get(row.entries, "token"));
        var kind := DeltaKind(if op.Str? then Some(op.s) else None);
        if kind == Delete {
          assert RowDelta(row, objectClass)
              == Ok(Some(SyncDelta(uid.s, None, token, Delete, ConnectorObject(objectClass, Some(uid.s), Some(uid.s), map[]))));
        } else {
          var update := UpdateDelta(row.entries, uid.s, token, objectClass);
          assert RowDelta(row, objectClass) == if update.Err? then Err(update.error) else Ok(Some(update.value));
        }
      }
    }
  }

  /** The progress of the row loop: the deltas handed to the handler, whether
      the handler asked to stop, and the exception that ended the loop. */
  datatype SyncRun = SyncRun(deltas: seq<SyncDelta>, stopped: bool, failure: Option<Exception>)

  predicate Ended(run: SyncRun)
  {
    run.stopped || run.failure.Some?
  }

  /** The translation of every row, in order. */
  function RowResults(rows: seq<Value>, objectClass: string): seq<Result<Option<SyncDelta>>>
  {
    seq(|rows|, i requires 0 <= i < |rows| => RowDelta(rows[i], objectClass))
  }

  /** The row loop over translated rows: a skipped row changes nothing, a
      failure ends the loop, a delta is handed over and the loop stops when the
      handler refuses it. */
  function SyncFold(results: seq<Result<Option<SyncDelta>>>, handler: SyncHandler): SyncRun
    decreases |results|
  {
    if results == [] then SyncRun([], false, None)
    else
      var before := SyncFold(results[..|results| - 1], handler);
      if Ended(before) then before
      else
        match results[|results| - 1]
        case Err(x) => before.(failure := Some(x))
        case Ok(None) => before
        case Ok(Some(d)) => SyncRun(before.deltas + [d], !Answer(handler, |before.deltas|), None)
  }

  function SyncRows(rows: seq<Value>, objectClass: string, handler: SyncHandler): SyncRun
  {
    SyncFold(RowResults(rows, objectClass), handler)
  }

  /** One row of `processDeltas`, with the loop over the `attributes` map. */
  method BuildDelta(result: Value, objectClass: string) returns (r: Result<Option<SyncDelta>>)
    ensures r == RowDelta(result, objectClass)
  {
    if result.Null? {
      return Err(NullPointer);
    }
    if !result.Dict? {
      return Err(ClassCast);
    }
    var uidValue := Get(result.entries, "uid");
    if !(uidValue.Str? || uidValue.Null?) {
      return Err(ClassCast);
    }
    if uidValue.Null? || uidValue.s == "" {
      return Ok(None);
    }
    var uid := uidValue.s;
    var token := Get(result.entries, "token");
    if token.Null? {
      token := Num(0);
    }
    var op := Get(result.entries, "operation");
    if !(op.Str? || op.Null?) {
      return Err(ClassCast);
    }
    if op.Str? && EqualsIgnoreCase(op.s, "DELETE") {
      return Ok(Some(SyncDelta(uid, None, token, Delete, ConnectorObject(objectClass, Some(uid), Some(uid), map[]))));
    }
    var update := BuildUpdate(result.entries, uid, token, objectClass);
    r := if update.Err? then Err(update.error) else Ok(Some(update.value));
  }

  /** The create-or-update part of one row of `processDeltas`. */
  method BuildUpdate(entries: seq<Entry>, uid: string, token: Value, objectClass: string) returns (r: Result<SyncDelta>)
    ensures r == UpdateDelta(entries, uid, token, objectClass)
  {
    var prevUid := Get(entries, "previousUid");
    if !(prevUid.Str? || prevUid.Null?) {
      return Err(ClassCast);
    }
    var previousUid := if prevUid.Str? && prevUid.s != "" then Some(prevUid.s) else None;
    var attributes: map<string, seq<Value>> := map[];
    var password := Get(entries, "password");
    if password != Null {
      if !password.Str? {
        return Err(ClassCast);
      }
      attributes := attributes[CURRENT_PASSWORD_NAME := [password]];
    }
    var attrs := Get(entries, "attributes");
    if attrs.Null? {
      return Err(NullPointer);
    }
    if !attrs.Dict? {
      return Err(ClassCast);
    }
    attributes := AddAttributes(attributes, attrs.entries);
    r := Ok(SyncDelta(uid, previousUid, token, CreateOrUpdate,
                      ConnectorObject(objectClass, Some(uid), Some(uid), attributes)));
  }

  /** `processDeltas`: the deltas the handler receives, in order, and the
      exception that interrupted the loop, if any. */
  method ProcessDeltas(objectClass: string, results: seq<Value>, handler: SyncHandler)
    returns (delivered: seq<SyncDelta>, failure: Option<Exception>)
    ensures delivered == SyncRows(results, objectClass, handler).deltas
    ensures failure == SyncRows(results, objectClass, handler).failure
  {
    delivered, failure := [], None;
    ghost var translated := RowResults(results, objectClass);
    var i := 0;
    while i < |results|
      invariant i <= |results|
      invariant SyncFold(translated[..i], handler) == SyncRun(delivered, false, None)
    {
      var r := BuildDelta(results[i], objectClass);
      ghost var prefix := translated[..i + 1];
      assert prefix[..i] == translated[..i] && prefix[i] == r;
      if r.Err? {
        failure := Some(r.error);
        assert SyncFold(prefix, handler) == SyncRun(delivered, false, failure);
        EndedSticks(translated, i + 1, handler);
        return;
      }
      if r.value.Some? {
        var accepted := Answer(handler, |delivered|);
        delivered := delivered + [r.value.value];
        assert SyncFold(prefix, handler) == SyncRun(delivered, !accepted, None);
        if !accepted {
          EndedSticks(translated, i + 1, handler);
          return;
        }
      }
      i := i + 1;
    }
    assert translated[..|results|] == translated;
  }

  /** After a refusal or a failure the remaining rows change nothing. */
  lemma {:induction false} EndedSticks(results: seq<Result<Option<SyncDelta>>>, k: nat, handler: SyncHandler)
    requires k <= |results|
    requires Ended(SyncFold(results[..k], handler))
    ensures SyncFold(results, handler) == SyncFold(results[..k], handler)
    decreases |results| - k
  {
    if k < |results| {
      assert results[..|results| - 1][..k] == results[..k];
      EndedSticks(results[..|results| - 1], k, handler);
    } else {
      assert results[..k] == results;
    }
  }

  /** Rows appended after the run has ended are never looked at. */
  lemma RowsAfterEndIgnored(rows: seq<Value>, more: seq<Value>, objectClass: string, handler: SyncHandler)
    requires Ended(SyncRows(rows, objectClass, handler))
    ensures SyncRows(rows + more, objectClass, handler) == SyncRows(rows, objectClass, handler)
  {
    var all := RowResults(rows + more, objectClass);
    assert all[..|rows|] == RowResults(rows, objectClass);
    EndedSticks(all, |rows|, handler);
  }

  /** Every delivered delta but the last was accepted by the handler, and the
      run stopped exactly when the handler refused the last delivered one. */
  lemma {:induction false} StopsAtFirstRefusal(results: seq<Result<Option<SyncDelta>>>, handler: SyncHandler)
    ensures var run := SyncFold(results, handler);
      (forall k :: 0 <= k < |run.deltas| - 1 ==> Answer(handler, k))
      && (run.stopped <==> |run.deltas| > 0 && !Answer(handler, |run.deltas| - 1))
    decreases |results|
  {
    if results != [] {
      StopsAtFirstRefusal(results[..|results| - 1], handler);
    }
  }

  /** Every delivered delta is the translation of some row. */
  lemma {:induction false} DeltasFromResults(results: seq<Result<Option<SyncDelta>>>, handler: SyncHandler)
    ensures forall d :: d in SyncFold(results, handler).deltas ==> Ok(Some(d)) in results
    decreases |results|
  {
    if results != [] {
      var init := results[..|results| - 1];
      DeltasFromResults(init, handler);
      assert forall x :: x in init ==> x in results;
      assert results[|results| - 1] in results;
    }
  }

  /** Every delivered delta comes from a row of the input with a non-empty
      uid, and carries that uid as its object's uid and name. */
  lemma DeltasFromRows(rows: seq<Value>, objectClass: string, handler: SyncHandler)
    ensures forall d :: d in SyncRows(rows, objectClass, handler).deltas ==>
      d.uid != "" && d.connectorObject.uid == Some(d.uid) && d.connectorObject.name == Some(d.uid)
      && d.connectorObject.objectClass == objectClass && d.token != Null
      && exists row :: row in rows && RowDelta(row, objectClass) == Ok(Some(d))
  {
    var results := RowResults(rows, objectClass);
    DeltasFromResults(results, handler);
    forall d | d in SyncFold(results, handler).deltas
      ensures d.uid != "" && d.connectorObject.uid == Some(d.uid) && d.connectorObject.name == Some(d.uid)
      ensures d.connectorObject.objectClass == objectClass && d.token != Null
      ensures exists row :: row in rows && RowDelta(row, objectClass) == Ok(Some(d))
    {
      var i :| 0 <= i < |results| && results[i] == Ok(Some(d));
      RowDeltaShape(rows[i], objectClass);
    }
  }

  /** Every delta the rows translate to, in row order, whatever the handler
      answers. */
  function Produced(results: seq<Result<Option<SyncDelta>>>): seq<SyncDelta>
    decreases |results|
  {
    if results == [] then []
    else
      var init := Produced(results[..|results| - 1]);
      match results[|results| - 1]
      case Ok(Some(d)) => init + [d]
      case _ => init
  }

  lemma {:induction false} ProducedMembers(results: seq<Result<Option<SyncDelta>>>, d: SyncDelta)
    ensures d in Produced(results) <==> Ok(Some(d)) in results
    decreases |results|
  {
    if results != [] {
      var init := results[..|results| - 1];
      ProducedMembers(init, d);
      assert results == init + [results[|results| - 1]];
    }
  }

  /** The deltas handed over are always the first ones the rows produce; a run
      that neither fails nor is stopped met no failing row and handed over
      every delta, in order. */
  lemma {:induction false} DeliversProduced(results: seq<Result<Option<SyncDelta>>>, handler: SyncHandler)
    ensures SyncFold(results, handler).deltas <= Produced(results)
    ensures !Ended(SyncFold(results, handler)) ==>
      SyncFold(results, handler).deltas == Produced(results) && forall i :: 0 <= i < |results| ==> results[i].Ok?
    decreases |results|
  {
    if results != [] {
      var init := results[..|results| - 1];
      DeliversProduced(init, handler);
      var before := SyncFold(init, handler);
      var produced := Produced(init);
      assert Produced(results) == produced || exists d :: Produced(results) == produced + [d];
      assert before.deltas <= Produced(results) by {
        if Produced(results) != produced {
          var d :| Produced(results) == produced + [d];
          assert Produced(results)[..|produced|] == produced;
        }
      }
    }
  }

  /** The converse of `DeltasFromRows`: when no row fails and the handler
      accepts every delta, every row's delta is delivered, in row order. */
  lemma DeliversEveryRow(rows: seq<Value>, objectClass: string, handler: SyncHandler)
    ensures !Ended(SyncRows(rows, objectClass, handler)) ==>
      SyncRows(rows, objectClass, handler).deltas == Produced(RowResults(rows, objectClass))
      && (forall i :: 0 <= i < |rows| ==> RowDelta(rows[i], objectClass).Ok?)
      && forall row :: row in rows && RowDelta(row, objectClass).Ok? && RowDelta(row, objectClass).value.Some? ==>
           RowDelta(row, objectClass).value.value in SyncRows(rows, objectClass, handler).deltas
  {
    var results := RowResults(rows, objectClass);
    DeliversProduced(results, handler);
    forall row | row in rows && RowDelta(row, objectClass).Ok? && RowDelta(row, objectClass).value.Some?
      ensures RowDelta(row, objectClass).value.value in Produced(results)
    {
      var i :| 0 <= i < |rows| && rows[i] == row;
      assert results[i] == RowDelta(row, objectClass);
      ProducedMembers(results, RowDelta(row, objectClass).value.value);
    }
    assert forall i :: 0 <= i < |rows| ==> results[i] == RowDelta(rows[i], objectClass);
  }

  const DELETE_ROW := Dict([Entry("uid", Str("1")), Entry("operation", Str("DELETE"))])
  const BLANK_UID_ROW := Dict([Entry("uid", Str("")), Entry("attributes", Dict([]))])
  const RENAME_ROW := Dict([Entry("uid", Str("2")), Entry("previousUid", Str("1")),
                            Entry("attributes", Dict([Entry("cn", List([Str("Bob")]))]))])

  /** A delete row without a token gives a delete delta with token `0`. */
  lemma DeleteRowDelta(objectClass: string)
    ensures RowDelta(DELETE_ROW, objectClass)
         == Ok(Some(SyncDelta("1", None, Num(0), Delete, ConnectorObject(objectClass, Some("1"), Some("1"), map[]))))
  {
    assert EqualsIgnoreCase("DELETE", "DELETE");
  }

  /** The fields of the rename row as `Map.get` reads them. */
  lemma RenameRowFields()
    ensures Get(RENAME_ROW.entries, "uid") == Str("2")
    ensures Get(RENAME_ROW.entries, "operation") == Null && Get(RENAME_ROW.entries, "token") == Null
    ensures Get(RENAME_ROW.entries, "previousUid") == Str("1") && Get(RENAME_ROW.entries, "password") == Null
    ensures Get(RENAME_ROW.entries, "attributes") == Dict([Entry("cn", List([Str("Bob")]))])
  {
  }

  lemma RenameRowUpdate(objectClass: string)
    ensures UpdateDelta(RENAME_ROW.entries, "2", Num(0), objectClass)
         == Ok(SyncDelta("2", Some("1"), Num(0), CreateOrUpdate,
                         ConnectorObject(objectClass, Some("2"), Some("2"), map["cn" := [Str("Bob")]])))
  {
    var cn := [Entry("cn", List([Str("Bob")]))];
    RenameRowFields();
    assert AddAll(map[], cn) == map["cn" := [Str("Bob")]] by {
      assert cn[..0] == [];
    }
  }

  /** A rename row gives a create-or-update delta with its previous uid and
      its attribute. */
  lemma RenameRowDelta(objectClass: string)
    ensures RowDelta(RENAME_ROW, objectClass)
         == Ok(Some(SyncDelta("2", Some("1"), Num(0), CreateOrUpdate,
                              ConnectorObject(objectClass, Some("2"), Some("2"), map["cn" := [Str("Bob")]]))))
  {
    RenameRowFields();
    RenameRowUpdate(objectClass);
  }

  /** A delete, a row with an empty uid and a rename give exactly a delete and
      a create-or-update delta, in that order. */
  lemma DeleteSkipRenameRows(objectClass: string)
    ensures SyncRows([DELETE_ROW, BLANK_UID_ROW, RENAME_ROW], objectClass, SyncHandler([])) == SyncRun([
        SyncDelta("1", None, Num(0), Delete, ConnectorObject(objectClass, Some("1"), Some("1"), map[])),
        SyncDelta("2", Some("1"), Num(0), CreateOrUpdate,
                  ConnectorObject(objectClass, Some("2"), Some("2"), map["cn" := [Str("Bob")]]))], false, None)
  {
    var rows := [DELETE_ROW, BLANK_UID_ROW, RENAME_ROW];
    DeleteRowDelta(objectClass);
    RenameRowDelta(objectClass);
    assert RowDelta(BLANK_UID_ROW, objectClass) == Ok(None);
    var h := SyncHandler([]);
    var d1 := SyncDelta("1", None, Num(0), Delete, ConnectorObject(objectClass, Some("1"), Some("1"), map[]));
    var results := RowResults(rows, objectClass);
    assert results[..1][..0] == [];
    assert SyncFold(results[..1], h) == SyncRun([d1], false, None);
    assert results[..2][..1] == results[..1];
    assert SyncFold(results[..2], h) == SyncRun([d1], false, None);
    assert results[..3] == results;
  }

  /** A handler that refuses the first delta ends the run after it, whatever
      rows follow. */
  lemma RefusedFirstDeltaEndsRun(row: Value, more: seq<Value>, objectClass: string, d: SyncDelta)
    requires RowDelta(row, objectClass) == Ok(Some(d))
    ensures SyncRows([row] + more, objectClass, SyncHandler([false])) == SyncRun([d], true, None)
  {
    var results := RowResults([row], objectClass);
    assert results == [Ok(Some(d))];
    assert results[..0] == [];
    assert SyncFold(results, SyncHandler([false])) == SyncRun([d], true, None);
    RowsAfterEndIgnored([row], more, objectClass, SyncHandler([false]));
  }
}
