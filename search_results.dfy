/** `processResults`: turns the rows a search script returns into connector
    objects for the handler, plus a paging cookie for the closing summary. */
module SearchResults {
  import opened Dynamic
  import opened Framework

  /** The pieces of a `ConnectorObjectBuilder` filled from one row. */
  datatype Builder = Builder(uid: Option<string>, name: Option<string>, attributes: map<string, seq<Value>>)

  const EMPTY_BUILDER := Builder(None, None, map[])

  predicate IsUidKey(key: string)
  {
    EqualsIgnoreCase(key, UID_NAME)
  }

  predicate IsNameKey(key: string)
  {
    EqualsIgnoreCase(key, NAME_NAME)
  }

  /** Keys that never become ordinary attributes: uid, name and password. */
  predicate IsReservedKey(key: string)
  {
    IsUidKey(key) || IsNameKey(key) || EqualsIgnoreCase(key, "password")
  }

  /** One entry of a row applied to the builder. */
  function EntryStep(b: Builder, e: Entry): Result<Builder>
  {
    if IsUidKey(e.key) then
      if e.value.Null? then Err(IllegalArgument("Uid cannot be null")) else Ok(b.(uid := Some(Render(e.value))))
    else if IsNameKey(e.key) then
      if e.value.Null? then Err(IllegalArgument("Name cannot be null")) else Ok(b.(name := Some(Render(e.value))))
    else if EqualsIgnoreCase(e.key, "password") then Ok(b)
    else Ok(b.(attributes := b.attributes[e.key := AttributeValues(e.value)]))
  }

  /** The builder after the entries of a row, or the first failure. */
  function BuildRow(entries: seq<Entry>): Result<Builder>
    decreases |entries|
  {
    if entries == [] then Ok(EMPTY_BUILDER)
    else
      match BuildRow(entries[..|entries| - 1])
      case Err(x) => Err(x)
      case Ok(b) => EntryStep(b, entries[|entries| - 1])
  }

  /** A one-entry row that carries a paging cookie. */
  predicate IsCookieRow(row: Value)
  {
    row.Dict? && |row.entries| == 1
    && EqualsIgnoreCase(PAGED_RESULTS_COOKIE, row.entries[0].key) && row.entries[0].value != Null
  }

  /** A row that is turned into an object: a map with other than one entry. */
  predicate IsObjectRow(row: Value)
  {
    row.Dict? && |row.entries| != 1
  }

  /** The progress of the row loop: objects delivered so far, the cookie so
      far, and the exception that ended the loop, if any. */
  datatype Scan = Scan(objects: seq<ConnectorObject>, cookie: Option<string>, failure: Option<Exception>)

  function RowStep(st: Scan, row: Value, objectClass: string): Scan
  {
    if row.Null? then st.(failure := Some(NullPointer))
    else if !row.Dict? then st.(failure := Some(ClassCast))
    else if |row.entries| == 1 then
      if IsCookieRow(row) then st.(cookie := Some(Render(row.entries[0].value))) else st
    else
      match BuildRow(row.entries)
      case Err(x) => st.(failure := Some(x))
      case Ok(b) => st.(objects := st.objects + [ConnectorObject(objectClass, b.uid, b.name, b.attributes)])
  }

  function ScanRows(rows: seq<Value>, objectClass: string): Scan
    decreases |rows|
  {
    if rows == [] then Scan([], None, None)
    else
      var before := ScanRows(rows[..|rows| - 1], objectClass);
      if before.failure.Some? then before else RowStep(before, rows[|rows| - 1], objectClass)
  }

  /** What a search hands its handler: the objects, the closing summary (only
      to a `SearchResultsHandler`, only after every row), and the exception
      that stopped it. */
  datatype SearchRun = SearchRun(objects: seq<ConnectorObject>, summary: Option<SearchResult>, failure: Option<Exception>)

  function Translate(rows: seq<Value>, objectClass: string, handler: SearchHandler): SearchRun
  {
    var st := ScanRows(rows, objectClass);
    SearchRun(
      st.objects,
      if st.failure.None? && handler.pagedResults then Some(SearchResult(st.cookie, -1)) else None,
      st.failure)
  }

  /** `processResults`.  The handler's answer to each object is ignored, so
      every object row is delivered; a row that is not a map, or a null uid or
      name, ends the loop with the exception. */
  method ProcessResults(objectClass: string, results: seq<Value>, handler: SearchHandler)
    returns (delivered: seq<ConnectorObject>, summary: Option<SearchResult>, failure: Option<Exception>)
    ensures SearchRun(delivered, summary, failure) == Translate(results, objectClass, handler)
  {
    var pagedResultCookie: Option<string> := None;
    delivered, summary, failure := [], None, None;
    var i := 0;
    while i < |results|
      invariant i <= |results|
      invariant ScanRows(results[..i], objectClass) == Scan(delivered, pagedResultCookie, None)
    {
      var result := results[i];
      ghost var prefix := results[..i + 1];
      assert prefix[..i] == results[..i] && prefix[i] == result;
      if !result.Dict? {
        failure := Some(if result.Null? then NullPointer else ClassCast);
        ScanFailureSticks(results, i + 1, objectClass);
        return;
      }
      if |result.entries| == 1 {
        var entry := result.entries[0];
        if EqualsIgnoreCase(PAGED_RESULTS_COOKIE, entry.key) && entry.value != Null {
          pagedResultCookie := Some(Render(entry.value));
        }
      } else {
        var built := BuildObject(result.entries);
        if built.Err? {
          failure := Some(built.error);
          ScanFailureSticks(results, i + 1, objectClass);
          return;
        }
        delivered := delivered + [ConnectorObject(objectClass, built.value.uid, built.value.name, built.value.attributes)];
      }
      i := i + 1;
    }
    assert results[..|results|] == results;
    if handler.pagedResults {
      summary := Some(SearchResult(pagedResultCookie, -1));
    }
  }

  /** The builder loop over the entries of one object row. */
  method BuildObject(entries: seq<Entry>) returns (r: Result<Builder>)
    ensures r == BuildRow(entries)
  {
    var uid, name, attributes := None, None, map[];
    var j := 0;
    while j < |entries|
      invariant j <= |entries|
      invariant BuildRow(entries[..j]) == Ok(Builder(uid, name, attributes))
    {
      var attrName, attrValue := entries[j].key, entries[j].value;
      assert entries[..j + 1][..j] == entries[..j];
      if IsUidKey(attrName) {
        if attrValue.Null? {
          BuildFailureSticks(entries, j + 1);
          return Err(IllegalArgument("Uid cannot be null"));
        }
        uid := Some(Render(attrValue));
      } else if IsNameKey(attrName) {
        if attrValue.Null? {
          BuildFailureSticks(entries, j + 1);
          return Err(IllegalArgument("Name cannot be null"));
        }
        name := Some(Render(attrValue));
      } else if EqualsIgnoreCase(attrName, "password") {
      } else if attrValue.List? {
        attributes := attributes[attrName := attrValue.items];
      } else if attrValue != Null {
        attributes := attributes[attrName := [attrValue]];
      } else {
        attributes := attributes[attrName := []];
      }
      j := j + 1;
    }
    assert entries[..|entries|] == entries;
    r := Ok(Builder(uid, name, attributes));
  }

  /** Once a row has failed, the later rows change nothing. */
  lemma {:induction false} ScanFailureSticks(rows: seq<Value>, k: nat, objectClass: string)
    requires k <= |rows|
    requires ScanRows(rows[..k], objectClass).failure.Some?
    ensures ScanRows(rows, objectClass) == ScanRows(rows[..k], objectClass)
    decreases |rows| - k
  {
    if k < |rows| {
      assert rows[..|rows| - 1][..k] == rows[..k];
      ScanFailureSticks(rows[..|rows| - 1], k, objectClass);
    } else {
      assert rows[..k] == rows;
    }
  }

  /** Once an entry has failed, the later entries change nothing. */
  lemma {:induction false} BuildFailureSticks(entries: seq<Entry>, k: nat)
    requires k <= |entries|
    requires BuildRow(entries[..k]).Err?
    ensures BuildRow(entries) == BuildRow(entries[..k])
    decreases |entries| - k
  {
    if k < |entries| {
      assert entries[..|entries| - 1][..k] == entries[..k];
      BuildFailureSticks(entries[..|entries| - 1], k);
    } else {
      assert entries[..k] == entries;
    }
  }

  /** A row fails to build exactly when its uid or its name is null. */
  lemma {:induction false} BuildFailsOnNullIdentity(entries: seq<Entry>)
    ensures BuildRow(entries).Err? <==>
      exists e :: e in entries && (IsUidKey(e.key) || IsNameKey(e.key)) && e.value.Null?
    decreases |entries|
  {
    if entries != [] {
      var init := entries[..|entries| - 1];
      BuildFailsOnNullIdentity(init);
      assert entries == init + [entries[|entries| - 1]];
    }
  }

  /** The attributes of a built row are its keys other than uid, name and
      password. */
  lemma {:induction false} BuildRowKeys(entries: seq<Entry>, b: Builder)
    requires BuildRow(entries) == Ok(b)
    ensures b.attributes.Keys == set e | e in entries && !IsReservedKey(e.key) :: e.key
    decreases |entries|
  {
    if entries != [] {
      var init := entries[..|entries| - 1];
      var b' :| BuildRow(init) == Ok(b');
      BuildRowKeys(init, b');
      assert entries == init + [entries[|entries| - 1]];
    }
  }

  /** An attribute of a built row holds the wrapped value of the last entry
      with that key. */
  lemma {:induction false} BuildRowValue(entries: seq<Entry>, b: Builder, i: nat)
    requires BuildRow(entries) == Ok(b)
    requires i < |entries| && !IsReservedKey(entries[i].key)
    requires forall j :: i < j < |entries| ==> entries[j].key != entries[i].key
    ensures entries[i].key in b.attributes
    ensures b.attributes[entries[i].key] == AttributeValues(entries[i].value)
    decreases |entries|
  {
    var init := entries[..|entries| - 1];
    var b' :| BuildRow(init) == Ok(b');
    assert EntryStep(b', entries[|entries| - 1]) == Ok(b);
    if i < |init| {
      assert init[i] == entries[i];
      BuildRowValue(init, b', i);
    }
  }

  function CookieOf(row: Value): string
    requires IsCookieRow(row)
  {
    Render(row.entries[0].value)
  }

  /** The summary's cookie comes from the last cookie row, wherever it stands;
      earlier cookie rows are overwritten. */
  lemma {:induction false} CookieFromLastCookieRow(rows: seq<Value>, objectClass: string, i: nat)
    requires i < |rows| && IsCookieRow(rows[i])
    requires forall j :: i < j < |rows| ==> !IsCookieRow(rows[j])
    requires ScanRows(rows, objectClass).failure.None?
    ensures ScanRows(rows, objectClass).cookie == Some(CookieOf(rows[i]))
    decreases |rows|
  {
    var init := rows[..|rows| - 1];
    ScanNoFailureBefore(rows, objectClass);
    if i < |rows| - 1 {
      CookieFromLastCookieRow(init, objectClass, i);
      assert !IsCookieRow(rows[|rows| - 1]);
    }
  }

  /** Without a cookie row there is no cookie. */
  lemma {:induction false} NoCookieRowNoCookie(rows: seq<Value>, objectClass: string)
    requires forall j :: 0 <= j < |rows| ==> !IsCookieRow(rows[j])
    ensures ScanRows(rows, objectClass).cookie.None?
    decreases |rows|
  {
    if rows != [] {
      NoCookieRowNoCookie(rows[..|rows| - 1], objectClass);
    }
  }

  lemma ScanNoFailureBefore(rows: seq<Value>, objectClass: string)
    requires rows != []
    requires ScanRows(rows, objectClass).failure.None?
    ensures ScanRows(rows[..|rows| - 1], objectClass).failure.None?
  {
  }

  /** The rows that become objects, in order. */
  function ObjectRows(rows: seq<Value>): (r: seq<Value>)
    ensures forall row :: row in r ==> row in rows
    ensures forall k :: 0 <= k < |r| ==> IsObjectRow(r[k])
    ensures |r| <= |rows|
    decreases |rows|
  {
    if rows == [] then []
    else ObjectRows(rows[..|rows| - 1]) + (if IsObjectRow(rows[|rows| - 1]) then [rows[|rows| - 1]] else [])
  }

  /** Every object row, and nothing else, is delivered as one object, in row
      order, with the object class of the search. */
  lemma {:induction false} ObjectsFromObjectRows(rows: seq<Value>, objectClass: string)
    requires ScanRows(rows, objectClass).failure.None?
    ensures |ScanRows(rows, objectClass).objects| == |ObjectRows(rows)|
    ensures forall k :: 0 <= k < |ObjectRows(rows)| ==>
      var o := ScanRows(rows, objectClass).objects[k];
      BuildRow(ObjectRows(rows)[k].entries) == Ok(Builder(o.uid, o.name, o.attributes)) && o.objectClass == objectClass
    decreases |rows|
  {
    if rows != [] {
      var init := rows[..|rows| - 1];
      ScanNoFailureBefore(rows, objectClass);
      ObjectsFromObjectRows(init, objectClass);
    }
  }
}
