/** Untyped values exchanged with the scripts, the exceptions the connector raises,
    and the small Java string helpers the rest of the model relies on. */
module Dynamic {

  datatype Option<+T> = None | Some(value: T)

  datatype Result<+T> = Ok(value: T) | Err(error: Exception)

  /** A value as a script returns it or receives it: the dynamic payload of
      `Map<String, Object>` and `List<Object>`.  A `Dict` keeps its entries in
      the iteration order of the underlying map.  Entries coming from a Java
      map have distinct keys; the model does not require it, and for repeated
      keys `Get` reads the first entry while the attribute folds keep the last. */
  datatype Value =
    | Null
    | Str(s: string)
    | Num(n: int)
    | Bool(b: bool)
    | List(items: seq<Value>)
    | Dict(entries: seq<Entry>)

  datatype Entry = Entry(key: string, value: Value)

  /** The Java exceptions the modelled code raises or lets through.
      `Connector` is `ConnectorException`, with the exception it wraps. */
  datatype Exception =
    | IllegalArgument(message: string)
    | UnsupportedOperation
    | NullPointer
    | ClassCast
    | FileNotReadable(path: string)
    | CompileFailure(source: string)
    | ScriptRaised(message: string)
    | Connector(message: string, cause: Option<Exception>)

  /** `Map.get`: the value of the first entry with exactly this key, `Null` when
      there is none (Java does not tell an absent key from a null value). */
  function Get(entries: seq<Entry>, key: string): (v: Value)
    ensures v != Null ==> exists i :: 0 <= i < |entries| && entries[i].key == key && entries[i].value == v
    ensures (forall i :: 0 <= i < |entries| ==> entries[i].key != key) ==> v == Null
  {
    if entries == [] then Null
    else if entries[0].key == key then entries[0].value
    else
      var v := Get(entries[1..], key);
      assert v != Null ==> exists i :: 1 <= i < |entries| && entries[i].key == key && entries[i].value == v by {
        if v != Null {
          var i :| 0 <= i < |entries[1..]| && entries[1..][i].key == key && entries[1..][i].value == v;
          assert entries[i + 1] == entries[1..][i];
        }
      }
      v
  }

  /** When several entries carry the key, `Map.get` gives the value of the
      first of them. */
  lemma {:induction false} GetFirst(entries: seq<Entry>, key: string, i: nat)
    requires i < |entries| && entries[i].key == key
    requires forall j :: 0 <= j < i ==> entries[j].key != key
    ensures Get(entries, key) == entries[i].value
  {
    if i > 0 {
      assert entries[0].key != key;
      GetFirst(entries[1..], key, i - 1);
    }
  }

  /** Upper-casing of ASCII letters; other characters are their own upper case. */
  function Upper(c: char): char
  {
    if 'a' <= c <= 'z' then (c as int - 32) as char else c
  }

  /** `String.equalsIgnoreCase`, restricted to ASCII case folding. */
  predicate EqualsIgnoreCase(a: string, b: string)
  {
    |a| == |b| && forall i :: 0 <= i < |a| ==> Upper(a[i]) == Upper(b[i])
  }

  function Digits(n: nat): string
    decreases n
  {
    var d := ['0' + (n % 10) as char];
    if n < 10 then d else Digits(n / 10) + d
  }

  function JoinWith(parts: seq<string>, sep: string): string
  {
    if parts == [] then ""
    else if |parts| == 1 then parts[0]
    else parts[0] + sep + JoinWith(parts[1..], sep)
  }

  /** `Object.toString` of a value: strings are themselves, integers are decimal,
      lists render as `[a, b]` and maps as `{k=v}`, as `AbstractCollection` and
      `AbstractMap` print them. */
  function Render(v: Value): string
    decreases v
  {
    match v
    case Null => "null"
    case Str(s) => s
    case Num(n) => if n < 0 then "-" + Digits(-n) else Digits(n)
    case Bool(b) => if b then "true" else "false"
    case List(items) =>
      "[" + JoinWith(seq(|items|, i requires 0 <= i < |items| => Render(items[i])), ", ") + "]"
    case Dict(entries) =>
      "{" + JoinWith(seq(|entries|, i requires 0 <= i < |entries| =>
                           assert entries[i] in entries;
                           entries[i].key + "=" + Render(entries[i].value)), ", ") + "}"
  }
}
