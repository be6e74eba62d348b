/** The attribute maps and the `id` argument that `create` and the update
    family hand to their scripts. */
module Arguments {
  import opened Dynamic
  import opened Framework

  /** The map that `attrMap.put(attr.getName(), attr.getValue())` builds over
      the attributes in iteration order: a later attribute of the same name
      overwrites an earlier one. */
  function AttributeMap(attrs: seq<Attribute>): map<string, seq<Value>>
    decreases |attrs|
  {
    if attrs == [] then map[]
    else AttributeMap(attrs[..|attrs| - 1])[attrs[|attrs| - 1].name := attrs[|attrs| - 1].values]
  }

  function AttributeNames(attrs: seq<Attribute>): set<string>
  {
    set a | a in attrs :: a.name
  }

  /** The keys of the map are exactly the names of the attributes. */
  lemma {:induction false} AttributeMapKeys(attrs: seq<Attribute>)
    ensures AttributeMap(attrs).Keys == AttributeNames(attrs)
    decreases |attrs|
  {
    if attrs != [] {
      var init := attrs[..|attrs| - 1];
      AttributeMapKeys(init);
      assert attrs == init + [attrs[|attrs| - 1]];
      assert AttributeNames(attrs) == AttributeNames(init) + {attrs[|attrs| - 1].name};
    }
  }

  /** Each name maps to the values of the last attribute carrying it; with
      distinct names, to the values of its only attribute. */
  lemma {:induction false} AttributeMapValue(attrs: seq<Attribute>, i: nat)
    requires i < |attrs|
    requires forall j :: i < j < |attrs| ==> attrs[j].name != attrs[i].name
    ensures attrs[i].name in AttributeMap(attrs)
    ensures AttributeMap(attrs)[attrs[i].name] == attrs[i].values
    decreases |attrs|
  {
    if i < |attrs| - 1 {
      AttributeMapValue(attrs[..|attrs| - 1], i);
    }
  }

  /** The `attributes` argument of `create`: every attribute, then `__NAME__`
      removed (by its exact name). */
  method CreateAttributeMap(attrs: seq<Attribute>) returns (attrMap: map<string, seq<Value>>)
    ensures attrMap == AttributeMap(attrs) - {NAME_NAME}
  {
    attrMap := map[];
    for i := 0 to |attrs|
      invariant attrMap == AttributeMap(attrs[..i])
    {
      assert attrs[..i + 1][..i] == attrs[..i];
      attrMap := attrMap[attrs[i].name := attrs[i].values];
    }
    assert attrs[..|attrs|] == attrs;
    attrMap := attrMap - {NAME_NAME};
  }

  /** The map `create` passes holds exactly the input attributes other than
      `__NAME__`, each with its values when names are distinct. */
  lemma CreateAttributesExceptName(attrs: seq<Attribute>, i: nat)
    requires i < |attrs|
    requires forall j :: 0 <= j < |attrs| && j != i ==> attrs[j].name != attrs[i].name
    ensures (AttributeMap(attrs) - {NAME_NAME}).Keys == AttributeNames(attrs) - {NAME_NAME}
    ensures attrs[i].name != NAME_NAME ==> (AttributeMap(attrs) - {NAME_NAME})[attrs[i].name] == attrs[i].values
    ensures NAME_NAME !in AttributeMap(attrs) - {NAME_NAME}
  {
    AttributeMapKeys(attrs);
    AttributeMapValue(attrs, i);
  }

  /** `method.equalsIgnoreCase("UPDATE")`. */
  predicate IsPlainUpdate(action: string)
  {
    EqualsIgnoreCase(action, "UPDATE")
  }

  /** An attribute reaches an update script unless it is operational and the
      method is one of the incremental ones. */
  predicate Kept(a: Attribute, action: string, operational: set<string>)
  {
    a.name !in operational || IsPlainUpdate(action)
  }

  function KeptAttributes(attrs: seq<Attribute>, action: string, operational: set<string>): seq<Attribute>
    decreases |attrs|
  {
    if attrs == [] then []
    else
      var last := attrs[|attrs| - 1];
      KeptAttributes(attrs[..|attrs| - 1], action, operational) + (if Kept(last, action, operational) then [last] else [])
  }

  lemma {:induction false} KeptAttributesMembers(attrs: seq<Attribute>, action: string, operational: set<string>)
    ensures forall a :: a in KeptAttributes(attrs, action, operational) <==> a in attrs && Kept(a, action, operational)
    decreases |attrs|
  {
    if attrs != [] {
      KeptAttributesMembers(attrs[..|attrs| - 1], action, operational);
      assert attrs == attrs[..|attrs| - 1] + [attrs[|attrs| - 1]];
    }
  }

  /** The `attributes` argument of the update family (`genericUpdate`). */
  method UpdateAttributeMap(attrs: seq<Attribute>, action: string, operational: set<string>)
    returns (attrMap: map<string, seq<Value>>)
    ensures attrMap == AttributeMap(KeptAttributes(attrs, action, operational))
  {
    attrMap := map[];
    for i := 0 to |attrs|
      invariant attrMap == AttributeMap(KeptAttributes(attrs[..i], action, operational))
    {
      var attr := attrs[i];
      KeptStep(attrs, i, action, operational);
      if attr.name in operational {
        if EqualsIgnoreCase(action, "UPDATE") {
          attrMap := attrMap[attr.name := attr.values];
        }
      } else {
        attrMap := attrMap[attr.name := attr.values];
      }
    }
    assert attrs[..|attrs|] == attrs;
  }

  lemma KeptStep(attrs: seq<Attribute>, i: nat, action: string, operational: set<string>)
    requires i < |attrs|
    ensures AttributeMap(KeptAttributes(attrs[..i + 1], action, operational))
         == if Kept(attrs[i], action, operational)
            then AttributeMap(KeptAttributes(attrs[..i], action, operational))[attrs[i].name := attrs[i].values]
            else AttributeMap(KeptAttributes(attrs[..i], action, operational))
  {
    assert attrs[..i + 1][..i] == attrs[..i];
    var before := KeptAttributes(attrs[..i], action, operational);
    assert (before + [attrs[i]])[..|before|] == before;
    assert before + [] == before;
  }

  /** A name is passed to an update script exactly when some attribute carries
      it and that attribute is not operational or the method is `UPDATE`. */
  lemma UpdateAttributeKeys(attrs: seq<Attribute>, action: string, operational: set<string>, name: string)
    ensures name in AttributeMap(KeptAttributes(attrs, action, operational))
        <==> exists a :: a in attrs && a.name == name && (name !in operational || IsPlainUpdate(action))
  {
    var kept := KeptAttributes(attrs, action, operational);
    AttributeMapKeys(kept);
    KeptAttributesMembers(attrs, action, operational);
  }

  /** The first attribute whose name equals `name` ignoring case
      (`AttributeUtil.find`). */
  function Find(attrs: seq<Attribute>, name: string): (r: Option<Attribute>)
    ensures r.Some? ==> r.value in attrs && EqualsIgnoreCase(r.value.name, name)
    ensures r.None? ==> forall a :: a in attrs ==> !EqualsIgnoreCase(a.name, name)
    ensures forall i :: (0 <= i < |attrs| && EqualsIgnoreCase(attrs[i].name, name)
                         && (forall j :: 0 <= j < i ==> !EqualsIgnoreCase(attrs[j].name, name)))
                        ==> r == Some(attrs[i])
  {
    if attrs == [] then None
    else if EqualsIgnoreCase(attrs[0].name, name) then Some(attrs[0])
    else Find(attrs[1..], name)
  }

  /** The string value of a single-valued `Name` or `Uid` attribute; null when
      it has no value or its value is not a string. */
  function StringValue(a: Attribute): Option<string>
  {
    if |a.values| > 0 && a.values[0].Str? then Some(a.values[0].s) else None
  }

  function NullableText(s: Option<string>): Arg
  {
    if s.Some? then Text(s.value) else NullArg
  }

  /** The `id` argument of `create`: the name value when it is not null,
      otherwise the uid value. The connector dereferences the looked-up `Name`
      and `Uid` attributes, so a missing one is a null dereference. */
  function CreateId(attrs: seq<Attribute>): (r: Result<Arg>)
    ensures r.Err? ==> r == Err(NullPointer)
    ensures r == Err(NullPointer) <==>
      (forall a :: a in attrs ==> !EqualsIgnoreCase(a.name, NAME_NAME))
      || (StringValue(Find(attrs, NAME_NAME).value).None? && forall a :: a in attrs ==> !EqualsIgnoreCase(a.name, UID_NAME))
    ensures r.Ok? && r.value.Text? ==>
      exists a :: a in attrs && (EqualsIgnoreCase(a.name, NAME_NAME) || EqualsIgnoreCase(a.name, UID_NAME)) && StringValue(a) == Some(r.value.s)
    ensures r.Ok? && Find(attrs, NAME_NAME).Some? && StringValue(Find(attrs, NAME_NAME).value).Some? ==>
      r.value == Text(StringValue(Find(attrs, NAME_NAME).value).value)
    ensures r.Ok? && StringValue(Find(attrs, NAME_NAME).value).None? ==>
      Find(attrs, UID_NAME).Some? && r.value == NullableText(StringValue(Find(attrs, UID_NAME).value))
  {
    match Find(attrs, NAME_NAME)
    case None => Err(NullPointer)
    case Some(name) =>
      if StringValue(name).Some? then Ok(Text(StringValue(name).value))
      else
        match Find(attrs, UID_NAME)
        case None => Err(NullPointer)
        case Some(uid) => Ok(NullableText(StringValue(uid)))
  }
}
