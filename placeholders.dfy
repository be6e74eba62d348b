/** `resolveVariables`: finds `${name}` placeholders in a script file path and
    replaces them with the values of same-named properties.  The property table
    (`System.getProperty` in the connector) is passed in as a map. */
module Placeholders {

  predicate IsLetter(c: char)
  {
    'a' <= c <= 'z' || 'A' <= c <= 'Z'
  }

  /** The regular-expression class `\w`. */
  predicate IsWordChar(c: char)
  {
    IsLetter(c) || '0' <= c <= '9' || c == '_'
  }

  /** End of the longest run of word characters that starts at `j`. */
  function WordEnd(s: string, j: nat): (e: nat)
    requires j <= |s|
    ensures j <= e <= |s|
    ensures forall k :: j <= k < e ==> IsWordChar(s[k])
    ensures e == |s| || !IsWordChar(s[e])
    decreases |s| - j
  {
    if j < |s| && IsWordChar(s[j]) then WordEnd(s, j + 1) else j
  }

  /** A match of the pattern `\$\{[a-zA-Z]+\w*\}` starts at `p`: a dollar, an
      opening brace, a letter, more word characters, a closing brace. */
  predicate TokenAt(s: string, p: nat)
  {
    && p + 2 < |s|
    && s[p] == '$' && s[p + 1] == '{'
    && IsLetter(s[p + 2])
    && WordEnd(s, p + 2) < |s|
    && s[WordEnd(s, p + 2)] == '}'
  }

  /** The index just past the closing brace of the token at `p`. */
  function TokenEnd(s: string, p: nat): nat
    requires TokenAt(s, p)
  {
    WordEnd(s, p + 2) + 1
  }

  /** The variable name between the braces of the token at `p`. */
  function TokenName(s: string, p: nat): string
    requires TokenAt(s, p)
  {
    s[p + 2..WordEnd(s, p + 2)]
  }

  /** The number of consecutive backslashes immediately before index `p`. */
  function Backslashes(s: string, p: nat): nat
    requires p <= |s|
  {
    if p > 0 && s[p - 1] == '\\' then 1 + Backslashes(s, p - 1) else 0
  }

  /** The token at `p` is collected: an even number of backslashes (zero
      included) precedes it, so it is not escaped. */
  predicate Collected(s: string, p: nat)
  {
    TokenAt(s, p) && Backslashes(s, p) % 2 == 0
  }

  /** Names of the collected tokens that start before index `i`. */
  function NamesBefore(s: string, i: nat): set<string>
  {
    set p: nat | p < i && p < |s| && Collected(s, p) :: TokenName(s, p)
  }

  /** Every name that occurs in an unescaped placeholder of `s`. */
  function Names(s: string): set<string>
  {
    NamesBefore(s, |s|)
  }

  function Placeholder(name: string): (t: string)
    ensures |t| > 0
  {
    "${" + name + "}"
  }

  predicate OccursAt(s: string, t: string, i: nat)
  {
    i + |t| <= |s| && s[i..i + |t|] == t
  }

  ghost predicate Occurs(s: string, t: string)
  {
    exists i: nat :: OccursAt(s, t, i)
  }

  /** `String.replace(target, replacement)`: every occurrence of `target`, found
      left to right without overlap, is replaced. */
  function ReplaceAll(s: string, target: string, replacement: string): string
    requires |target| > 0
    decreases |s|
  {
    if |s| < |target| then s
    else if s[..|target|] == target then replacement + ReplaceAll(s[|target|..], target, replacement)
    else [s[0]] + ReplaceAll(s[1..], target, replacement)
  }

  /** The stretches of `s` between the occurrences of `target` that a left-to-right
      scan finds. */
  function Split(s: string, target: string): (parts: seq<string>)
    requires |target| > 0
    ensures |parts| >= 1
    decreases |s|
  {
    if |s| < |target| then [s]
    else if s[..|target|] == target then [""] + Split(s[|target|..], target)
    else
      var rest := Split(s[1..], target);
      [[s[0]] + rest[0]] + rest[1..]
  }

  function Join(parts: seq<string>, separator: string): string
    requires |parts| >= 1
  {
    if |parts| == 1 then parts[0] else parts[0] + separator + Join(parts[1..], separator)
  }

  /** Replaces the placeholders of the names in `order`, one name after the
      other, skipping names without a property value. */
  function Substitute(s: string, order: seq<string>, properties: map<string, string>): string
    decreases |order|
  {
    if order == [] then s
    else
      var before := Substitute(s, order[..|order| - 1], properties);
      var name := order[|order| - 1];
      if name in properties then ReplaceAll(before, Placeholder(name), properties[name]) else before
  }

  /** `order` lists every element of `names` exactly once. */
  ghost predicate Enumerates(order: seq<string>, names: set<string>)
  {
    && (forall i, j :: 0 <= i < j < |order| ==> order[i] != order[j])
    && (forall v :: v in order <==> v in names)
  }

  /** Some iteration order of the collected names turns `input` into `output`
      (the order of a hash set is not specified). */
  ghost predicate IsResolution(input: string, properties: map<string, string>, output: string)
  {
    exists order :: Enumerates(order, Names(input)) && output == Substitute(input, order, properties)
  }

  /** The first loop of `resolveVariables`: the matcher finds each placeholder
      left to right, the backslashes before it are counted, and the name of an
      unescaped one is added to the set. */
  method CollectNames(input: string) returns (vars: set<string>)
    ensures vars == Names(input)
  {
    vars := {};
    var i := 0;
    while i < |input|
      invariant i <= |input|
      invariant vars == NamesBefore(input, i)
    {
      if TokenAt(input, i) {
        var n := 0;
        var k := i - 1;
        while k >= 0 && input[k] == '\\'
          invariant -1 <= k < i
          invariant n == i - 1 - k
          invariant forall m :: k < m < i ==> input[m] == '\\'
        {
          n := n + 1;
          k := k - 1;
        }
        BackslashRun(input, i, k + 1);
        NamesBeforeToken(input, i);
        if n % 2 == 0 {
          vars := vars + {TokenName(input, i)};
        }
        i := TokenEnd(input, i);
      } else {
        NamesBeforeStep(input, i);
        i := i + 1;
      }
    }
  }

  /** `resolveVariables`: collects the names of the unescaped placeholders, then
      replaces each name that has a property value everywhere it occurs. */
  method ResolveVariables(input: string, properties: map<string, string>)
    returns (resolved: string, ghost order: seq<string>)
    ensures Enumerates(order, Names(input))
    ensures resolved == Substitute(input, order, properties)
    ensures (forall v :: v in Names(input) ==> v !in properties) ==> resolved == input
  {
    var vars := CollectNames(input);
    resolved := input;
    order := [];
    var remaining := vars;
    while remaining != {}
      invariant remaining <= vars
      invariant forall a, b :: 0 <= a < b < |order| ==> order[a] != order[b]
      invariant forall v :: v in order <==> v in vars && v !in remaining
      invariant resolved == Substitute(input, order, properties)
      decreases |remaining|
    {
      var v :| v in remaining;
      if v in properties {
        resolved := ReplaceAll(resolved, "${" + v + "}", properties[v]);
      }
      ghost var next := order + [v];
      assert next[..|order|] == order && next[|order|] == v;
      assert v !in order;
      order := next;
      remaining := remaining - {v};
    }
    if forall v :: v in Names(input) ==> v !in properties {
      SubstituteUntouched(input, order, properties);
    }
  }

  /** Counting backslashes one by one leftwards from `p` down to `q` gives
      `Backslashes(s, p)` when the run stops at `q`. */
  lemma {:induction false} BackslashRun(s: string, p: nat, q: nat)
    requires q <= p <= |s|
    requires forall m :: q <= m < p ==> s[m] == '\\'
    requires q == 0 || s[q - 1] != '\\'
    ensures Backslashes(s, p) == p - q
    decreases p - q
  {
    if p > q {
      BackslashRun(s, p - 1, q);
    }
  }

  lemma NamesBeforeStep(s: string, i: nat)
    requires i < |s|
    requires !TokenAt(s, i)
    ensures NamesBefore(s, i + 1) == NamesBefore(s, i)
  {
  }

  /** No token starts strictly inside the token at `i`, so a scan may resume
      right after its closing brace. */
  lemma NamesBeforeToken(s: string, i: nat)
    requires TokenAt(s, i)
    ensures NamesBefore(s, TokenEnd(s, i))
         == NamesBefore(s, i) + (if Collected(s, i) then {TokenName(s, i)} else {})
  {
    var e := TokenEnd(s, i);
    forall p: nat | i < p < e
      ensures !TokenAt(s, p)
    {
      assert s[p] != '$' by {
        if p == i + 1 { assert s[p] == '{'; }
        else if p < e - 1 { assert IsWordChar(s[p]); }
        else { assert s[p] == '}'; }
      }
    }
  }

  /** Prefixing a placeholder with one more backslash flips whether it is
      collected: one backslash escapes it, a second one cancels the first. */
  lemma EscapeToggles(before: string, t: string)
    requires TokenAt(t, 0)
    ensures TokenAt(before + t, |before|) && TokenAt(before + ['\\'] + t, |before| + 1)
    ensures TokenName(before + t, |before|) == TokenName(t, 0)
    ensures TokenName(before + ['\\'] + t, |before| + 1) == TokenName(t, 0)
    ensures Collected(before + ['\\'] + t, |before| + 1) <==> !Collected(before + t, |before|)
  {
    var escaped := before + ['\\'];
    TokenShift(before, t);
    TokenShift(escaped, t);
    assert escaped + t == before + ['\\'] + t;
    BackslashesPrefix(before, t, |before|);
    BackslashesPrefix(escaped, t, |escaped|);
    BackslashesPrefix(before, ['\\'], |before|);
  }

  /** Whether a token starts at `|a|` in `a + t` depends on `t` alone. */
  lemma TokenShift(a: string, t: string)
    requires TokenAt(t, 0)
    ensures TokenAt(a + t, |a|)
    ensures TokenName(a + t, |a|) == TokenName(t, 0)
  {
    WordEndShift(a, t, 2);
    assert (a + t)[|a|..] == t;
  }

  lemma {:induction false} WordEndShift(a: string, t: string, j: nat)
    requires j <= |t|
    ensures WordEnd(a + t, |a| + j) == |a| + WordEnd(t, j)
    decreases |t| - j
  {
    if j < |t| && IsWordChar(t[j]) {
      WordEndShift(a, t, j + 1);
    }
  }

  /** The backslashes before `p` depend only on the text before `p`. */
  lemma {:induction false} BackslashesPrefix(a: string, t: string, p: nat)
    requires p <= |a|
    ensures Backslashes(a + t, p) == Backslashes(a, p)
    decreases p
  {
    if p > 0 {
      BackslashesPrefix(a, t, p - 1);
    }
  }

  /** A substitution in which no name has a property value changes nothing. */
  lemma {:induction false} SubstituteUntouched(s: string, order: seq<string>, properties: map<string, string>)
    requires forall v :: v in order ==> v !in properties
    ensures Substitute(s, order, properties) == s
    decreases |order|
  {
    if order != [] {
      SubstituteUntouched(s, order[..|order| - 1], properties);
    }
  }

  /** A text in which no placeholder of a listed name occurs is left unchanged,
      whatever values the properties have. */
  lemma {:induction false} SubstituteNoPlaceholder(s: string, order: seq<string>, properties: map<string, string>)
    requires forall v :: v in order ==> !Occurs(s, Placeholder(v))
    ensures Substitute(s, order, properties) == s
    decreases |order|
  {
    if order != [] {
      var name := order[|order| - 1];
      SubstituteNoPlaceholder(s, order[..|order| - 1], properties);
      if name in properties {
        ReplaceAbsent(s, Placeholder(name), properties[name]);
      }
    }
  }

  /** Without an occurrence of the target, `String.replace` returns its input. */
  lemma {:induction false} ReplaceAbsent(s: string, target: string, replacement: string)
    requires |target| > 0
    requires !Occurs(s, target)
    ensures ReplaceAll(s, target, replacement) == s
    decreases |s|
  {
    if |s| >= |target| {
      assert !OccursAt(s, target, 0);
      assert !Occurs(s[1..], target) by {
        if i: nat :| OccursAt(s[1..], target, i) {
          assert s[i + 1..i + 1 + |target|] == s[1..][i..i + |target|];
          assert OccursAt(s, target, i + 1);
        }
      }
      ReplaceAbsent(s[1..], target, replacement);
    }
  }

  /** Replacing is splitting at the occurrences and joining with the replacement. */
  lemma {:induction false} ReplaceIsJoin(s: string, target: string, replacement: string)
    requires |target| > 0
    ensures ReplaceAll(s, target, replacement) == Join(Split(s, target), replacement)
    decreases |s|
  {
    if |s| < |target| {
    } else if s[..|target|] == target {
      ReplaceIsJoin(s[|target|..], target, replacement);
    } else {
      ReplaceIsJoin(s[1..], target, replacement);
      var rest := Split(s[1..], target);
      JoinHead(rest, replacement, s[0]);
    }
  }

  /** Putting the target back between the parts gives the input again. */
  lemma {:induction false} SplitJoin(s: string, target: string)
    requires |target| > 0
    ensures Join(Split(s, target), target) == s
    decreases |s|
  {
    if |s| < |target| {
    } else if s[..|target|] == target {
      var parts := Split(s[|target|..], target);
      SplitJoin(s[|target|..], target);
      assert Split(s, target) == [""] + parts;
      assert ([""] + parts)[1..] == parts;
      assert Join(Split(s, target), target) == target + Join(parts, target);
      assert s == target + s[|target|..];
    } else {
      var rest := Split(s[1..], target);
      SplitJoin(s[1..], target);
      JoinHead(rest, target, s[0]);
      assert Split(s, target) == [[s[0]] + rest[0]] + rest[1..];
      assert Join(Split(s, target), target) == [s[0]] + s[1..];
      assert s == [s[0]] + s[1..];
    }
  }

  lemma JoinHead(parts: seq<string>, separator: string, c: char)
    requires |parts| >= 1
    ensures Join([[c] + parts[0]] + parts[1..], separator) == [c] + Join(parts, separator)
  {
    var moved := [[c] + parts[0]] + parts[1..];
    assert moved[1..] == parts[1..];
  }

  /** No part of a split contains the target: every occurrence of the target in
      the input was a separator, and so is replaced by `String.replace`. */
  lemma {:induction false} SplitPartsFree(s: string, target: string)
    requires |target| > 0
    ensures forall k :: 0 <= k < |Split(s, target)| ==> !Occurs(Split(s, target)[k], target)
    decreases |s|
  {
    var parts := Split(s, target);
    if |s| < |target| {
      assert forall i: nat :: !OccursAt(s, target, i);
    } else if s[..|target|] == target {
      SplitPartsFree(s[|target|..], target);
      assert forall i: nat :: !OccursAt("", target, i);
      assert parts[1..] == Split(s[|target|..], target);
    } else {
      var rest := Split(s[1..], target);
      SplitPartsFree(s[1..], target);
      assert parts[1..] == rest[1..];
      SplitJoin(s, target);
      JoinPrefix(parts, target);
      var first := parts[0];
      assert first == [s[0]] + rest[0];
      forall i: nat | OccursAt(first, target, i)
        ensures false
      {
        if i > 0 {
          assert first[i..i + |target|] == rest[0][i - 1..i - 1 + |target|];
          assert OccursAt(rest[0], target, i - 1);
        }
      }
    }
  }

  lemma JoinPrefix(parts: seq<string>, separator: string)
    requires |parts| >= 1
    ensures |parts[0]| <= |Join(parts, separator)|
    ensures Join(parts, separator)[..|parts[0]|] == parts[0]
  {
  }

  /** With the same name both escaped and unescaped, `\${x}/${x}` collects `x`
      once, and then `String.replace` also rewrites the escaped copy:
      with `x = v` the result is `\v/v`. */
  lemma EscapedCopyReplaced()
    ensures Names("\\${x}/${x}") == {"x"}
    ensures Substitute("\\${x}/${x}", ["x"], map["x" := "v"]) == "\\v/v"
  {
    EscapedCopyNames();
    ReplaceExample();
    assert Placeholder("x") == "${x}";
    assert ["x"][..0] == [];
  }

  lemma EscapedCopyNames()
    ensures Names("\\${x}/${x}") == {"x"}
  {
    var s := "\\${x}/${x}";
    assert WordEnd(s, 8) == 9;
    assert TokenAt(s, 6) && Backslashes(s, 6) == 0;
    assert TokenName(s, 6) == "x";
    assert Backslashes(s, 1) == 1;
    forall p: nat | p < |s| && Collected(s, p)
      ensures p == 6
    {
      assert s[p] == '$';
    }
  }

  lemma ReplaceExample()
    ensures ReplaceAll("\\${x}/${x}", "${x}", "v") == "\\v/v"
  {
    var s := "\\${x}/${x}";
    calc {
      ReplaceAll(s, "${x}", "v");
      [s[0]] + ReplaceAll(s[1..], "${x}", "v");
      { assert s[1..][4..] == s[5..]; }
      [s[0]] + "v" + ReplaceAll(s[5..], "${x}", "v");
      { assert s[5..][1..] == s[6..]; }
      [s[0]] + "v" + [s[5]] + ReplaceAll(s[6..], "${x}", "v");
      { assert s[6..][4..] == s[10..]; }
      [s[0]] + "v" + [s[5]] + "v" + ReplaceAll(s[10..], "${x}", "v");
    }
  }

  /** A placeholder whose only occurrence is escaped by one backslash is not
      collected. */
  lemma EscapedAloneIgnored()
    ensures Names("\\${x}") == {}
  {
    var e := "\\${x}";
    assert WordEnd(e, 3) == 4;
    assert TokenAt(e, 1) && Backslashes(e, 1) == 1;
    assert forall p: nat :: p < |e| ==> !Collected(e, p);
  }
}
