/**
 Configuration files and run-time flags: rendering a template with custom parameters, and patching the flags
 of running processes when the custom ones change.
 */
module FlagConfig {

  datatype Option<+T> = None | Some(value: T)

  type Flags = map<string, string>

  datatype Parameter = Parameter(name: string, value: string)

  // ------------------------------------------------------------------ lines of a configuration file

  function Line(name: string, value: string): string { "--" + name + "=" + value }

  predicate StartsWith(s: string, prefix: string) { |prefix| <= |s| && s[..|prefix|] == prefix }

  predicate IsWordChar(c: char) { 'a' <= c <= 'z' || 'A' <= c <= 'Z' || '0' <= c <= '9' || c == '_' }

  /** The position after the longest run of word characters from `i` on. */
  function WordEnd(s: string, i: nat): (e: nat)
    requires i <= |s|
    ensures i <= e <= |s|
    decreases |s| - i
  {
    if i < |s| && IsWordChar(s[i]) then WordEnd(s, i + 1) else i
  }

  /** The leftmost match of two dashes, a word, an equals sign and a value that is not empty. */
  function Find(s: string, i: nat): Option<Parameter>
    requires i <= |s|
    decreases |s| - i
  {
    if i + 2 > |s| then None
    else
      var e := WordEnd(s, i + 2);
      if s[i] == '-' && s[i + 1] == '-' && i + 2 < e && e + 1 < |s| && s[e] == '=' then
        Some(Parameter(s[i + 2..e], s[e + 1..]))
      else Find(s, i + 1)
  }

  datatype Kind = Verbatim | Valued(p: Parameter) | Dropped

  function Classify(line: string): Kind {
    if line == "" || StartsWith(line, "#") then Verbatim
    else if StartsWith(line, "--") then
      var found := Find(line, 0);
      if found.Some? then Valued(found.value) else Verbatim
    else Dropped
  }

  function IndexOf(s: string, c: char): (i: nat)
    ensures i <= |s|
    ensures i < |s| ==> s[i] == c
  {
    if s == "" || s[0] == c then 0 else 1 + IndexOf(s[1..], c)
  }

  /** What the line sets when the file is read: the name ends at the first equals sign, the value may be empty. */
  function Setting(line: string): Option<Parameter> {
    if StartsWith(line, "--") && IndexOf(line, '=') < |line| then
      var e := IndexOf(line, '=');
      Some(Parameter(line[2..e], line[e + 1..]))
    else None
  }

  /** The value a file gives to `name`: the last line that sets it wins. */
  function Value(lines: seq<string>, name: string): Option<string> {
    if lines == [] then None
    else
      var later := Value(lines[1..], name);
      var s := Setting(lines[0]);
      if later.Some? then later else if s.Some? && s.value.name == name then Some(s.value.value) else None
  }

  // ------------------------------------------------------------------ rendering

  datatype Rendering = Rendering(lines: seq<string>, left: Flags)

  /** The template with its first valued line of each custom parameter replaced, and the parameters left over. */
  function Body(template: seq<string>, custom: Flags): Rendering {
    if template == [] then Rendering([], custom)
    else
      match Classify(template[0])
      case Verbatim => var r := Body(template[1..], custom); r.(lines := [template[0]] + r.lines)
      case Dropped => Body(template[1..], custom)
      case Valued(p) =>
        if p.name in custom then
          var r := Body(template[1..], custom - {p.name});
          r.(lines := [Line(p.name, custom[p.name])] + r.lines)
        else
          var r := Body(template[1..], custom);
          r.(lines := [Line(p.name, p.value)] + r.lines)
  }

  function Lines(keys: seq<string>, custom: Flags): seq<string>
    requires forall k :: k in keys ==> k in custom
  {
    if keys == [] then [] else [Line(keys[0], custom[keys[0]])] + Lines(keys[1..], custom)
  }

  /** `keys` lists the keys of `m`, each once. */
  ghost predicate Enumerates(keys: seq<string>, m: Flags) {
    (forall k :: k in keys <==> k in m) && forall i, j :: 0 <= i < j < |keys| ==> keys[i] != keys[j]
  }

  const HEADER := ["", "########## Custom ##########"]

  function Rendered(template: seq<string>, custom: Flags, keys: seq<string>): seq<string>
    requires forall k :: k in keys ==> k in Body(template, custom).left
  {
    if custom == map[] then template
    else Body(template, custom).lines + Tail(keys, Body(template, custom).left)
  }

  function Tail(keys: seq<string>, custom: Flags): seq<string>
    requires forall k :: k in keys ==> k in custom
  {
    if keys == [] then [] else HEADER + Lines(keys, custom)
  }

  predicate Precedes(a: string, b: string) {
    a == "" || (b != "" && (a[0] < b[0] || (a[0] == b[0] && Precedes(a[1..], b[1..]))))
  }

  lemma {:induction false} OneOrTheOther(a: string, b: string)
    ensures Precedes(a, b) || Precedes(b, a)
  {
    if a != "" && b != "" {
      OneOrTheOther(a[1..], b[1..]);
    }
  }

  lemma {:induction false} Transitive(a: string, b: string, c: string)
    requires Precedes(a, b) && Precedes(b, c)
    ensures Precedes(a, c)
  {
    if a != "" && b != "" && c != "" && a[0] == b[0] == c[0] {
      Transitive(a[1..], b[1..], c[1..]);
    }
  }

  ghost predicate Sorted(keys: seq<string>) {
    forall i, j :: 0 <= i < j < |keys| ==> Precedes(keys[i], keys[j])
  }

  /** The keys in ascending order. */
  method SortedKeys(m: Flags) returns (keys: seq<string>)
    ensures Enumerates(keys, m) && Sorted(keys)
  {
    keys := [];
    var rest := m.Keys;
    while rest != {}
      invariant rest <= m.Keys
      invariant forall k :: k in keys <==> k in m && k !in rest
      invariant forall i, j :: 0 <= i < j < |keys| ==> keys[i] != keys[j]
      invariant Sorted(keys)
      decreases |rest|
    {
      var k :| k in rest;
      rest := rest - {k};
      keys := Insert(keys, k);
    }
  }

  method Insert(keys: seq<string>, k: string) returns (r: seq<string>)
    requires Sorted(keys) && k !in keys && forall i, j :: 0 <= i < j < |keys| ==> keys[i] != keys[j]
    ensures Sorted(r) && (forall x :: x in r <==> x in keys || x == k)
    ensures forall i, j :: 0 <= i < j < |r| ==> r[i] != r[j]
  {
    var n := 0;
    while n < |keys| && Precedes(keys[n], k)
      invariant 0 <= n <= |keys|
      invariant forall i :: 0 <= i < n ==> Precedes(keys[i], k)
    {
      n := n + 1;
    }
    if n < |keys| {
      OneOrTheOther(keys[n], k);
      forall i | n < i < |keys| ensures Precedes(k, keys[i]) {
        Transitive(k, keys[n], keys[i]);
      }
    }
    r := keys[..n] + [k] + keys[n..];
  }

  /** The parameters found in the template are deleted from the custom ones; `left` is what remains of them. */
  method AppendCustomConfig(template: seq<string>, custom: Flags) returns (lines: seq<string>, left: Flags)
    ensures left == if custom == map[] then custom else Body(template, custom).left
    ensures exists keys :: Enumerates(keys, Body(template, custom).left) && Sorted(keys) && lines == Rendered(template, custom, keys)
  {
    if custom == map[] {
      NothingLeft(template);
      assert Enumerates([], Body(template, custom).left) && Sorted([]) && template == Rendered(template, custom, []);
      return template, custom;
    }
    lines, left := ReplaceParameters(template, custom);
    var tail, keys := CustomSection(left);
    lines := lines + tail;
  }

  /** The scan over the lines of the template. */
  method ReplaceParameters(template: seq<string>, custom: Flags) returns (lines: seq<string>, left: Flags)
    ensures Rendering(lines, left) == Body(template, custom)
  {
    lines, left := [], custom;
    for i := 0 to |template|
      invariant Body(template, custom) == Rendering(lines + Body(template[i..], left).lines, Body(template[i..], left).left)
    {
      var line := template[i];
      assert template[i..][1..] == template[i + 1..];
      match Classify(line) {
        case Verbatim =>
          lines := lines + [line];
        case Dropped =>
        case Valued(p) =>
          var value := p.value;
          if p.name in left {
            value := left[p.name];
            left := left - {p.name};
          }
          lines := lines + [Line(p.name, value)];
      }
    }
    assert template[|template|..] == [];
  }

  /** The section for the parameters that the template does not have. */
  method CustomSection(custom: Flags) returns (lines: seq<string>, keys: seq<string>)
    ensures Enumerates(keys, custom) && Sorted(keys) && lines == Tail(keys, custom)
  {
    keys := SortedKeys(custom);
    EmptyTogether(keys, custom);
    lines := CustomLines(keys, custom);
    if custom != map[] {
      lines := HEADER + lines;
    }
  }

  lemma EmptyTogether(keys: seq<string>, m: Flags)
    requires Enumerates(keys, m)
    ensures keys == [] <==> m == map[]
  {
    if m != map[] {
      var k :| k in m;
      assert k in keys;
    }
    if keys != [] {
      assert keys[0] in m;
    }
  }

  method CustomLines(keys: seq<string>, custom: Flags) returns (lines: seq<string>)
    requires forall k :: k in keys ==> k in custom
    ensures lines == Lines(keys, custom)
  {
    lines := [];
    for j := 0 to |keys|
      invariant lines + Lines(keys[j..], custom) == Lines(keys, custom)
    {
      assert keys[j..][1..] == keys[j + 1..];
      lines := lines + [Line(keys[j], custom[keys[j]])];
    }
    assert keys[|keys|..] == [];
  }

  lemma {:induction false} NothingLeft(template: seq<string>)
    ensures Body(template, map[]).left == map[]
  {
    if template != [] {
      NothingLeft(template[1..]);
    }
  }

  // ------------------------------------------------------------------ reading back what was rendered

  lemma {:induction false} IndexOfAfter(s: string, c: char, t: string)
    requires c !in s
    ensures IndexOf(s + [c] + t, c) == |s|
  {
    if s != "" {
      assert (s + [c] + t)[1..] == s[1..] + [c] + t;
      IndexOfAfter(s[1..], c, t);
    }
  }

  /** A rendered line sets its parameter, whatever the value. */
  lemma LineSets(name: string, value: string)
    requires '=' !in name
    ensures Setting(Line(name, value)) == Some(Parameter(name, value))
  {
    IndexOfAfter("--" + name, '=', value);
    var line := Line(name, value);
    var e := |"--" + name|;
    assert line == ("--" + name) + ['='] + value;
    assert line[2..e] == name && line[e + 1..] == value;
  }

  lemma {:induction false} WordHasNoEquals(s: string, i: nat, k: nat)
    requires i <= |s| && i <= k < WordEnd(s, i)
    ensures IsWordChar(s[k])
    decreases k - i
  {
    if i < k {
      WordHasNoEquals(s, i + 1, k);
    }
  }

  lemma {:induction false} FoundIsWord(s: string, i: nat)
    requires i <= |s| && Find(s, i).Some?
    ensures '=' !in Find(s, i).value.name
    decreases |s| - i
  {
    var e := WordEnd(s, i + 2);
    if s[i] == '-' && s[i + 1] == '-' && i + 2 < e && e + 1 < |s| && s[e] == '=' {
      forall k | i + 2 <= k < e ensures s[k] != '=' {
        WordHasNoEquals(s, i + 2, k);
      }
    } else {
      FoundIsWord(s, i + 1);
    }
  }

  /** The template as it is written when no parameter is replaced. */
  function Normal(template: seq<string>): seq<string> {
    if template == [] then []
    else
      match Classify(template[0])
      case Verbatim => [template[0]] + Normal(template[1..])
      case Dropped => Normal(template[1..])
      case Valued(p) => [Line(p.name, p.value)] + Normal(template[1..])
  }

  ghost predicate NamesWithoutEquals(custom: Flags) {
    forall k :: k in custom ==> '=' !in k
  }

  /** The value that a line after the first valued line of `name` still sets. */
  function Overruled(template: seq<string>, name: string): Option<string> {
    if template == [] then None
    else
      match Classify(template[0])
      case Valued(p) => if p.name == name then Value(Normal(template[1..]), name) else Overruled(template[1..], name)
      case _ => Overruled(template[1..], name)
  }

  /** `name` has a valued line. */
  predicate HasValued(template: seq<string>, name: string) {
    template != [] && ((Classify(template[0]).Valued? && Classify(template[0]).p.name == name) || HasValued(template[1..], name))
  }

  /** A parameter that is not custom keeps its value. */
  lemma {:induction false} BodyKeeps(template: seq<string>, custom: Flags, name: string)
    requires NamesWithoutEquals(custom) && name !in custom
    ensures name !in Body(template, custom).left
    ensures Value(Body(template, custom).lines, name) == Value(Normal(template), name)
  {
    if template != [] {
      var rest := template[1..];
      match Classify(template[0])
      case Verbatim => BodyKeeps(rest, custom, name);
      case Dropped => BodyKeeps(rest, custom, name);
      case Valued(p) =>
        FoundIsWord(template[0], 0);
        LineSets(p.name, p.value);
        if p.name in custom {
          LineSets(p.name, custom[p.name]);
          BodyKeeps(rest, custom - {p.name}, name);
        } else {
          BodyKeeps(rest, custom, name);
        }
    }
  }

  /** A custom parameter is set by its first valued line, unless a later line sets it again, or is left over. */
  lemma {:induction false} BodyReplaces(template: seq<string>, custom: Flags, name: string)
    requires NamesWithoutEquals(custom) && name in custom
    ensures !HasValued(template, name) ==> name in Body(template, custom).left && Body(template, custom).left[name] == custom[name]
    ensures HasValued(template, name) ==>
              && name !in Body(template, custom).left
              && Value(Body(template, custom).lines, name)
              == if Overruled(template, name).Some? then Overruled(template, name) else Some(custom[name])
    ensures !HasValued(template, name) ==> Overruled(template, name) == None
  {
    if template != [] {
      var rest := template[1..];
      match Classify(template[0])
      case Verbatim => BodyReplaces(rest, custom, name);
      case Dropped => BodyReplaces(rest, custom, name);
      case Valued(p) =>
        FoundIsWord(template[0], 0);
        if p.name == name {
          LineSets(name, custom[name]);
          BodyKeeps(rest, custom - {name}, name);
        } else if p.name in custom {
          LineSets(p.name, custom[p.name]);
          BodyReplaces(rest, custom - {p.name}, name);
        } else {
          LineSets(p.name, p.value);
          BodyReplaces(rest, custom, name);
        }
    }
  }

  lemma {:induction false} ValueOfSum(a: seq<string>, b: seq<string>, name: string)
    ensures Value(a + b, name) == if Value(b, name).Some? then Value(b, name) else Value(a, name)
  {
    if a == [] {
      assert a + b == b;
    } else {
      assert (a + b)[1..] == a[1..] + b;
      ValueOfSum(a[1..], b, name);
    }
  }

  lemma {:induction false} LinesSet(keys: seq<string>, m: Flags, name: string)
    requires (forall k :: k in keys ==> k in m) && NamesWithoutEquals(m)
    ensures Value(Lines(keys, m), name) == if name in keys then Some(m[name]) else None
  {
    if keys != [] {
      LineSets(keys[0], m[keys[0]]);
      LinesSet(keys[1..], m, name);
    }
  }

  lemma {:induction false} LeftIsCustom(template: seq<string>, custom: Flags)
    ensures forall k :: k in Body(template, custom).left ==> k in custom
  {
    if template != [] && custom != map[] {
      LeftIsCustom(template[1..], custom);
      match Classify(template[0])
      case Valued(p) => LeftIsCustom(template[1..], custom - {p.name});
      case _ =>
    } else {
      NothingLeft(template);
    }
  }

  /** A line of two dashes, a word of one character, an equals sign and a value is a valued one. */
  lemma LineAB(name: string, value: string)
    requires |name| == 1 && IsWordChar(name[0]) && value != ""
    ensures Classify(Line(name, value)) == Valued(Parameter(name, value)) && Plain(Line(name, value))
  {
    var line := Line(name, value);
    assert line == ['-', '-', name[0], '='] + value;
    assert WordEnd(line, 3) == 3 && WordEnd(line, 2) == 3;
    assert line[2..3] == name && line[4..] == value;
    LineSets(name, value);
  }

  /** What reading the rendered file gives for any parameter. */
  lemma RenderedValue(template: seq<string>, custom: Flags, keys: seq<string>, name: string)
    requires custom != map[] && NamesWithoutEquals(custom) && Enumerates(keys, Body(template, custom).left)
    ensures Value(Rendered(template, custom, keys), name)
         == if name in custom && Overruled(template, name).None? then Some(custom[name])
            else if name in custom then Overruled(template, name)
            else Value(Normal(template), name)
  {
    var r := Body(template, custom);
    LeftIsCustom(template, custom);
    if name in custom {
      BodyReplaces(template, custom, name);
    } else {
      BodyKeeps(template, custom, name);
    }
    ValueOfSum(r.lines, Tail(keys, r.left), name);
    TailSets(keys, r.left, name);
  }

  lemma TailSets(keys: seq<string>, m: Flags, name: string)
    requires (forall k :: k in keys ==> k in m) && NamesWithoutEquals(m)
    ensures Value(Tail(keys, m), name) == if name in keys then Some(m[name]) else None
  {
    LinesSet(keys, m, name);
    HeaderSetsNothing(name);
    ValueOfSum(HEADER, Lines(keys, m), name);
  }

  lemma HeaderSetsNothing(name: string)
    ensures Value(HEADER, name) == None
  {
    CommentSetsNothing(HEADER[1]);
    TwoComments(HEADER[0], HEADER[1], name);
  }

  lemma CommentSetsNothing(line: string)
    requires line != "" && line[0] == '#'
    ensures Setting(line) == None
  {
  }

  lemma TwoComments(a: string, b: string, name: string)
    requires Setting(a) == None && Setting(b) == None
    ensures Value([a, b], name) == None
  {
    assert [a, b][1..] == [b] && [b][1..] == [];
    assert Value([b], name) == None;
  }

  /** The file reads as the template overridden by the custom parameters, and nothing else. */
  ghost predicate ReadsAsOverridden(template: seq<string>, custom: Flags, keys: seq<string>)
    requires Enumerates(keys, Body(template, custom).left)
  {
    forall name :: Value(Rendered(template, custom, keys), name)
                == if name in custom then Some(custom[name]) else Value(template, name)
  }

  /** What is matched in the line is what it sets: the name before the first equals sign is a word. */
  predicate Plain(line: string) {
    Classify(line).Valued? ==> Setting(line) == Some(Classify(line).p)
  }

  ghost predicate AllPlain(lines: seq<string>) {
    forall i :: 0 <= i < |lines| ==> Plain(lines[i])
  }

  lemma {:induction false} PlainIsNormal(template: seq<string>, name: string)
    requires AllPlain(template)
    ensures Value(Normal(template), name) == Value(template, name)
  {
    if template != [] {
      PlainIsNormal(template[1..], name);
      assert Plain(template[0]);
      match Classify(template[0])
      case Valued(p) =>
        FoundIsWord(template[0], 0);
        LineSets(p.name, p.value);
      case _ =>
    }
  }

  /** On a template of plain lines, the custom parameters take effect exactly if no later line sets one to something else. */
  lemma OverrideIff(template: seq<string>, custom: Flags, keys: seq<string>)
    requires AllPlain(template) && NamesWithoutEquals(custom) && Enumerates(keys, Body(template, custom).left)
    ensures ReadsAsOverridden(template, custom, keys)
      <==> forall name :: name in custom ==> Overruled(template, name).None? || Overruled(template, name) == Some(custom[name])
  {
    if custom != map[] {
      forall name ensures Value(Rendered(template, custom, keys), name)
                       == if name in custom && Overruled(template, name).None? then Some(custom[name])
                          else if name in custom then Overruled(template, name)
                          else Value(template, name)
      {
        RenderedValue(template, custom, keys, name);
        PlainIsNormal(template, name);
      }
    }
  }

  /** No line sets a parameter again that a valued line before it sets. */
  ghost predicate NoLaterSetting(template: seq<string>) {
    forall i, j :: 0 <= i < j < |template| && Classify(template[i]).Valued? && Setting(template[j]).Some?
      ==> Classify(template[i]).p.name != Setting(template[j]).value.name
  }

  lemma {:induction false} UnsetValue(lines: seq<string>, name: string)
    requires forall i :: 0 <= i < |lines| && Setting(lines[i]).Some? ==> Setting(lines[i]).value.name != name
    ensures Value(lines, name) == None
  {
    if lines != [] {
      UnsetValue(lines[1..], name);
    }
  }

  lemma {:induction false} SetValue(lines: seq<string>, i: nat)
    requires i < |lines| && Setting(lines[i]).Some?
    ensures Value(lines, Setting(lines[i]).value.name).Some?
  {
    if i > 0 {
      SetValue(lines[1..], i - 1);
    }
  }

  lemma {:induction false} NoLaterNotOverruled(template: seq<string>, name: string)
    requires AllPlain(template) && NoLaterSetting(template)
    ensures Overruled(template, name) == None
  {
    if template != [] {
      var rest := template[1..];
      assert forall i :: 0 <= i < |rest| ==> rest[i] == template[i + 1];
      if Classify(template[0]).Valued? && Classify(template[0]).p.name == name {
        UnsetValue(rest, name);
        PlainIsNormal(rest, name);
      } else {
        NoLaterNotOverruled(rest, name);
      }
    }
  }

  lemma {:induction false} LaterOverrules(template: seq<string>, i: nat, j: nat)
    requires AllPlain(template) && i < j < |template| && Classify(template[i]).Valued? && Setting(template[j]).Some?
    requires Classify(template[i]).p.name == Setting(template[j]).value.name
    ensures Overruled(template, Classify(template[i]).p.name).Some? && HasValued(template, Classify(template[i]).p.name)
  {
    var rest, name := template[1..], Classify(template[i]).p.name;
    if Classify(template[0]).Valued? && Classify(template[0]).p.name == name {
      SetValue(rest, j - 1);
      PlainIsNormal(rest, name);
    } else {
      LaterOverrules(rest, i - 1, j - 1);
    }
  }

  /** Every set of custom parameters takes effect. */
  ghost predicate AlwaysOverrides(template: seq<string>) {
    forall custom: Flags, keys: seq<string> :: NamesWithoutEquals(custom) && Enumerates(keys, Body(template, custom).left)
      ==> ReadsAsOverridden(template, custom, keys)
  }

  /** Every set of custom parameters takes effect exactly if no line of the template sets a parameter again after a valued line. */
  lemma AlwaysOverridesIff(template: seq<string>)
    requires AllPlain(template)
    ensures AlwaysOverrides(template) <==> NoLaterSetting(template)
  {
    if NoLaterSetting(template) {
      NoLaterOverrides(template);
    } else {
      var i, j :| 0 <= i < j < |template| && Classify(template[i]).Valued? && Setting(template[j]).Some?
        && Classify(template[i]).p.name == Setting(template[j]).value.name;
      LaterOverrules(template, i, j);
      FoundIsWord(template[i], 0);
      OverruledFails(template, Classify(template[i]).p.name);
    }
  }

  lemma NoLaterOverrides(template: seq<string>)
    requires AllPlain(template) && NoLaterSetting(template)
    ensures AlwaysOverrides(template)
  {
    forall custom: Flags, keys: seq<string> | NamesWithoutEquals(custom) && Enumerates(keys, Body(template, custom).left)
      ensures ReadsAsOverridden(template, custom, keys)
    {
      forall name ensures Overruled(template, name).None? {
        NoLaterNotOverruled(template, name);
      }
      OverrideIff(template, custom, keys);
    }
  }

  /** A parameter that a later line sets again cannot be customised. */
  lemma OverruledFails(template: seq<string>, name: string)
    requires AllPlain(template) && '=' !in name && HasValued(template, name) && Overruled(template, name).Some?
    ensures !AlwaysOverrides(template)
  {
    var custom: Flags := map[name := Overruled(template, name).value + "x"];
    assert custom[name] != Overruled(template, name).value;
    LeftIsCustom(template, custom);
    BodyReplaces(template, custom, name);
    assert Enumerates([], Body(template, custom).left);
    OverrideIff(template, custom, []);
    assert !ReadsAsOverridden(template, custom, []);
  }

  /** A parameter set twice keeps the template's second value. */
  lemma RepeatedLineWins()
    ensures AllPlain(["--a=1", "--a=2"]) && !AlwaysOverrides(["--a=1", "--a=2"])
  {
    LineAB("a", "1");
    LineAB("a", "2");
    assert "--a=1" == Line("a", "1") && "--a=2" == Line("a", "2");
    LineSets("a", "2");
    SetTwice("--a=1", "--a=2");
  }

  lemma SetTwice(first: string, second: string)
    requires Plain(first) && Plain(second) && Classify(first).Valued? && Setting(second).Some?
    requires Classify(first).p.name == Setting(second).value.name
    ensures AllPlain([first, second]) && !AlwaysOverrides([first, second])
  {
    var template := [first, second];
    assert Classify(template[0]).p.name == Setting(template[1]).value.name;
    AlwaysOverridesIff(template);
  }

  /** A line that is matched as another parameter loses its own as soon as any third one is customised. */
  lemma MismatchIsLost(line: string, third: string)
    requires Classify(line).Valued? && Setting(line).Some? && Setting(line).value.name != Classify(line).p.name
    requires third != Classify(line).p.name && third != Setting(line).value.name && '=' !in third
    ensures !AlwaysOverrides([line])
  {
    var template, custom: Flags, keys := [line], map[third := ""], [third];
    var p, name := Classify(line).p, Setting(line).value.name;
    FoundIsWord(line, 0);
    assert template[1..] == [];
    assert Body(template[1..], custom) == Rendering([], custom) && p.name !in custom && third in custom;
    assert Enumerates(keys, Body(template, custom).left);
    assert Normal(template) == [Line(p.name, p.value)];
    LineSets(p.name, p.value);
    assert Value([Line(p.name, p.value)][1..], name) == None;
    RenderedValue(template, custom, keys, name);
    assert Value(template[1..], name) == None;
    assert !ReadsAsOverridden(template, custom, keys);
  }

  /** Such a line: the match starts inside the name. */
  lemma UnplainLineIsLost()
    ensures !AlwaysOverrides(["--x--y=3"])
  {
    UnplainLine("--x--y=3");
    assert "x--y" != "y" && "z" != "y" && "x--y" != "z" by { assert |"x--y"| == 4 && "z"[0] != "y"[0]; }
    MismatchIsLost("--x--y=3", "z");
  }

  /** What is matched in the line is not what it sets. */
  lemma UnplainLine(line: string)
    requires line == "--x--y=3"
    ensures Classify(line) == Valued(Parameter("y", "3")) && Setting(line) == Some(Parameter("x--y", "3"))
  {
    assert WordEnd(line, 3) == 3 && WordEnd(line, 2) == 3 && WordEnd(line, 4) == 4;
    assert WordEnd(line, 6) == 6 && WordEnd(line, 5) == 6;
    assert Find(line, 3) == Some(Parameter(line[5..6], line[7..]));
    assert Find(line, 2) == Find(line, 3) && Find(line, 1) == Find(line, 2) && Find(line, 0) == Find(line, 1);
    assert line[5..6] == "y" && line[7..] == "3";
    IndexOfAfter("--x--y", '=', "3");
    assert line == "--x--y" + ['='] + "3";
    assert line[2..6] == "x--y";
  }

  /** No two lines of the template set the same parameter. */
  ghost predicate DistinctNames(template: seq<string>) {
    forall i, j :: 0 <= i < j < |template| && Setting(template[i]).Some? && Setting(template[j]).Some?
      ==> Setting(template[i]).value.name != Setting(template[j]).value.name
  }

  /** With distinct parameters, lines of empty value included, every set of custom parameters takes effect. */
  lemma DistinctOverride(template: seq<string>)
    requires AllPlain(template) && DistinctNames(template)
    ensures AlwaysOverrides(template)
  {
    forall i, j | 0 <= i < j < |template| && Classify(template[i]).Valued? && Setting(template[j]).Some?
      ensures Classify(template[i]).p.name != Setting(template[j]).value.name
    {
      assert Plain(template[i]);
    }
    AlwaysOverridesIff(template);
  }

  // ------------------------------------------------------------------ flags of running processes

  /** The flags of `config` that can be changed at run time, and those that cannot. */
  method SeparateFlags(config: Flags, defaults: Flags) returns (dynamic: Flags, fixed: Flags)
    ensures dynamic.Keys !! fixed.Keys && dynamic + fixed == config
    ensures dynamic.Keys == config.Keys * defaults.Keys
  {
    dynamic, fixed := map[], map[];
    var rest := config.Keys;
    while rest != {}
      invariant rest <= config.Keys && dynamic.Keys + fixed.Keys == config.Keys - rest
      invariant forall k :: k in dynamic ==> k in defaults && dynamic[k] == config[k]
      invariant forall k :: k in fixed ==> k !in defaults && fixed[k] == config[k]
    {
      var k :| k in rest;
      rest := rest - {k};
      if k in defaults {
        dynamic := dynamic[k := config[k]];
      } else {
        fixed := fixed[k := config[k]];
      }
    }
  }

  /** `both` are the values in `second` of the keys that changed, `diff` the keys only `first` has. */
  method IntersectionDifference(first: Flags, second: Flags) returns (both: Flags, diff: Flags)
    ensures both == map k | k in first && k in second && first[k] != second[k] :: second[k]
    ensures diff == map k | k in first && k !in second :: first[k]
  {
    both, diff := map[], map[];
    var rest := first.Keys;
    while rest != {}
      invariant rest <= first.Keys
      invariant both == map k | k in first && k !in rest && k in second && first[k] != second[k] :: second[k]
      invariant diff == map k | k in first && k !in rest && k !in second :: first[k]
    {
      var k :| k in rest;
      rest := rest - {k};
      if k !in second {
        diff := diff[k := first[k]];
      } else if first[k] != second[k] {
        both := both[k := second[k]];
      }
    }
  }

  method ResetMap(first: Flags, second: Flags) returns (r: Flags)
    ensures r == map k | k in first :: if k in second then second[k] else first[k]
  {
    r := first;
    var rest := first.Keys;
    while rest != {}
      invariant rest <= first.Keys
      invariant r == map k | k in first :: if k in second && k !in rest then second[k] else first[k]
    {
      var k :| k in rest;
      rest := rest - {k};
      if k in second {
        r := r[k := second[k]];
      }
    }
  }

  /** The flags sent to every process when the custom flags change, if any are. */
  function Patch(was: Flags, now: Flags, defaults: Flags): Option<Flags> {
    if now == map[] && was == map[] then None
    else Some(now + map k | k in was && k !in now :: if k in defaults then defaults[k] else was[k])
  }

  method UpdateDynamicFlags(was: Flags, now: Flags, defaults: Flags) returns (sent: Option<Flags>)
    ensures sent == Patch(was, now, defaults)
  {
    if now == map[] && was == map[] {
      return None;
    }
    var _, removed := IntersectionDifference(was, now);
    var flags := now;
    if removed != map[] {
      removed := ResetMap(removed, defaults);
      flags := flags + removed;
    }
    assert flags == now + map k | k in was && k !in now :: if k in defaults then defaults[k] else was[k];
    return Some(flags);
  }

  /** The flags of a process after a patch. */
  function Patched(running: Flags, patch: Option<Flags>): Flags {
    if patch.Some? then running + patch.value else running
  }

  /**
   A process started with `start` and overridden by the old flags has, after the patch, `start` overridden by
   the new ones, exactly if each removed flag was started with its default.
   */
  lemma PatchIff(start: Flags, was: Flags, now: Flags, defaults: Flags)
    requires was.Keys <= defaults.Keys
    ensures Patched(start + was, Patch(was, now, defaults)) == start + now
      <==> forall k :: k in was && k !in now ==> k in start && start[k] == defaults[k]
  {
    var patched, wanted := Patched(start + was, Patch(was, now, defaults)), start + now;
    forall k ensures (k in patched <==> k in start || k in was || k in now) && (k in patched ==> patched[k] == PatchedAt(start, was, now, defaults, k)) {
    }
    if patched == wanted {
      forall k | k in was && k !in now ensures k in start && start[k] == defaults[k] {
        assert k in wanted && wanted[k] == patched[k];
      }
    }
  }

  /** The value of one flag after a patch. */
  function PatchedAt(start: Flags, was: Flags, now: Flags, defaults: Flags, k: string): string
    requires was.Keys <= defaults.Keys && (k in start || k in was || k in now)
  {
    if k in now then now[k] else if k in was then defaults[k] else start[k]
  }

  /** On top of the defaults the incremental patch is the same as applying all new flags from scratch. */
  lemma PatchIsReapplication(was: Flags, now: Flags, defaults: Flags)
    requires was.Keys <= defaults.Keys
    ensures Patched(defaults + was, Patch(was, now, defaults)) == defaults + now
  {
    PatchIff(defaults, was, now, defaults);
  }

  /** Patching along any history of flags ends where applying only the last ones ends. */
  lemma {:induction false} HistoryOfPatches(first: Flags, later: seq<Flags>, defaults: Flags)
    requires first.Keys <= defaults.Keys && forall i :: 0 <= i < |later| ==> later[i].Keys <= defaults.Keys
    ensures AfterPatches(defaults + first, first, later, defaults)
         == defaults + if later == [] then first else later[|later| - 1]
    decreases |later|
  {
    if later != [] {
      PatchIsReapplication(first, later[0], defaults);
      HistoryOfPatches(later[0], later[1..], defaults);
    }
  }

  function AfterPatches(running: Flags, current: Flags, later: seq<Flags>, defaults: Flags): Flags
    decreases |later|
  {
    if later == [] then running
    else AfterPatches(Patched(running, Patch(current, later[0], defaults)), later[0], later[1..], defaults)
  }
}
