/**
 What a rendered configuration file looks like, line by line: every blank line, comment and parameter of the
 template in its place, the value of a custom parameter where the template first sets it, and the custom parameters
 that the template does not have below a header of their own.
 */
module FlagLayout {
  import opened FlagConfig

  /** Blank lines, comments and parameters stay; everything else goes. */
  predicate Stays(line: string) { line == "" || StartsWith(line, "#") || StartsWith(line, "--") }

  function Staying(template: seq<string>): seq<string> {
    if template == [] then []
    else if Stays(template[0]) then [template[0]] + Staying(template[1..])
    else Staying(template[1..])
  }

  /** The parameter that a line of the template sets, with a value that is not empty. */
  function ParameterOf(line: string): Option<Parameter> {
    if StartsWith(line, "--") then Find(line, 0) else None
  }

  predicate Names(line: string, name: string) {
    ParameterOf(line).Some? && ParameterOf(line).value.name == name
  }

  /** None of the lines names the parameter. */
  ghost predicate NoneNames(lines: seq<string>, name: string) {
    forall i :: 0 <= i < |lines| ==> !Names(lines[i], name)
  }

  /** What the file has in the place of `lines[j]`: the custom value exactly where the parameter comes first. */
  ghost function InPlace(lines: seq<string>, j: nat, custom: Flags): string
    requires j < |lines|
  {
    match ParameterOf(lines[j])
    case None => lines[j]
    case Some(p) => if p.name in custom && NoneNames(lines[..j], p.name) then Line(p.name, custom[p.name]) else Line(p.name, p.value)
  }

  lemma ClassifiedByStays(line: string)
    ensures Classify(line).Dropped? <==> !Stays(line)
    ensures Classify(line).Valued? <==> ParameterOf(line).Some?
    ensures Classify(line).Valued? ==> Classify(line).p == ParameterOf(line).value
  {
  }

  /** One more line in front: it only matters to the places of its own parameter. */
  lemma InPlaceBelow(first: string, rest: seq<string>, j: nat, custom: Flags, less: Flags)
    requires j < |rest|
    requires less == if ParameterOf(first).Some? then custom - {ParameterOf(first).value.name} else custom
    ensures InPlace([first] + rest, j + 1, custom) == InPlace(rest, j, less)
  {
    var lines := [first] + rest;
    assert lines[j + 1] == rest[j];
    assert lines[..j + 1] == [first] + rest[..j];
    if ParameterOf(rest[j]).Some? {
      var name := ParameterOf(rest[j]).value.name;
      assert NoneNames(lines[..j + 1], name) <==> !Names(first, name) && NoneNames(rest[..j], name) by {
        assert lines[..j + 1][0] == first;
        assert forall i :: 0 <= i < j ==> lines[..j + 1][i + 1] == rest[..j][i];
      }
    }
  }

  /** One line for each line that stays, in the same order. */
  ghost predicate Follows(body: seq<string>, lines: seq<string>, custom: Flags) {
    |body| == |lines| && forall j :: 0 <= j < |lines| ==> body[j] == InPlace(lines, j, custom)
  }

  /** The custom parameters that remain after a line. */
  function After(line: string, custom: Flags): Flags {
    if ParameterOf(line).Some? then custom - {ParameterOf(line).value.name} else custom
  }

  lemma {:induction false} BodyLineByLine(template: seq<string>, custom: Flags)
    ensures Follows(Body(template, custom).lines, Staying(template), custom)
  {
    if template != [] {
      var first, rest, less := template[0], Staying(template[1..]), After(template[0], custom);
      BodyLineByLine(template[1..], less);
      SameWithout(template, custom);
      if Stays(first) {
        Stacked(first, rest, Body(template[1..], less).lines, custom);
      } else {
        ClassifiedByStays(first);
      }
    }
  }

  lemma SameWithout(template: seq<string>, custom: Flags)
    requires template != []
    ensures
      var body, below := Body(template, custom), Body(template[1..], After(template[0], custom));
      && body.left == below.left
      && body.lines == if Stays(template[0]) then [InPlace([template[0]], 0, custom)] + below.lines else below.lines
  {
    ClassifiedByStays(template[0]);
    assert [template[0]][..0] == [];
    if ParameterOf(template[0]).Some? && ParameterOf(template[0]).value.name !in custom {
      assert After(template[0], custom) == custom;
    }
  }

  lemma Stacked(first: string, rest: seq<string>, below: seq<string>, custom: Flags)
    requires Follows(below, rest, After(first, custom))
    ensures Follows([InPlace([first], 0, custom)] + below, [first] + rest, custom)
  {
    assert ([first] + rest)[..0] == [first][..0] == [];
    forall j | 0 < j < |[first] + rest|
      ensures ([InPlace([first], 0, custom)] + below)[j] == InPlace([first] + rest, j, custom)
    {
      InPlaceBelow(first, rest, j - 1, custom, After(first, custom));
    }
  }

  /** Left over are exactly the custom parameters that no line names, with their values. */
  lemma {:induction false} LeftOver(template: seq<string>, custom: Flags, name: string)
    ensures
      var left := Body(template, custom).left;
      && (name in left <==> name in custom && NoneNames(Staying(template), name))
      && (name in left ==> left[name] == custom[name])
  {
    if template != [] {
      var first, rest := template[0], Staying(template[1..]);
      LeftOver(template[1..], After(first, custom), name);
      SameWithout(template, custom);
      ClassifiedByStays(first);
      assert name in After(first, custom) <==> name in custom && !Names(first, name);
      NoneNamesBelow(first, rest, name);
    }
  }

  lemma NoneNamesBelow(first: string, rest: seq<string>, name: string)
    ensures NoneNames([first] + rest, name) <==> !Names(first, name) && NoneNames(rest, name)
  {
    assert ([first] + rest)[0] == first;
    assert forall i :: 0 <= i < |rest| ==> ([first] + rest)[i + 1] == rest[i];
  }

  lemma {:induction false} LinesInOrder(keys: seq<string>, m: Flags)
    requires forall k :: k in keys ==> k in m
    ensures |Lines(keys, m)| == |keys| && forall i :: 0 <= i < |keys| ==> Lines(keys, m)[i] == Line(keys[i], m[keys[i]])
  {
    if keys != [] {
      LinesInOrder(keys[1..], m);
    }
  }

  /** The section at the end: nothing, or the header and one line for each parameter left over. */
  ghost predicate Section(lines: seq<string>, keys: seq<string>, custom: Flags)
    requires forall k :: k in keys ==> k in custom
  {
    if keys == [] then lines == []
    else
      && |lines| == 2 + |keys| && lines[0] == "" && lines[1] == "########## Custom ##########"
      && forall i :: 0 <= i < |keys| ==> lines[2 + i] == Line(keys[i], custom[keys[i]])
  }

  lemma TailIsSection(keys: seq<string>, left: Flags, custom: Flags)
    requires forall k :: k in keys ==> k in left && k in custom && left[k] == custom[k]
    ensures Section(Tail(keys, left), keys, custom)
  {
    LinesInOrder(keys, left);
  }

  /**
   The layout of a rendered file, for any template and any custom parameters: the lines that stay, in place, then
   the section of the parameters that no line of the template names.
   */
  lemma RenderedLayout(template: seq<string>, custom: Flags, keys: seq<string>)
    requires custom != map[] && Enumerates(keys, Body(template, custom).left)
    ensures
      var lines, file := Staying(template), Rendered(template, custom, keys);
      && (forall k :: k in keys <==> k in custom && NoneNames(lines, k))
      && |file| >= |lines| && (forall j :: 0 <= j < |lines| ==> file[j] == InPlace(lines, j, custom))
      && Section(file[|lines|..], keys, custom)
  {
    var left := Body(template, custom).left;
    forall k ensures k in left <==> k in custom && NoneNames(Staying(template), k) ensures k in left ==> left[k] == custom[k] {
      LeftOver(template, custom, k);
    }
    BodyLineByLine(template, custom);
    TailIsSection(keys, left, custom);
    assert Rendered(template, custom, keys)[|Staying(template)|..] == Tail(keys, left);
  }
}
