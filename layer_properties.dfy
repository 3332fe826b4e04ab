/** What the controller, service and repository files declare, read from
    their lines: the one exported class, the five method signatures, the
    call each method forwards to, and the embedded input interfaces. */
module LayerProperties {
  import opened Text
  import opened TemplateHelper
  import opened InterfaceSyntax
  import opened TemplateProperties

  /** For every line that starts with `prefix`, the rest of that line, in order. */
  function Tagged(lines: seq<string>, prefix: string): seq<string>
  {
    if |lines| == 0 then []
    else (if StartsWith(lines[0], prefix) then [lines[0][|prefix|..]] else []) + Tagged(lines[1..], prefix)
  }

  /** Line prefixes the properties below read: the import, the exported class,
      a method signature, and a method's forwarding call. */
  predicate IsLayerTag(prefix: string)
  {
    prefix == "import " || prefix == "export class " || prefix == "  async " || prefix == "    return "
  }

  // ---------------------------------------------------------------------
  // Lemmas about lines

  lemma {:induction false} TaggedAppend(a: seq<string>, b: seq<string>, prefix: string)
    ensures Tagged(a + b, prefix) == Tagged(a, prefix) + Tagged(b, prefix)
  {
    if |a| > 0 {
      assert (a + b)[1..] == a[1..] + b;
      TaggedAppend(a[1..], b, prefix);
    } else {
      assert a + b == b;
    }
  }

  lemma {:induction false} ConcatLinesAppend(a: seq<string>, b: seq<string>)
    ensures ConcatLines(a + b) == ConcatLines(a) + ConcatLines(b)
  {
    if |a| > 0 {
      assert (a + b)[1..] == a[1..] + b;
      ConcatLinesAppend(a[1..], b);
    } else {
      assert a + b == b;
    }
  }

  lemma {:induction false} ConcatLinesOfLines(ls: seq<string>)
    requires forall l :: l in ls ==> '\n' !in l
    ensures ConcatLines(ls) == ls
  {
    if |ls| > 0 {
      LinesOfLine(ls[0]);
      ConcatLinesOfLines(ls[1..]);
    }
  }

  /** A line that differs from `prefix` at some position inside both does
      not start with it. */
  lemma Mismatch(line: string, prefix: string, i: nat)
    requires i < |prefix| && i < |line| && line[i] != prefix[i]
    ensures !StartsWith(line, prefix)
  {
    if |prefix| <= |line| {
      assert line[..|prefix|][i] == line[i];
    }
  }

  /** The characters of a member line: two spaces, the head (the name and
      the optional marker), then a colon. */
  lemma MemberLineChars(name: string, optional: bool, tsType: string)
    requires IsIdentifier(name)
    ensures var head := name + (if optional then "?" else "");
            var line := MemberLine(name, optional, tsType);
            && |line| == |head| + 5 + |tsType|
            && line[0] == ' '
            && line[2 + |head|] == ':'
            && (forall j :: 0 <= j < |head| ==> line[2 + j] == head[j])
            && (forall j :: 0 <= j < |head| ==> head[j] != ' ' && head[j] != ':')
  {
    var head := name + (if optional then "?" else "");
    var line := MemberLine(name, optional, tsType);
    assert line == "  " + head + ": " + tsType + ";";
    forall j | 0 <= j < |head| ensures head[j] != ' ' && head[j] != ':' {
      if j < |name| {
        assert head[j] == name[j];
        assert IsWordChar(name[j]);
      }
    }
  }

  /** A member line never starts with one of the layer tags: it starts with
      two spaces and an identifier, followed by `?:` or `:`. */
  lemma MemberLineUntagged(name: string, optional: bool, tsType: string, prefix: string)
    requires IsIdentifier(name) && IsLayerTag(prefix)
    ensures !StartsWith(MemberLine(name, optional, tsType), prefix)
  {
    var head := name + (if optional then "?" else "");
    var line := MemberLine(name, optional, tsType);
    var k := |head|;
    MemberLineChars(name, optional, tsType);
    if prefix == "import " || prefix == "export class " {
      Mismatch(line, prefix, 0);
    } else if prefix == "    return " {
      Mismatch(line, prefix, 2);
    } else if k <= 5 {
      Mismatch(line, prefix, 2 + k);
    } else {
      Mismatch(line, prefix, 7);
    }
  }

  lemma {:induction false} MemberLinesUntagged(ms: seq<Member>, prefix: string)
    requires forall m :: m in ms ==> IsIdentifier(m.name)
    requires IsLayerTag(prefix)
    ensures Tagged(MemberLines(ms), prefix) == []
  {
    if |ms| > 0 {
      MemberLineUntagged(ms[0].name, ms[0].optional, ms[0].tsType, prefix);
      assert MemberLines(ms)[1..] == MemberLines(ms[1..]);
      MemberLinesUntagged(ms[1..], prefix);
    }
  }

  lemma {:induction false} HeaderUntagged(name: string, prefix: string)
    requires IsLayerTag(prefix)
    ensures !StartsWith("interface " + name + " {", prefix)
    ensures !StartsWith("}", prefix) && !StartsWith("", prefix)
  {
    var header := "interface " + name + " {";
    assert header[0] == 'i' && header[1] == 'n' && header[2] == 't';
  }

  /** The lines of an interface text carry none of the layer tags. */
  lemma InterfaceUntagged(name: string, ms: seq<Member>, prefix: string)
    requires IsIdentifier(name) && IsLayerTag(prefix)
    requires forall m :: m in ms ==> IsIdentifier(m.name) && '\n' !in m.tsType
    ensures Tagged(Lines("interface " + name + " {\n" + Join(MemberLines(ms), "\n") + "\n}"), prefix) == []
  {
    IdentifierHasNoPunctuation(name);
    var header := "interface " + name + " {";
    var body := Join(MemberLines(ms), "\n");
    assert "interface " + name + " {\n" + body + "\n}" == header + "\n" + body + "\n}";
    InterfaceTextLines(header, body);
    MemberBodyLines(ms);
    HeaderUntagged(name, prefix);
    assert Tagged(Lines(body), prefix) == [] by {
      if |ms| > 0 {
        MemberLinesUntagged(ms, prefix);
      }
    }
    TaggedAppend([header], Lines(body), prefix);
    TaggedAppend([header] + Lines(body), ["}"], prefix);
  }

  /** The create and update interfaces carry none of the layer tags. */
  lemma InputTypesUntagged(model: Model, prefix: string)
    requires WellNamed(model) && IsLayerTag(prefix)
    ensures Tagged(Lines(CreateInputType(model)), prefix) == []
    ensures Tagged(Lines(UpdateInputType(model)), prefix) == []
    ensures '\n' !in CreateInputName(model) && '\n' !in UpdateInputName(model)
  {
    var fs := InputFields(model.fields);
    InputFieldsSpec(model.fields);
    InputNamesAreIdentifiers(model);
    IdentifierHasNoPunctuation(CreateInputName(model));
    IdentifierHasNoPunctuation(UpdateInputName(model));
    forall m | m in CreateMembers(fs) ensures IsIdentifier(m.name) && '\n' !in m.tsType {
      var i :| 0 <= i < |fs| && CreateMembers(fs)[i] == m;
      assert fs[i] in fs;
      TypeForFieldOneLine(fs[i]);
    }
    forall m | m in UpdateMembers(fs) ensures IsIdentifier(m.name) && '\n' !in m.tsType {
      var i :| 0 <= i < |fs| && UpdateMembers(fs)[i] == m;
      assert fs[i] in fs;
      TypeForFieldOneLine(fs[i]);
    }
    CreateFieldLinesAreMemberLines(fs);
    UpdateFieldLinesAreMemberLines(fs);
    InterfaceUntagged(CreateInputName(model), CreateMembers(fs), prefix);
    InterfaceUntagged(UpdateInputName(model), UpdateMembers(fs), prefix);
  }

  /** The lines of a layer file: its import line, a blank line, the two
      interfaces each followed by a blank line, then the class lines. */
  lemma LayerLines(importLine: string, model: Model, cls: seq<string>)
    requires '\n' !in importLine
    requires forall l :: l in cls ==> '\n' !in l
    ensures Lines(LayerFile(importLine, model, cls))
            == [importLine, ""] + Lines(CreateInputType(model)) + [""] + Lines(UpdateInputType(model)) + [""]
               + cls
  {
    var c := CreateInputType(model);
    var u := UpdateInputType(model);
    var parts := [importLine, ""] + [c] + [""] + [u] + [""] + cls;
    assert [importLine, "", c, "", u, ""] + cls == parts;
    LinesOfJoin(parts);
    ConcatLinesAppend([importLine, ""] + [c] + [""] + [u] + [""], cls);
    ConcatLinesAppend([importLine, ""] + [c] + [""] + [u], [""]);
    ConcatLinesAppend([importLine, ""] + [c] + [""], [u]);
    ConcatLinesAppend([importLine, ""] + [c], [""]);
    ConcatLinesAppend([importLine, ""], [c]);
    ConcatLinesOfLines([importLine, ""]);
    ConcatLinesOfLines([""]);
    ConcatLinesOfLines(cls);
    assert ConcatLines([c]) == Lines(c);
    assert ConcatLines([u]) == Lines(u);
  }

  /** The tags of a layer file come from its import line and its class
      lines only: the embedded interfaces contribute none. */
  lemma LayerTagged(importLine: string, model: Model, cls: seq<string>, prefix: string)
    requires WellNamed(model) && IsLayerTag(prefix)
    requires '\n' !in importLine
    requires forall l :: l in cls ==> '\n' !in l
    ensures Tagged(Lines(LayerFile(importLine, model, cls)), prefix)
            == Tagged([importLine], prefix) + Tagged(cls, prefix)
  {
    LayerLines(importLine, model, cls);
    InputTypesUntagged(model, prefix);
    HeaderUntagged("", prefix);
    var c := Lines(CreateInputType(model));
    var u := Lines(UpdateInputType(model));
    TaggedAppend([importLine, ""] + c + [""] + u + [""], cls, prefix);
    TaggedAppend([importLine, ""] + c + [""] + u, [""], prefix);
    TaggedAppend([importLine, ""] + c + [""], u, prefix);
    TaggedAppend([importLine, ""] + c, [""], prefix);
    TaggedAppend([importLine, ""], c, prefix);
    TaggedAppend([importLine], [""], prefix);
  }

  /** The model name and its lowercase form fit on one line. */
  lemma NameOneLine(model: Model)
    requires WellNamed(model)
    ensures '\n' !in model.name && '\n' !in ToLower(model.name)
  {
    IdentifierHasNoPunctuation(model.name);
    ToLowerIdentifier(model.name);
    IdentifierHasNoPunctuation(ToLower(model.name));
  }

  /** The names and the identifier type the templates splice in fit on one line. */
  lemma NamesOneLine(model: Model)
    requires WellNamed(model) && HasId(model.fields)
    ensures '\n' !in model.name && '\n' !in ToLower(model.name) && '\n' !in IdType(model)
    ensures '\n' !in CreateInputName(model) && '\n' !in UpdateInputName(model)
  {
    NameOneLine(model);
    TypeForFieldOneLine(FindId(model.fields).value);
    InputNamesAreIdentifiers(model);
    IdentifierHasNoPunctuation(CreateInputName(model));
    IdentifierHasNoPunctuation(UpdateInputName(model));
  }

  /** A body line of a generated method is indented by four spaces. */
  predicate IsBodyLine(line: string)
  {
    '\n' !in line && StartsWith(line, "    ")
  }

  /** A body line is never a signature, an import or a class line. */
  lemma {:induction false} BodyLinesUntagged(body: seq<string>, prefix: string)
    requires forall l :: l in body ==> IsBodyLine(l)
    requires prefix == "import " || prefix == "export class " || prefix == "  async "
    ensures Tagged(body, prefix) == []
  {
    if |body| > 0 {
      assert body[0] in body;
      assert body[0][..4] == "    ";
      assert body[0][2] == ' ';
      assert forall l :: l in body[1..] ==> l in body;
      BodyLinesUntagged(body[1..], prefix);
    }
  }

  /** The signature line is the one line of a method that starts with
      `  async `. */
  lemma SignatureLineTagged(signature: string, prefix: string)
    requires IsLayerTag(prefix)
    ensures Tagged(["  async " + signature + " {"], prefix)
            == if prefix == "  async " then [signature + " {"] else []
  {
    var line := "  async " + signature + " {";
    if prefix == "  async " {
      assert line[..8] == "  async ";
      assert line[8..] == signature + " {";
    } else if prefix == "    return " {
      assert line[2] == 'a';
    } else {
      assert line[0] == ' ';
    }
  }

  /** A method contributes its signature and whatever its body contributes. */
  lemma MethodTagged(signature: string, body: seq<string>, prefix: string)
    requires IsLayerTag(prefix)
    requires forall l :: l in body ==> IsBodyLine(l)
    ensures Tagged(Method(signature, body), prefix)
            == (if prefix == "  async " then [signature + " {"] else []) + Tagged(body, prefix)
  {
    var sigLine := "  async " + signature + " {";
    assert Method(signature, body) == [""] + [sigLine] + body + ["  }"];
    TaggedAppend([""] + [sigLine], body, prefix);
    TaggedAppend([""] + [sigLine] + body, ["  }"], prefix);
    TaggedAppend([""], [sigLine], prefix);
    SignatureLineTagged(signature, prefix);
    assert Tagged(["  }"], prefix) == [];
    assert Tagged([""], prefix) == [];
  }

  /** A one-line body `    return <call>` forwards to `call`. */
  lemma ReturnTagged(call: string, prefix: string)
    requires '\n' !in call && IsLayerTag(prefix)
    ensures IsBodyLine("    return " + call)
    ensures Tagged(["    return " + call], prefix) == if prefix == "    return " then [call] else []
  {
    var line := "    return " + call;
    assert line[..4] == "    ";
    assert line[..11] == "    return ";
    assert line[11..] == call;
    assert line[0] == ' ' && line[2] == ' ';
  }

  lemma MethodOneLine(signature: string, body: seq<string>)
    requires '\n' !in signature
    requires forall l :: l in body ==> IsBodyLine(l)
    ensures forall l :: l in Method(signature, body) ==> '\n' !in l
  {
  }

  /** Every line of every body is a body line. */
  predicate AreBodies(bodies: seq<seq<string>>)
  {
    forall b, l :: b in bodies && l in b ==> IsBodyLine(l)
  }

  /** The signature lines of the methods, after `  async `. */
  function SignatureLines(signatures: seq<string>): (r: seq<string>)
    ensures |r| == |signatures|
    ensures forall i :: 0 <= i < |r| ==> r[i] == signatures[i] + " {"
  {
    if |signatures| == 0 then [] else [signatures[0] + " {"] + SignatureLines(signatures[1..])
  }

  /** What the method bodies contribute under `prefix`, in order. */
  function BodiesTagged(bodies: seq<seq<string>>, prefix: string): seq<string>
  {
    if |bodies| == 0 then [] else Tagged(bodies[0], prefix) + BodiesTagged(bodies[1..], prefix)
  }

  /** Methods contribute their signature lines under `  async ` and what
      their bodies contribute under the other tags. */
  lemma {:induction false} MethodsTagged(signatures: seq<string>, bodies: seq<seq<string>>, prefix: string)
    requires |signatures| == |bodies| && IsLayerTag(prefix) && AreBodies(bodies)
    ensures Tagged(Methods(signatures, bodies), prefix)
            == (if prefix == "  async " then SignatureLines(signatures) else []) + BodiesTagged(bodies, prefix)
  {
    if |signatures| > 0 {
      var first := Method(signatures[0], bodies[0]);
      var rest := Methods(signatures[1..], bodies[1..]);
      assert bodies[0] in bodies;
      assert forall b :: b in bodies[1..] ==> b in bodies;
      MethodTagged(signatures[0], bodies[0], prefix);
      MethodsTagged(signatures[1..], bodies[1..], prefix);
      TaggedAppend(first, rest, prefix);
      if prefix == "  async " {
        BodyLinesUntagged(bodies[0], prefix);
        BodiesUntagged(bodies[1..], prefix);
        BodiesUntagged(bodies, prefix);
        assert Tagged(first, prefix) == [signatures[0] + " {"];
        assert Tagged(rest, prefix) == SignatureLines(signatures[1..]);
      } else {
        assert Tagged(first, prefix) == Tagged(bodies[0], prefix);
        assert Tagged(rest, prefix) == BodiesTagged(bodies[1..], prefix);
      }
    }
  }

  /** No line of the methods spans two lines. */
  lemma {:induction false} MethodsOneLine(signatures: seq<string>, bodies: seq<seq<string>>)
    requires |signatures| == |bodies| && AreBodies(bodies)
    requires forall s :: s in signatures ==> '\n' !in s
    ensures forall l :: l in Methods(signatures, bodies) ==> '\n' !in l
  {
    if |signatures| > 0 {
      assert signatures[0] in signatures && bodies[0] in bodies;
      MethodOneLine(signatures[0], bodies[0]);
      assert forall s :: s in signatures[1..] ==> s in signatures;
      assert forall b :: b in bodies[1..] ==> b in bodies;
      MethodsOneLine(signatures[1..], bodies[1..]);
    }
  }

  /** Bodies carry no import, class or signature line. */
  lemma {:induction false} BodiesUntagged(bodies: seq<seq<string>>, prefix: string)
    requires AreBodies(bodies)
    requires prefix == "import " || prefix == "export class " || prefix == "  async "
    ensures BodiesTagged(bodies, prefix) == []
  {
    if |bodies| > 0 {
      assert bodies[0] in bodies;
      BodyLinesUntagged(bodies[0], prefix);
      assert forall b :: b in bodies[1..] ==> b in bodies;
      BodiesUntagged(bodies[1..], prefix);
    }
  }

  /** One-line forwarding bodies are bodies, and they return exactly their calls. */
  lemma {:induction false} ReturnsTagged(calls: seq<string>)
    requires forall c :: c in calls ==> '\n' !in c
    ensures AreBodies(Returns(calls))
    ensures BodiesTagged(Returns(calls), "    return ") == calls
  {
    if |calls| > 0 {
      assert calls[0] in calls;
      ReturnTagged(calls[0], "    return ");
      assert forall c :: c in calls[1..] ==> c in calls;
      ReturnsTagged(calls[1..]);
      assert [calls[0]] + calls[1..] == calls;
    }
  }

  /** A class declaration line and a constructor line: only the former is
      tagged, with `export class `. */
  lemma ClassHeadTagged(decl: string, constructorLine: string, prefix: string)
    requires StartsWith(decl, "export class ") && StartsWith(constructorLine, "  constructor")
    requires IsLayerTag(prefix)
    ensures Tagged([decl, constructorLine], prefix) == if prefix == "export class " then [decl[13..]] else []
  {
    assert decl[0] == 'e';
    assert constructorLine[2] == 'c' && constructorLine[0] == ' ';
    assert Tagged([constructorLine], prefix) == [];
    TaggedAppend([decl], [constructorLine], prefix);
  }

  /** No line of a class spans two lines. */
  lemma ClassOneLine(head: seq<string>, signatures: seq<string>, bodies: seq<seq<string>>)
    requires forall l :: l in head ==> '\n' !in l
    requires |signatures| == |bodies| && AreBodies(bodies)
    requires forall s :: s in signatures ==> '\n' !in s
    ensures forall l :: l in head + Methods(signatures, bodies) + ["}"] ==> '\n' !in l
  {
    MethodsOneLine(signatures, bodies);
  }

  /** A class: its head lines, its methods and the closing brace. */
  lemma ClassTagged(head: seq<string>, signatures: seq<string>, bodies: seq<seq<string>>, prefix: string)
    requires |signatures| == |bodies| && IsLayerTag(prefix) && AreBodies(bodies)
    requires forall s :: s in signatures ==> '\n' !in s
    ensures Tagged(head + Methods(signatures, bodies) + ["}"], prefix)
            == Tagged(head, prefix)
               + (if prefix == "  async " then SignatureLines(signatures) else [])
               + BodiesTagged(bodies, prefix)
  {
    var ms := Methods(signatures, bodies);
    MethodsTagged(signatures, bodies, prefix);
    assert Tagged(["}"], prefix) == [];
    TaggedAppend(head, ms, prefix);
    TaggedAppend(head + ms, ["}"], prefix);
  }

  /** The import line is tagged `import ` and nothing else. */
  lemma ImportTagged(importLine: string, prefix: string)
    requires StartsWith(importLine, "import ") && IsLayerTag(prefix)
    ensures Tagged([importLine], prefix) == if prefix == "import " then [importLine[7..]] else []
  {
    assert importLine[0] == 'i';
  }

  /** Everything a layer file is tagged with, from its parts: the import,
      the class declaration, the signatures and what the bodies return. */
  lemma LayerFileTagged(importLine: string, model: Model, decl: string, constructorLine: string,
                        signatures: seq<string>, bodies: seq<seq<string>>, prefix: string)
    requires WellNamed(model) && IsLayerTag(prefix)
    requires HeadLines(importLine, decl, constructorLine)
    requires MethodParts(signatures, bodies)
    ensures Tagged(Lines(LayerFile(importLine, model, [decl, constructorLine] + Methods(signatures, bodies) + ["}"])), prefix)
            == if prefix == "import " then [importLine[7..]]
               else if prefix == "export class " then [decl[13..]]
               else if prefix == "  async " then SignatureLines(signatures)
               else BodiesTagged(bodies, prefix)
  {
    var head := [decl, constructorLine];
    var cls := head + Methods(signatures, bodies) + ["}"];
    ClassOneLine(head, signatures, bodies);
    LayerTagged(importLine, model, cls, prefix);
    ImportTagged(importLine, prefix);
    ClassHeadTagged(decl, constructorLine, prefix);
    ClassTagged(head, signatures, bodies, prefix);
    if prefix == "    return " {
      assert Tagged([importLine], prefix) == [] && Tagged(head, prefix) == [];
    } else {
      BodiesUntagged(bodies, prefix);
      if prefix == "import " {
        assert Tagged(cls, prefix) == [];
      } else if prefix == "export class " {
        assert Tagged(cls, prefix) == [decl[13..]];
      } else {
        assert Tagged(cls, prefix) == SignatureLines(signatures);
      }
    }
  }

  lemma DelegateCallsOneLine(target: string)
    requires '\n' !in target
    ensures forall c :: c in DelegateCalls(target) ==> '\n' !in c
  {
  }

  lemma SignaturesOneLine(model: Model)
    requires WellNamed(model) && HasId(model.fields)
    ensures forall s :: s in CrudSignatures(model) ==> '\n' !in s
  {
    NamesOneLine(model);
    var id := IdType(model);
    AroundOneLine("findById(id: ", id, ")");
    AroundOneLine("create(data: ", CreateInputName(model), ")");
    AroundOneLine("delete(id: ", id, ")");
    AroundOneLine("update(id: ", id, ", data: ");
    AroundOneLine("update(id: " + id + ", data: ", UpdateInputName(model), ")");
  }

  /** A one-line string built around a one-line name. */
  lemma AroundOneLine(lead: string, name: string, rest: string)
    requires '\n' !in lead && '\n' !in name && '\n' !in rest
    ensures '\n' !in lead + name + rest
  {
  }

  /** The head lines of a layer file: one line each, with the leads the
      tags look for. */
  predicate HeadLines(importLine: string, decl: string, constructorLine: string)
  {
    LeadLine(importLine, "import ") && LeadLine(decl, "export class ") && LeadLine(constructorLine, "  constructor")
  }

  /** One line that starts with `tag`. */
  predicate LeadLine(line: string, tag: string)
  {
    '\n' !in line && StartsWith(line, tag)
  }

  /** The signatures and bodies of a layer class: one line each, the bodies
      indented. */
  predicate MethodParts(signatures: seq<string>, bodies: seq<seq<string>>)
  {
    |signatures| == |bodies| && AreBodies(bodies) && forall s :: s in signatures ==> '\n' !in s
  }

  lemma ForwardingParts(model: Model, target: string)
    requires WellNamed(model) && HasId(model.fields) && '\n' !in target
    ensures MethodParts(CrudSignatures(model), Returns(DelegateCalls(target)))
  {
    SignaturesOneLine(model);
    DelegateCallsOneLine(target);
    ReturnsTagged(DelegateCalls(target));
  }

  /** A line that starts with `tag` still does with more text after it. */
  lemma StartsWithAppend(a: string, b: string, tag: string)
    requires StartsWith(a, tag)
    ensures StartsWith(a + b, tag)
  {
    assert (a + b)[..|tag|] == a[..|tag|];
  }

  /** A line assembled from five one-line pieces, the first of which starts
      with `tag`, is one line and starts with `tag`. */
  lemma FivePieceLine(a: string, b: string, c: string, d: string, e: string, tag: string)
    requires StartsWith(a, tag)
    requires '\n' !in a && '\n' !in b && '\n' !in c && '\n' !in d && '\n' !in e
    ensures LeadLine(a + b + c + d + e, tag)
  {
    StartsWithAppend(a, b, tag);
    StartsWithAppend(a + b, c, tag);
    StartsWithAppend(a + b + c, d, tag);
    StartsWithAppend(a + b + c + d, e, tag);
  }

  /** An import line `import { <Name>... from './<lower>...';`. */
  lemma ImportLine(model: Model, middle: string, tail: string)
    requires WellNamed(model) && '\n' !in middle && '\n' !in tail
    ensures LeadLine("import { " + model.name + middle + ToLower(model.name) + tail, "import ")
    ensures ("import { " + model.name + middle + ToLower(model.name) + tail)[7..]
            == "{ " + model.name + middle + ToLower(model.name) + tail
  {
    var lower := ToLower(model.name);
    NameOneLine(model);
    FivePieceLine("import { ", model.name, middle, lower, tail, "import ");
    DropAppend("import { " + model.name + middle + lower, tail, 7);
    DropAppend("import { " + model.name + middle, lower, 7);
    DropAppend("import { " + model.name, middle, 7);
    DropAppend("import { ", model.name, 7);
    assert "import { "[7..] == "{ ";
  }

  /** A class declaration line `export class <Name>...`. */
  lemma DeclLine(model: Model, tail: string)
    requires WellNamed(model) && '\n' !in tail
    ensures LeadLine("export class " + model.name + tail, "export class ")
    ensures ("export class " + model.name + tail)[13..] == model.name + tail
  {
    DropAppend("export class " + model.name, tail, 13);
    DropAppend("export class ", model.name, 13);
    NameOneLine(model);
    StartsWithAppend("export class ", model.name, "export class ");
    StartsWithAppend("export class " + model.name, tail, "export class ");
  }

  /** A constructor line that injects the `<lower>...` delegate. */
  lemma InjectingConstructorLine(model: Model, middle: string, tail: string)
    requires WellNamed(model) && '\n' !in middle && '\n' !in tail
    ensures LeadLine("  constructor(private readonly " + ToLower(model.name) + middle + model.name + tail, "  constructor")
  {
    NameOneLine(model);
    FivePieceLine("  constructor(private readonly ", ToLower(model.name), middle, model.name, tail, "  constructor");
  }

  lemma ControllerHead(model: Model)
    requires WellNamed(model)
    ensures var lower := ToLower(model.name);
            && HeadLines("import { " + model.name + "Service } from './" + lower + ".service';",
                         "export class " + model.name + "Controller {",
                         "  constructor(private readonly " + lower + "Service: " + model.name + "Service) {}")
            && ("import { " + model.name + "Service } from './" + lower + ".service';")[7..]
               == "{ " + model.name + "Service } from './" + lower + ".service';"
            && ("export class " + model.name + "Controller {")[13..] == model.name + "Controller {"
  {
    ImportLine(model, "Service } from './", ".service';");
    DeclLine(model, "Controller {");
    InjectingConstructorLine(model, "Service: ", "Service) {}");
  }

  lemma ControllerTaggedAt(model: Model, prefix: string)
    requires WellNamed(model) && HasId(model.fields) && IsLayerTag(prefix)
    ensures var lower := ToLower(model.name);
            Tagged(Lines(ControllerTemplate(model)), prefix)
            == if prefix == "import " then ["{ " + model.name + "Service } from './" + lower + ".service';"]
               else if prefix == "export class " then [model.name + "Controller {"]
               else if prefix == "  async " then SignatureLines(CrudSignatures(model))
               else DelegateCalls("this." + lower + "Service")
  {
    var lower := ToLower(model.name);
    var importLine := "import { " + model.name + "Service } from './" + lower + ".service';";
    var decl := "export class " + model.name + "Controller {";
    var ctor := "  constructor(private readonly " + lower + "Service: " + model.name + "Service) {}";
    var calls := DelegateCalls("this." + lower + "Service");
    NameOneLine(model);
    ControllerHead(model);
    ForwardingParts(model, "this." + lower + "Service");
    ReturnsTagged(calls);
    LayerFileTagged(importLine, model, decl, ctor, CrudSignatures(model), Returns(calls), prefix);
  }

  /** The controller file imports only the service, from its sibling file
      `./<lower>.service`; declares the one class `<Name>Controller`; declares
      the five CRUD signatures; and each method returns the service's method
      of the same name applied to its own arguments. */
  lemma ControllerDeclares(model: Model)
    requires WellNamed(model) && HasId(model.fields)
    ensures var ls := Lines(ControllerTemplate(model));
            var lower := ToLower(model.name);
            && Tagged(ls, "import ") == ["{ " + model.name + "Service } from './" + lower + ".service';"]
            && Tagged(ls, "export class ") == [model.name + "Controller {"]
            && Tagged(ls, "  async ") == SignatureLines(CrudSignatures(model))
            && Tagged(ls, "    return ") == DelegateCalls("this." + lower + "Service")
  {
    ControllerTaggedAt(model, "import ");
    ControllerTaggedAt(model, "export class ");
    ControllerTaggedAt(model, "  async ");
    ControllerTaggedAt(model, "    return ");
  }

  lemma ServiceHead(model: Model)
    requires WellNamed(model)
    ensures var lower := ToLower(model.name);
            && HeadLines("import { " + model.name + "Repository } from './" + lower + ".repository';",
                         "export class " + model.name + "Service {",
                         "  constructor(private readonly " + lower + "Repository: " + model.name + "Repository) {}")
            && ("import { " + model.name + "Repository } from './" + lower + ".repository';")[7..]
               == "{ " + model.name + "Repository } from './" + lower + ".repository';"
            && ("export class " + model.name + "Service {")[13..] == model.name + "Service {"
  {
    ImportLine(model, "Repository } from './", ".repository';");
    DeclLine(model, "Service {");
    InjectingConstructorLine(model, "Repository: ", "Repository) {}");
  }

  lemma ServiceTaggedAt(model: Model, prefix: string)
    requires WellNamed(model) && HasId(model.fields) && IsLayerTag(prefix)
    ensures var lower := ToLower(model.name);
            Tagged(Lines(ServiceTemplate(model)), prefix)
            == if prefix == "import " then ["{ " + model.name + "Repository } from './" + lower + ".repository';"]
               else if prefix == "export class " then [model.name + "Service {"]
               else if prefix == "  async " then SignatureLines(CrudSignatures(model))
               else DelegateCalls("this." + lower + "Repository")
  {
    var lower := ToLower(model.name);
    var importLine := "import { " + model.name + "Repository } from './" + lower + ".repository';";
    var decl := "export class " + model.name + "Service {";
    var ctor := "  constructor(private readonly " + lower + "Repository: " + model.name + "Repository) {}";
    var calls := DelegateCalls("this." + lower + "Repository");
    NameOneLine(model);
    ServiceHead(model);
    ForwardingParts(model, "this." + lower + "Repository");
    ReturnsTagged(calls);
    LayerFileTagged(importLine, model, decl, ctor, CrudSignatures(model), Returns(calls), prefix);
  }

  /** The service file imports only the repository, from its sibling file
      `./<lower>.repository`; declares the one class `<Name>Service`; declares
      the same five CRUD signatures as the controller; and each method
      returns the repository's method of the same name applied to its own
      arguments. */
  lemma ServiceDeclares(model: Model)
    requires WellNamed(model) && HasId(model.fields)
    ensures var ls := Lines(ServiceTemplate(model));
            var lower := ToLower(model.name);
            && Tagged(ls, "import ") == ["{ " + model.name + "Repository } from './" + lower + ".repository';"]
            && Tagged(ls, "export class ") == [model.name + "Service {"]
            && Tagged(ls, "  async ") == SignatureLines(CrudSignatures(model))
            && Tagged(ls, "    return ") == DelegateCalls("this." + lower + "Repository")
  {
    ServiceTaggedAt(model, "import ");
    ServiceTaggedAt(model, "export class ");
    ServiceTaggedAt(model, "  async ");
    ServiceTaggedAt(model, "    return ");
  }

  /** The argument lines of the repository's Prisma calls: indented body
      lines, none of them a `return`. */
  predicate IsArgumentLine(line: string)
  {
    IsBodyLine(line) && !StartsWith(line, "    return ")
  }

  lemma ArgumentLines()
    ensures IsArgumentLine("      where: { id },")
    ensures IsArgumentLine("      data,")
    ensures IsArgumentLine("    });")
  {
    assert "      where: { id },"[4] == ' ';
    assert "      data,"[4] == ' ';
    assert "    });"[4] == '}';
  }

  /** A body that returns `call` and then lists argument lines returns `call`. */
  lemma {:induction false} CallBodyTagged(call: string, args: seq<string>)
    requires '\n' !in call
    requires forall l :: l in args ==> IsArgumentLine(l)
    ensures forall l :: l in ["    return " + call] + args ==> IsBodyLine(l)
    ensures Tagged(["    return " + call] + args, "    return ") == [call]
  {
    ReturnTagged(call, "    return ");
    assert Tagged(args, "    return ") == [] by {
      ArgumentsUntagged(args);
    }
    TaggedAppend(["    return " + call], args, "    return ");
  }

  lemma {:induction false} ArgumentsUntagged(args: seq<string>)
    requires forall l :: l in args ==> IsArgumentLine(l)
    ensures Tagged(args, "    return ") == []
  {
    if |args| > 0 {
      assert args[0] in args;
      assert forall l :: l in args[1..] ==> l in args;
      ArgumentsUntagged(args[1..]);
    }
  }

  lemma PrismaCallsOneLine(model: Model)
    requires WellNamed(model)
    ensures |PrismaCalls(model)| == 5
    ensures forall i :: 0 <= i < 5 ==> '\n' !in PrismaCalls(model)[i]
  {
    NameOneLine(model);
  }

  /** The repository's method bodies are indented body lines. */
  lemma RepositoryBodiesAreBodies(model: Model)
    requires WellNamed(model)
    ensures AreBodies(RepositoryBodies(model))
  {
    var calls := PrismaCalls(model);
    var bodies := RepositoryBodies(model);
    PrismaCallsOneLine(model);
    ArgumentLines();
    var where := "      where: { id },";
    var data := "      data,";
    var close := "    });";
    CallBodyTagged(calls[0], []);
    CallBodyTagged(calls[1], [where, close]);
    CallBodyTagged(calls[2], [data, close]);
    CallBodyTagged(calls[3], [where, data, close]);
    CallBodyTagged(calls[4], [where, close]);
    assert bodies[0] == ["    return " + calls[0]] + [];
    forall b, l | b in bodies && l in b ensures IsBodyLine(l) {
      var i :| 0 <= i < 5 && bodies[i] == b;
    }
  }

  lemma BodiesTaggedFive(bodies: seq<seq<string>>, prefix: string)
    requires |bodies| == 5
    ensures BodiesTagged(bodies, prefix)
            == Tagged(bodies[0], prefix) + Tagged(bodies[1], prefix) + Tagged(bodies[2], prefix)
               + Tagged(bodies[3], prefix) + Tagged(bodies[4], prefix)
  {
    assert BodiesTagged(bodies[4..][1..], prefix) == [];
    assert BodiesTagged(bodies[4..], prefix) == Tagged(bodies[4], prefix);
    assert BodiesTagged(bodies[3..], prefix) == Tagged(bodies[3], prefix) + BodiesTagged(bodies[4..], prefix);
    assert BodiesTagged(bodies[2..], prefix) == Tagged(bodies[2], prefix) + BodiesTagged(bodies[3..], prefix);
    assert BodiesTagged(bodies[1..], prefix) == Tagged(bodies[1], prefix) + BodiesTagged(bodies[2..], prefix);
  }

  /** The `return` lines of the repository's bodies are exactly the five
      Prisma calls. */
  lemma RepositoryReturns(model: Model)
    requires WellNamed(model)
    ensures BodiesTagged(RepositoryBodies(model), "    return ") == PrismaCalls(model)
  {
    var calls := PrismaCalls(model);
    var bodies := RepositoryBodies(model);
    PrismaCallsOneLine(model);
    ArgumentLines();
    var where := "      where: { id },";
    var data := "      data,";
    var close := "    });";
    CallBodyTagged(calls[0], []);
    CallBodyTagged(calls[1], [where, close]);
    CallBodyTagged(calls[2], [data, close]);
    CallBodyTagged(calls[3], [where, data, close]);
    CallBodyTagged(calls[4], [where, close]);
    assert bodies[0] == ["    return " + calls[0]] + [];
    BodiesTaggedFive(bodies, "    return ");
    assert [calls[0]] + [calls[1]] + [calls[2]] + [calls[3]] + [calls[4]] == calls;
  }

  /** The repository's import and constructor lines. */
  lemma PrismaClientLines()
    ensures LeadLine("import { PrismaClient } from '@prisma/client';", "import ")
    ensures "import { PrismaClient } from '@prisma/client';"[7..] == "{ PrismaClient } from '@prisma/client';"
    ensures LeadLine("  constructor(private prisma: PrismaClient) {}", "  constructor")
  {
    PrismaImportLine();
    PrismaImportSlice();
    PrismaConstructorLine();
  }

  lemma PrismaImportLine()
    ensures LeadLine("import { PrismaClient } from '@prisma/client';", "import ")
  {
    PrismaImportHalves();
    PrismaImportHead();
    PrismaImportTail();
    HalvesLeadLine("import { PrismaClient } from '@prisma/client';",
                   "import { PrismaClient }", " from '@prisma/client';", "import ");
  }

  /** A line made of two one-line halves, the first starting with `tag`. */
  lemma HalvesLeadLine(line: string, head: string, tail: string, tag: string)
    requires line == head + tail && LeadLine(head, tag) && '\n' !in tail
    ensures LeadLine(line, tag)
  {
    StartsWithAppend(head, tail, tag);
  }

  lemma PrismaImportHalves()
    ensures "import { PrismaClient } from '@prisma/client';" == "import { PrismaClient }" + " from '@prisma/client';"
  {
  }

  lemma PrismaImportHead()
    ensures LeadLine("import { PrismaClient }", "import ")
    ensures "import { PrismaClient }" == "import " + "{ PrismaClient }"
  {
  }

  lemma PrismaImportTail()
    ensures '\n' !in " from '@prisma/client';"
    ensures "{ PrismaClient } from '@prisma/client';" == "{ PrismaClient }" + " from '@prisma/client';"
  {
  }

  lemma PrismaImportSlice()
    ensures "import { PrismaClient } from '@prisma/client';"[7..] == "{ PrismaClient } from '@prisma/client';"
  {
    PrismaImportHalves();
    PrismaImportHead();
    PrismaImportTail();
    HalvesSlice("import { PrismaClient } from '@prisma/client';", "import { PrismaClient }",
                " from '@prisma/client';", "import ", "{ PrismaClient }",
                "{ PrismaClient } from '@prisma/client';");
  }

  /** Dropping the first part of the first half of a line. */
  lemma HalvesSlice(line: string, head: string, tail: string, lead: string, rest: string, result: string)
    requires line == head + tail && head == lead + rest && result == rest + tail
    ensures line[|lead|..] == result
  {
    DropAppend(head, tail, |lead|);
    DropAppend(lead, rest, |lead|);
  }

  lemma PrismaConstructorLine()
    ensures LeadLine("  constructor(private prisma: PrismaClient) {}", "  constructor")
  {
    PrismaConstructorHalves();
    PrismaConstructorHead();
    PrismaConstructorTail();
    HalvesLeadLine("  constructor(private prisma: PrismaClient) {}",
                   "  constructor(private ", "prisma: PrismaClient) {}", "  constructor");
  }

  lemma PrismaConstructorHalves()
    ensures "  constructor(private prisma: PrismaClient) {}" == "  constructor(private " + "prisma: PrismaClient) {}"
  {
  }

  lemma PrismaConstructorHead()
    ensures LeadLine("  constructor(private ", "  constructor")
  {
  }

  lemma PrismaConstructorTail()
    ensures '\n' !in "prisma: PrismaClient) {}"
  {
  }

  lemma RepositoryHead(model: Model)
    requires WellNamed(model)
    ensures && HeadLines("import { PrismaClient } from '@prisma/client';",
                         "export class " + model.name + "Repository {",
                         "  constructor(private prisma: PrismaClient) {}")
            && ("export class " + model.name + "Repository {")[13..] == model.name + "Repository {"
  {
    DeclLine(model, "Repository {");
    PrismaClientLines();
  }

  lemma RepositoryTaggedAt(model: Model, prefix: string)
    requires WellNamed(model) && HasId(model.fields) && IsLayerTag(prefix)
    ensures Tagged(Lines(RepositoryTemplate(model)), prefix)
            == if prefix == "import " then ["{ PrismaClient } from '@prisma/client';"]
               else if prefix == "export class " then [model.name + "Repository {"]
               else if prefix == "  async " then SignatureLines(CrudSignatures(model))
               else PrismaCalls(model)
  {
    var importLine := "import { PrismaClient } from '@prisma/client';";
    var decl := "export class " + model.name + "Repository {";
    var ctor := "  constructor(private prisma: PrismaClient) {}";
    RepositoryHead(model);
    PrismaClientLines();
    SignaturesOneLine(model);
    RepositoryBodiesAreBodies(model);
    RepositoryReturns(model);
    LayerFileTagged(importLine, model, decl, ctor, CrudSignatures(model), RepositoryBodies(model), prefix);
  }

  /** The repository file imports only the Prisma client; declares the one
      class `<Name>Repository`; declares the same five CRUD signatures as the
      other layers; and its methods return, in order, `findMany`,
      `findUnique`, `create`, `update` and `delete` on the client's delegate
      `this.prisma.<lower>`. */
  lemma RepositoryDeclares(model: Model)
    requires WellNamed(model) && HasId(model.fields)
    ensures var ls := Lines(RepositoryTemplate(model));
            && Tagged(ls, "import ") == ["{ PrismaClient } from '@prisma/client';"]
            && Tagged(ls, "export class ") == [model.name + "Repository {"]
            && Tagged(ls, "  async ") == SignatureLines(CrudSignatures(model))
            && Tagged(ls, "    return ") == PrismaCalls(model)
  {
    RepositoryTaggedAt(model, "import ");
    RepositoryTaggedAt(model, "export class ");
    RepositoryTaggedAt(model, "  async ");
    RepositoryTaggedAt(model, "    return ");
  }
}
