/** How the four per-model files fit together: each layer file embeds the
    two input interfaces verbatim, the three layers agree on the CRUD
    signatures, and the index file re-exports exactly the three layer
    files. */
module LayerConsistency {
  import opened Text
  import opened TemplateHelper
  import opened InterfaceSyntax
  import opened LayerProperties

  // ---------------------------------------------------------------------
  // Embedded interfaces

  lemma JoinCons(x: string, rest: seq<string>, sep: string)
    requires |rest| >= 1
    ensures Join([x] + rest, sep) == x + sep + Join(rest, sep)
  {
    assert ([x] + rest)[1..] == rest;
  }

  /** An element followed by a blank line joins to the element, an empty
      line and the rest. */
  lemma JoinBlank(x: string, rest: seq<string>)
    requires |rest| >= 1
    ensures Join([x, ""] + rest, "\n") == x + "\n\n" + Join(rest, "\n")
  {
    var j := Join(rest, "\n");
    JoinCons("", rest, "\n");
    JoinCons(x, [""] + rest, "\n");
    assert [x] + ([""] + rest) == [x, ""] + rest;
    DoubleSeparator(x, "\n", j);
    assert "\n" + "\n" == "\n\n";
  }

  lemma DoubleSeparator(x: string, sep: string, j: string)
    ensures x + sep + ("" + sep + j) == x + (sep + sep) + j
  {
  }

  lemma Regroup(a: string, sep: string, c: string, u: string, j: string)
    ensures a + sep + (c + sep + (u + sep + j)) == a + sep + (c + sep + u) + (sep + j)
  {
  }

  /** The text of a layer file around its two interfaces: a blank line
      separates the import line, each interface and the class. */
  lemma LayerFileText(importLine: string, create: string, update: string, cls: seq<string>)
    requires |cls| >= 1
    ensures Join([importLine, "", create, "", update, ""] + cls, "\n")
            == importLine + "\n\n" + (create + "\n\n" + update) + ("\n\n" + Join(cls, "\n"))
  {
    var j := Join(cls, "\n");
    var tail := [update, ""] + cls;
    var middle := [create, ""] + tail;
    BlankPairs(importLine, create, update, cls);
    JoinBlank(update, cls);
    JoinBlank(create, tail);
    JoinBlank(importLine, middle);
    Regroup(importLine, "\n\n", create, update, j);
  }

  lemma BlankPairs(a: string, c: string, u: string, rest: seq<string>)
    ensures [a, "", c, "", u, ""] + rest == [a, ""] + ([c, ""] + ([u, ""] + rest))
  {
  }

  /** A layer file holds the create interface, a blank line and the update
      interface, as one unbroken piece of its text. */
  lemma LayerFileEmbedsInterfaces(importLine: string, model: Model, cls: seq<string>)
    requires |cls| >= 1
    ensures Contains(LayerFile(importLine, model, cls),
                     CreateInputType(model) + "\n\n" + UpdateInputType(model))
  {
    LayerFileText(importLine, CreateInputType(model), UpdateInputType(model), cls);
    ContainsMiddle(importLine + "\n\n", CreateInputType(model) + "\n\n" + UpdateInputType(model),
                   "\n\n" + Join(cls, "\n"));
  }

  /** The controller, service and repository files each contain the text
      of `CreateXInput` followed, after a blank line, by that of
      `UpdateXInput`, unchanged. */
  lemma TemplatesEmbedInterfaces(model: Model)
    requires HasId(model.fields)
    ensures var both := CreateInputType(model) + "\n\n" + UpdateInputType(model);
            && Contains(ControllerTemplate(model), both)
            && Contains(ServiceTemplate(model), both)
            && Contains(RepositoryTemplate(model), both)
  {
    var lower := ToLower(model.name);
    LayerFileEmbedsInterfaces("import { " + model.name + "Service } from './" + lower + ".service';",
                              model, ControllerClass(model));
    LayerFileEmbedsInterfaces("import { " + model.name + "Repository } from './" + lower + ".repository';",
                              model, ServiceClass(model));
    LayerFileEmbedsInterfaces("import { PrismaClient } from '@prisma/client';", model, RepositoryClass(model));
  }

  // ---------------------------------------------------------------------
  // Shared signatures

  /** The three layers declare the same five method signatures, in the same
      order, so a controller method calls the service method of its own
      signature and a service method the repository method of its own. */
  lemma LayersShareSignatures(model: Model)
    requires WellNamed(model) && HasId(model.fields)
    ensures var c := Tagged(Lines(ControllerTemplate(model)), "  async ");
            var s := Tagged(Lines(ServiceTemplate(model)), "  async ");
            var r := Tagged(Lines(RepositoryTemplate(model)), "  async ");
            c == s == r
  {
    ControllerTaggedAt(model, "  async ");
    ServiceTaggedAt(model, "  async ");
    RepositoryTaggedAt(model, "  async ");
  }

  // ---------------------------------------------------------------------
  // Index file

  /** Reads `export * from '<path>';` as the module path. */
  function ExportPath(line: string): Option<string>
  {
    if 17 <= |line| && StartsWith(line, "export * from '") && EndsWith(line, "';")
    then Some(line[15..|line| - 2])
    else None
  }

  /** Reads every line as a re-export, or fails. */
  function ExportPaths(lines: seq<string>): Option<seq<string>>
  {
    if |lines| == 0 then Some([])
    else
      var p, ps := ExportPath(lines[0]), ExportPaths(lines[1..]);
      if p.Some? && ps.Some? then Some([p.value] + ps.value) else None
  }

  /** The module paths an index file re-exports: every line but the last is
      a re-export, and the text ends with a newline. */
  function IndexModules(text: string): Option<seq<string>>
  {
    var ls := Lines(text);
    if ls[|ls| - 1] == "" then ExportPaths(ls[..|ls| - 1]) else None
  }

  /** A re-export line reads back as its module path. */
  lemma ExportLineRoundTrip(modulePath: string)
    ensures ExportPath(ExportLine(modulePath)) == Some(modulePath)
  {
    var line := ExportLine(modulePath);
    assert line[..15] == "export * from '";
    assert line[|line| - 2..] == "';";
    assert line[15..|line| - 2] == modulePath;
  }

  lemma ExportLineOneLine(modulePath: string)
    requires '\n' !in modulePath
    ensures '\n' !in ExportLine(modulePath)
  {
  }

  /** The sibling module path `./<lower><suffix>` is one line. */
  lemma SiblingOneLine(model: Model, suffix: string)
    requires WellNamed(model) && '\n' !in suffix
    ensures '\n' !in "./" + ToLower(model.name) + suffix
  {
    NameOneLine(model);
  }

  /** The lines of the index file: three re-exports and an empty line
      after the final newline. */
  lemma IndexLines(a: string, b: string, c: string)
    requires '\n' !in a && '\n' !in b && '\n' !in c
    ensures var ls := Lines(Join([ExportLine(a), ExportLine(b), ExportLine(c), ""], "\n"));
            && |ls| == 4 && ls[3] == ""
            && ls[..3] == [ExportLine(a), ExportLine(b), ExportLine(c)]
  {
    var lines := [ExportLine(a), ExportLine(b), ExportLine(c), ""];
    ExportLineOneLine(a);
    ExportLineOneLine(b);
    ExportLineOneLine(c);
    LinesJoinRoundTrip(lines);
  }

  /** The re-export lines of a list of module paths. */
  function Exports(paths: seq<string>): (r: seq<string>)
    ensures |r| == |paths|
  {
    if |paths| == 0 then [] else [ExportLine(paths[0])] + Exports(paths[1..])
  }

  /** Re-export lines read back as their module paths, in order. */
  lemma {:induction false} ExportsRoundTrip(paths: seq<string>)
    ensures ExportPaths(Exports(paths)) == Some(paths)
  {
    if |paths| > 0 {
      ExportsRoundTrip(paths[1..]);
      ExportLineRoundTrip(paths[0]);
      assert Exports(paths)[1..] == Exports(paths[1..]);
      assert [paths[0]] + paths[1..] == paths;
    }
  }

  lemma ExportsThree(a: string, b: string, c: string)
    ensures Exports([a, b, c]) == [ExportLine(a), ExportLine(b), ExportLine(c)]
  {
    assert [c][1..] == [];
    assert Exports([c]) == [ExportLine(c)];
    assert [b, c][1..] == [c];
    assert Exports([b, c]) == [ExportLine(b)] + [ExportLine(c)];
    assert [a, b, c][1..] == [b, c];
    assert Exports([a, b, c]) == [ExportLine(a)] + ([ExportLine(b)] + [ExportLine(c)]);
  }

  /** The index file re-exports exactly `./<lower>.controller`,
      `./<lower>.service` and `./<lower>.repository`, in that order, and
      ends with a newline. */
  lemma IndexExports(model: Model)
    requires WellNamed(model)
    ensures var lower := ToLower(model.name);
            IndexModules(IndexTemplate(model))
            == Some(["./" + lower + ".controller", "./" + lower + ".service", "./" + lower + ".repository"])
    ensures EndsWith(IndexTemplate(model), "\n")
  {
    var lower := ToLower(model.name);
    var c, s, r := "./" + lower + ".controller", "./" + lower + ".service", "./" + lower + ".repository";
    SiblingOneLine(model, ".controller");
    SiblingOneLine(model, ".service");
    SiblingOneLine(model, ".repository");
    IndexLines(c, s, r);
    ExportsThree(c, s, r);
    ExportsRoundTrip([c, s, r]);
    IndexEndsWithNewline(ExportLine(c), ExportLine(s), ExportLine(r));
  }

  lemma EndsWithPrepend(p: string, q: string, suffix: string)
    requires EndsWith(q, suffix)
    ensures EndsWith(p + q, suffix)
  {
    assert (p + q)[|p + q| - |suffix|..] == q[|q| - |suffix|..];
  }

  /** A join whose last part is empty ends with the separator. */
  lemma IndexEndsWithNewline(a: string, b: string, c: string)
    ensures EndsWith(Join([a, b, c, ""], "\n"), "\n")
  {
    JoinCons(c, [""], "\n");
    JoinCons(b, [c, ""], "\n");
    JoinCons(a, [b, c, ""], "\n");
    assert [c] + [""] == [c, ""];
    assert [b] + [c, ""] == [b, c, ""];
    assert [a] + [b, c, ""] == [a, b, c, ""];
    var last := c + "\n" + "";
    assert last == c + "\n";
    EndsWithPrepend(c, "\n", "\n");
    EndsWithPrepend(b + "\n", last, "\n");
    EndsWithPrepend(a + "\n", b + "\n" + last, "\n");
  }
}
