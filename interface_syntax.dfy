/** Reading the generated `interface` declarations back. The parser here is
    the inverse of the rendering in TemplateHelper: the round-trip lemmas
    say that the text of `CreateXInput` and `UpdateXInput` lists exactly the
    input fields, in schema order, with the optional markers of each rule. */
module InterfaceSyntax {
  import opened Text
  import opened TemplateHelper

  /** One member of a TypeScript interface: `name?: tsType` or `name: tsType`. */
  datatype Member = Member(name: string, optional: bool, tsType: string)

  /** An interface declaration: its name and its members in order. */
  datatype InterfaceDecl = InterfaceDecl(name: string, members: seq<Member>)

  /** The schema names are identifiers, as Prisma requires of model and
      field names. */
  predicate WellNamed(model: Model)
  {
    IsIdentifier(model.name) && forall f :: f in model.fields ==> IsIdentifier(f.name)
  }

  /** Reads one line `  name?: type;` or `  name: type;`. */
  function ParseMember(line: string): Option<Member>
  {
    if 3 <= |line| && StartsWith(line, "  ") && EndsWith(line, ";") then
      var inner := line[2..|line| - 1];
      var k := IndexOf(inner, ':');
      if k + 1 < |inner| && inner[k + 1] == ' ' then
        var head := inner[..k];
        var optional := 0 < |head| && head[|head| - 1] == '?';
        Some(Member(if optional then head[..|head| - 1] else head, optional, inner[k + 2..]))
      else None
    else None
  }

  /** Reads every line as a member, or fails. */
  function ParseMembers(lines: seq<string>): Option<seq<Member>>
  {
    if |lines| == 0 then Some([])
    else match (ParseMember(lines[0]), ParseMembers(lines[1..]))
      case (Some(m), Some(ms)) => Some([m] + ms)
      case _ => None
  }

  /** Reads `interface Name {\n<member lines>\n}`; an interface without
      members has one empty line as its body. */
  function ParseInterface(text: string): Option<InterfaceDecl>
  {
    var ls := Lines(text);
    if 3 <= |ls| && 12 <= |ls[0]| && StartsWith(ls[0], "interface ") && EndsWith(ls[0], " {")
       && ls[|ls| - 1] == "}"
    then
      var name := ls[0][10..|ls[0]| - 2];
      var body := ls[1..|ls| - 1];
      if body == [""] then Some(InterfaceDecl(name, []))
      else match ParseMembers(body)
        case Some(ms) => Some(InterfaceDecl(name, ms))
        case None => None
    else None
  }

  /** The member lines of a list of members. */
  function MemberLines(ms: seq<Member>): (r: seq<string>)
    ensures |r| == |ms|
  {
    if |ms| == 0 then [] else [MemberLine(ms[0].name, ms[0].optional, ms[0].tsType)] + MemberLines(ms[1..])
  }

  /** The members the create interface is meant to declare. */
  function CreateMembers(fields: seq<Field>): (r: seq<Member>)
    ensures |r| == |fields|
    ensures forall i :: 0 <= i < |fields| ==>
      r[i] == Member(fields[i].name, IsOptionalOnCreate(fields[i]), TypeForField(fields[i]))
  {
    if |fields| == 0 then []
    else [Member(fields[0].name, IsOptionalOnCreate(fields[0]), TypeForField(fields[0]))] + CreateMembers(fields[1..])
  }

  /** The members the update interface is meant to declare: all optional. */
  function UpdateMembers(fields: seq<Field>): (r: seq<Member>)
    ensures |r| == |fields|
    ensures forall i :: 0 <= i < |fields| ==> r[i] == Member(fields[i].name, true, TypeForField(fields[i]))
  {
    if |fields| == 0 then [] else [Member(fields[0].name, true, TypeForField(fields[0]))] + UpdateMembers(fields[1..])
  }

  // ---------------------------------------------------------------------
  // Round trips

  /** A line `  head: tsType;` whose head has no colon reads as the head
      (less a trailing "?", which marks it optional) and the type. */
  lemma ParseMemberHead(head: string, tsType: string)
    requires ':' !in head
    ensures var optional := 0 < |head| && head[|head| - 1] == '?';
            ParseMember("  " + head + ": " + tsType + ";")
            == Some(Member(if optional then head[..|head| - 1] else head, optional, tsType))
  {
    MemberLineInner(head, tsType);
    InnerParts(head, tsType);
  }

  /** Between the indent and the semicolon: the head, a colon, a space, the type. */
  lemma MemberLineInner(head: string, tsType: string)
    ensures var line := "  " + head + ": " + tsType + ";";
            && 3 <= |line| && StartsWith(line, "  ") && EndsWith(line, ";")
            && line[2..|line| - 1] == head + [':'] + (" " + tsType)
  {
    var line := "  " + head + ": " + tsType + ";";
    assert line == "  " + (head + [':'] + (" " + tsType)) + ";";
  }

  /** The first colon of the inner part ends the head. */
  lemma InnerParts(head: string, tsType: string)
    requires ':' !in head
    ensures var inner := head + [':'] + (" " + tsType);
            && IndexOf(inner, ':') == |head| && |head| + 1 < |inner| && inner[|head| + 1] == ' '
            && inner[..|head|] == head && inner[|head| + 2..] == tsType
  {
    IndexOfAfter(head, ':', " " + tsType);
  }

  /** A member line reads back as the member it was printed from. */
  lemma ParseMemberLine(name: string, optional: bool, tsType: string)
    requires ':' !in name && '?' !in name
    ensures ParseMember(MemberLine(name, optional, tsType)) == Some(Member(name, optional, tsType))
  {
    var head := name + (if optional then "?" else "");
    assert MemberLine(name, optional, tsType) == "  " + head + ": " + tsType + ";";
    ParseMemberHead(head, tsType);
    if optional {
      assert head[..|head| - 1] == name;
    } else {
      assert head == name;
      assert 0 < |name| ==> name[|name| - 1] in name;
    }
  }

  /** Every member line reads back, in order. */
  lemma {:induction false} ParseMemberLines(ms: seq<Member>)
    requires forall m :: m in ms ==> ':' !in m.name && '?' !in m.name
    ensures ParseMembers(MemberLines(ms)) == Some(ms)
  {
    if |ms| > 0 {
      var ls := MemberLines(ms);
      ParseMemberLine(ms[0].name, ms[0].optional, ms[0].tsType);
      assert ls[1..] == MemberLines(ms[1..]);
      ParseMemberLines(ms[1..]);
      assert ParseMember(ls[0]) == Some(ms[0]);
      assert [ms[0]] + ms[1..] == ms;
    }
  }

  /** No member line spans two lines when its name and type do not. */
  lemma MemberLinesOneLine(ms: seq<Member>)
    requires forall m :: m in ms ==> '\n' !in m.name && '\n' !in m.tsType
    ensures forall l :: l in MemberLines(ms) ==> '\n' !in l
  {
    if |ms| > 0 {
      MemberLinesOneLine(ms[1..]);
    }
  }

  /** The lines of an interface text: its header, its body's lines, "}". */
  lemma InterfaceTextLines(header: string, body: string)
    requires '\n' !in header
    ensures Lines(header + "\n" + body + "\n}") == [header] + Lines(body) + ["}"]
  {
    var closed := body + "\n" + "}";
    ClosingBrace(header, body);
    LinesAppend(header, closed);
    LinesAppend(body, "}");
    LinesOfLine(header);
    LinesOfLine("}");
    var bodyLines := Lines(body);
    assert [header] + (bodyLines + ["}"]) == [header] + bodyLines + ["}"];
  }

  lemma ClosingBrace(header: string, body: string)
    ensures header + "\n" + body + "\n}" == header + "\n" + (body + "\n" + "}")
  {
    assert "\n}" == "\n" + "}";
  }

  /** A member line is never empty. */
  lemma MemberLinesNonEmpty(ms: seq<Member>)
    requires |ms| > 0
    ensures MemberLines(ms) != [""]
  {
    var m := ms[0];
    assert MemberLines(ms)[0] == MemberLine(m.name, m.optional, m.tsType);
    assert |MemberLine(m.name, m.optional, m.tsType)| >= 5;
  }

  /** The body of an interface splits into its member lines, or into one
      empty line when there are none. */
  lemma MemberBodyLines(ms: seq<Member>)
    requires forall m :: m in ms ==> IsIdentifier(m.name) && '\n' !in m.tsType
    ensures Lines(Join(MemberLines(ms), "\n")) == if |ms| == 0 then [""] else MemberLines(ms)
    ensures |ms| > 0 ==> MemberLines(ms) != [""]
  {
    if |ms| > 0 {
      forall m | m in ms ensures '\n' !in m.name {
        IdentifierHasNoPunctuation(m.name);
      }
      MemberLinesOneLine(ms);
      LinesJoinRoundTrip(MemberLines(ms));
      MemberLinesNonEmpty(ms);
    }
  }

  /** The header line `interface <name> {` reads back as the name. */
  lemma InterfaceHeader(name: string)
    requires IsIdentifier(name)
    ensures var header := "interface " + name + " {";
            && '\n' !in header && 12 <= |header|
            && StartsWith(header, "interface ") && EndsWith(header, " {")
            && header[10..|header| - 2] == name
  {
    IdentifierHasNoPunctuation(name);
  }

  /** A text whose lines are a header, a body and "}" reads back from them. */
  lemma ParseInterfaceLines(text: string, name: string, bodyLines: seq<string>, ms: seq<Member>)
    requires IsIdentifier(name)
    requires Lines(text) == ["interface " + name + " {"] + bodyLines + ["}"] && |bodyLines| >= 1
    requires if bodyLines == [""] then ms == [] else ParseMembers(bodyLines) == Some(ms)
    ensures ParseInterface(text) == Some(InterfaceDecl(name, ms))
  {
    var header := "interface " + name + " {";
    var ls := Lines(text);
    InterfaceHeader(name);
    assert ls[0] == header && ls[|ls| - 1] == "}";
    assert ls[1..|ls| - 1] == bodyLines;
    assert 3 <= |ls| && 12 <= |ls[0]| && StartsWith(ls[0], "interface ") && EndsWith(ls[0], " {");
    assert ls[0][10..|ls[0]| - 2] == name;
  }

  /** An interface declaration reads back as its name and members. */
  lemma InterfaceRoundTrip(name: string, ms: seq<Member>)
    requires IsIdentifier(name)
    requires forall m :: m in ms ==> IsIdentifier(m.name) && '\n' !in m.tsType
    ensures ParseInterface("interface " + name + " {\n" + Join(MemberLines(ms), "\n") + "\n}")
            == Some(InterfaceDecl(name, ms))
  {
    var header := "interface " + name + " {";
    var body := Join(MemberLines(ms), "\n");
    var text := "interface " + name + " {\n" + body + "\n}";
    InterfaceHeader(name);
    assert text == header + "\n" + body + "\n}";
    InterfaceTextLines(header, body);
    MemberBodyLines(ms);
    if |ms| > 0 {
      forall m | m in ms ensures ':' !in m.name && '?' !in m.name {
        IdentifierHasNoPunctuation(m.name);
      }
      ParseMemberLines(ms);
    }
    ParseInterfaceLines(text, name, Lines(body), ms);
  }

  lemma IdentifierHasNoPunctuation(s: string)
    requires IsIdentifier(s)
    ensures ':' !in s && '?' !in s && '\n' !in s && ' ' !in s
  {
    forall i | 0 <= i < |s| ensures s[i] != ':' && s[i] != '?' && s[i] != '\n' && s[i] != ' ' {
      assert IsWordChar(s[i]);
    }
  }
}
