/** The template engine of src/helpers/templateHelper.ts: a Prisma model
    description is turned into the text of a controller, a service, a
    repository and an index file. Every generator is a function of the model
    alone. */
module TemplateHelper {
  import opened Text

  /** The part of a Prisma DMMF field that the templates read. `typeName` is
      the field's DMMF `type`, the scalar type name as Prisma spells it
      ("Int", "String", ...). */
  datatype Field = Field(
    name: string,
    typeName: string,
    isId: bool,
    isRequired: bool,
    hasDefaultValue: bool,
    isUpdatedAt: bool)

  /** The part of a Prisma DMMF model that the templates read. */
  datatype Model = Model(name: string, fields: seq<Field>)

  datatype Option<T> = None | Some(value: T)

  /** The scalar type names the engine recognises and the TypeScript type each
      becomes; every other kind becomes "any". */
  const ScalarTypes: map<string, string> :=
    map["Int" := "number", "String" := "string", "Boolean" := "boolean",
        "DateTime" := "Date", "Float" := "number"]

  /** `getTypeForField`: the TypeScript type of a field's scalar type name.
      Total: an unknown name falls through to "any". */
  function TypeForField(field: Field): (r: string)
    ensures field.typeName in ScalarTypes ==> r == ScalarTypes[field.typeName]
    ensures field.typeName !in ScalarTypes ==> r == "any"
  {
    if field.typeName == "Int" then "number"
    else if field.typeName == "String" then "string"
    else if field.typeName == "Boolean" then "boolean"
    else if field.typeName == "DateTime" then "Date"
    else if field.typeName == "Float" then "number"
    else "any"
  }

  /** The filter both input interfaces apply: neither the id nor an
      `@updatedAt` field is supplied by the caller. */
  predicate IsInputField(field: Field)
  {
    !field.isId && !field.isUpdatedAt
  }

  /** `model.fields.filter((field) => !field.isId && !field.isUpdatedAt)`. */
  function InputFields(fields: seq<Field>): seq<Field>
  {
    if |fields| == 0 then []
    else if IsInputField(fields[0]) then [fields[0]] + InputFields(fields[1..])
    else InputFields(fields[1..])
  }

  /** The creation rule: a field may be left out when it is optional in the
      schema or the database fills in a default. */
  predicate IsOptionalOnCreate(field: Field)
  {
    !field.isRequired || field.hasDefaultValue
  }

  /** One member line of an interface: `  name?: type;` or `  name: type;`. */
  function MemberLine(name: string, optional: bool, tsType: string): string
  {
    "  " + name + (if optional then "?" else "") + ": " + tsType + ";"
  }

  /** One member line of the create interface. */
  function CreateFieldLine(field: Field): string
  {
    MemberLine(field.name, IsOptionalOnCreate(field), TypeForField(field))
  }

  /** One member line of the update interface: always optional. */
  function UpdateFieldLine(field: Field): string
  {
    "  " + field.name + "?: " + TypeForField(field) + ";"
  }

  function CreateFieldLines(fields: seq<Field>): seq<string>
  {
    if |fields| == 0 then [] else [CreateFieldLine(fields[0])] + CreateFieldLines(fields[1..])
  }

  function UpdateFieldLines(fields: seq<Field>): seq<string>
  {
    if |fields| == 0 then [] else [UpdateFieldLine(fields[0])] + UpdateFieldLines(fields[1..])
  }

  function CreateInputName(model: Model): string
  {
    "Create" + model.name + "Input"
  }

  function UpdateInputName(model: Model): string
  {
    "Update" + model.name + "Input"
  }

  /** `generateCreateInputType`. */
  function CreateInputType(model: Model): string
  {
    "interface " + CreateInputName(model) + " {\n"
    + Join(CreateFieldLines(InputFields(model.fields)), "\n") + "\n}"
  }

  /** `generateUpdateInputType`. */
  function UpdateInputType(model: Model): string
  {
    "interface " + UpdateInputName(model) + " {\n"
    + Join(UpdateFieldLines(InputFields(model.fields)), "\n") + "\n}"
  }

  predicate HasId(fields: seq<Field>)
  {
    exists i :: 0 <= i < |fields| && fields[i].isId
  }

  /** Position `i` holds the first identifier field. */
  predicate IsFirstId(fields: seq<Field>, i: int)
  {
    0 <= i < |fields| && fields[i].isId && forall j :: 0 <= j < i ==> !fields[j].isId
  }

  /** `fields.find((f) => f.isId)`: the first identifier field, if any. */
  function FindId(fields: seq<Field>): (r: Option<Field>)
    ensures r.None? <==> !HasId(fields)
    ensures r.Some? ==> exists i :: IsFirstId(fields, i) && fields[i] == r.value
  {
    if |fields| == 0 then None
    else if fields[0].isId then
      assert IsFirstId(fields, 0);
      Some(fields[0])
    else
      var r := FindId(fields[1..]);
      if r.None? then
        assert !HasId(fields) by {
          forall i | 0 <= i < |fields| ensures !fields[i].isId {
            if i > 0 { assert fields[1..][i - 1] == fields[i]; }
          }
        }
        r
      else
        var k :| IsFirstId(fields[1..], k) && fields[1..][k] == r.value;
        assert IsFirstId(fields, k + 1);
        r
  }

  /** `getTypeForField(model.fields.find((f) => f.isId)!)`. The source asserts
      with `!` that an identifier field exists. */
  function IdType(model: Model): string
    requires HasId(model.fields)
  {
    TypeForField(FindId(model.fields).value)
  }

  /** The five CRUD method heads every layer class declares, in order:
      `findAll()`, `findById(id: T)`, `create(data: CreateXInput)`,
      `update(id: T, data: UpdateXInput)` and `delete(id: T)`, where `T` is
      the identifier type. */
  function CrudSignatures(model: Model): seq<string>
    requires HasId(model.fields)
  {
    var idType := IdType(model);
    [ "findAll()",
      "findById(id: " + idType + ")",
      "create(data: " + CreateInputName(model) + ")",
      "update(id: " + idType + ", data: " + UpdateInputName(model) + ")",
      "delete(id: " + idType + ")" ]
  }

  /** The calls of the five CRUD methods on `target`, each passing on the
      method's own arguments. */
  function DelegateCalls(target: string): seq<string>
  {
    [ target + ".findAll();",
      target + ".findById(id);",
      target + ".create(data);",
      target + ".update(id, data);",
      target + ".delete(id);" ]
  }

  /** Each call as a one-line method body `    return <call>`. */
  function Returns(calls: seq<string>): (r: seq<seq<string>>)
    ensures |r| == |calls|
  {
    if |calls| == 0 then [] else [["    return " + calls[0]]] + Returns(calls[1..])
  }

  /** One method of a generated class as the templates lay it out: a blank
      line, `  async <signature> {`, the body lines, and `  }`. */
  function Method(signature: string, body: seq<string>): seq<string>
  {
    ["", "  async " + signature + " {"] + body + ["  }"]
  }

  /** The methods with the given signatures and bodies, one after the other. */
  function Methods(signatures: seq<string>, bodies: seq<seq<string>>): seq<string>
    requires |signatures| == |bodies|
  {
    if |signatures| == 0 then []
    else Method(signatures[0], bodies[0]) + Methods(signatures[1..], bodies[1..])
  }

  /** A layer file: the import line, a blank line, both input interfaces each
      followed by a blank line, then the class. The lines of the template
      literal are joined by newlines; each interface declaration is one
      element that spans several lines. */
  function LayerFile(importLine: string, model: Model, classLines: seq<string>): string
  {
    Join([importLine, "", CreateInputType(model), "", UpdateInputType(model), ""] + classLines, "\n")
  }

  /** `generateControllerTemplate`. */
  function ControllerTemplate(model: Model): string
    requires HasId(model.fields)
  {
    var lower := ToLower(model.name);
    LayerFile("import { " + model.name + "Service } from './" + lower + ".service';", model, ControllerClass(model))
  }

  /** The class part of `ControllerTemplate`: each method forwards to the
      injected service. */
  function ControllerClass(model: Model): seq<string>
    requires HasId(model.fields)
  {
    var name := model.name;
    var lower := ToLower(model.name);
    [ "export class " + name + "Controller {",
      "  constructor(private readonly " + lower + "Service: " + name + "Service) {}" ]
    + Methods(CrudSignatures(model), Returns(DelegateCalls("this." + lower + "Service")))
    + ["}"]
  }

  /** `generateServiceTemplate`. */
  function ServiceTemplate(model: Model): string
    requires HasId(model.fields)
  {
    var lower := ToLower(model.name);
    LayerFile("import { " + model.name + "Repository } from './" + lower + ".repository';", model, ServiceClass(model))
  }

  /** The class part of `ServiceTemplate`: each method forwards to the
      injected repository. */
  function ServiceClass(model: Model): seq<string>
    requires HasId(model.fields)
  {
    var name := model.name;
    var lower := ToLower(model.name);
    [ "export class " + name + "Service {",
      "  constructor(private readonly " + lower + "Repository: " + name + "Repository) {}" ]
    + Methods(CrudSignatures(model), Returns(DelegateCalls("this." + lower + "Repository")))
    + ["}"]
  }

  /** `generateRepositoryTemplate`. */
  function RepositoryTemplate(model: Model): string
    requires HasId(model.fields)
  {
    LayerFile("import { PrismaClient } from '@prisma/client';", model, RepositoryClass(model))
  }

  /** The Prisma client calls of the repository's five methods, on the
      model's delegate `this.prisma.<lowercased name>`. */
  function PrismaCalls(model: Model): seq<string>
  {
    var delegate := "this.prisma." + ToLower(model.name);
    [ delegate + ".findMany();",
      delegate + ".findUnique({",
      delegate + ".create({",
      delegate + ".update({",
      delegate + ".delete({" ]
  }

  /** The repository's method bodies: each returns its Prisma call, with the
      `where` filter on the identifier and the `data` argument the method
      passes on. */
  function RepositoryBodies(model: Model): seq<seq<string>>
  {
    var calls := PrismaCalls(model);
    [ ["    return " + calls[0]],
      ["    return " + calls[1], "      where: { id },", "    });"],
      ["    return " + calls[2], "      data,", "    });"],
      ["    return " + calls[3], "      where: { id },", "      data,", "    });"],
      ["    return " + calls[4], "      where: { id },", "    });"] ]
  }

  /** The class part of `RepositoryTemplate`. */
  function RepositoryClass(model: Model): seq<string>
    requires HasId(model.fields)
  {
    [ "export class " + model.name + "Repository {",
      "  constructor(private prisma: PrismaClient) {}" ]
    + Methods(CrudSignatures(model), RepositoryBodies(model))
    + ["}"]
  }

  /** One re-export line of the index file. */
  function ExportLine(modulePath: string): string
  {
    "export * from '" + modulePath + "';"
  }

  /** `generateIndexTemplate`: re-exports of the three sibling files and a
      final newline. */
  function IndexTemplate(model: Model): string
  {
    var lower := ToLower(model.name);
    Join([
      ExportLine("./" + lower + ".controller"),
      ExportLine("./" + lower + ".service"),
      ExportLine("./" + lower + ".repository"),
      ""
    ], "\n")
  }
}
