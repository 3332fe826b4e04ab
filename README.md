# Prisma CSR generator: template engine

A Dafny model of the template engine of the Prisma generator
`prisma-csr-generator` (`src/helpers/templateHelper.ts`). From one Prisma
model description (a name and an ordered list of fields carrying their
scalar type name and the `isId`, `isRequired`, `hasDefaultValue` and
`isUpdatedAt` flags), the engine builds the text of four files:

- a controller;
- a service;
- a repository;
- an `index.ts` that re-exports the other three.

Each layer file embeds two TypeScript input interfaces, `Create<Name>Input`
and `Update<Name>Input`.

Modules:

- `Text` (`text.dfy`): JavaScript's `join`, `split("\n")` and ASCII
  `toLowerCase` on `seq<char>`, with their laws. The main law is that
  `split` undoes `join` when no part holds a newline.
- `TemplateHelper` (`template_helper.dfy`): the engine itself.
  - `TypeForField` is `getTypeForField`.
  - `CreateInputType` and `UpdateInputType` are `generateCreateInputType` and
    `generateUpdateInputType`.
  - `ControllerTemplate`, `ServiceTemplate`, `RepositoryTemplate` and
    `IndexTemplate` are the four generators.

  Every template is written as the newline join of its lines. That gives
  the same text as the source's template literal, character for character.
  The five methods of a class share one layout (`Method`, `Methods`), and
  the lines differ only in what the source varies.
- `InterfaceSyntax` (`interface_syntax.dfy`): a reader for the generated
  `interface` declarations, and the lemma that reading a rendered
  declaration gives back its name and members.
- `TemplateProperties` (`template_properties.dfy`): which fields each input
  interface declares, in what order, with which optional markers and types.
- `LayerProperties` (`layer_properties.dfy`): what each layer file declares,
  read from its lines:
  - its import;
  - its one exported class;
  - its five `async` method signatures;
  - the call each method returns.
- `LayerConsistency` (`layer_consistency.dfy`): how the files fit together.
  - Every layer embeds both interfaces verbatim.
  - The three layers declare the same signatures.
  - The index re-exports exactly the three sibling files.
- `UserModel` (`user_model.dfy`): the `User` model of the template tests,
  taken through the general lemmas.

Every generator is a Dafny function of the model alone. Equal models
therefore give identical text; this needs no lemma.

Two behaviours of the code that the model keeps:

- Variable and parameter names (`userService`, `this.prisma.user`) and import
  paths use the fully lowercased model name: the code calls `toLowerCase()`
  on the whole name (`src/helpers/templateHelper.ts` lines 42, 49, 54 and
  130).
- A model without an `isId` field is not a reported error in the code.
  `find(...)!` yields `undefined`, and `getTypeForField` then fails on it.
  The model states this as the precondition `HasId(model.fields)` of the
  three layer templates.

## Model

| member | source | states |
|---|---|---|
| TemplateHelper.TypeForField | src/helpers/templateHelper.ts:3-10 | the projection agrees with the table Int→number, String→string, Boolean→boolean, DateTime→Date, Float→number, and is "any" for every other type name; it is total |
| TemplateHelper.FindId | src/helpers/templateHelper.ts:36 | `find(f => f.isId)` is absent exactly when no field is an id, and otherwise is the first id field |
| TemplateHelper.InputFields | src/helpers/templateHelper.ts:13-14 | the `filter` of both input types; its properties (membership iff neither id nor `@updatedAt`, multiplicity, schema order) are stated by TemplateProperties.InputFieldsSpec |
| TemplateHelper.CreateInputType | src/helpers/templateHelper.ts:12-24 | `generateCreateInputType`; what it declares is stated by TemplateProperties.CreateInputTypeReadsBack |
| TemplateHelper.UpdateInputType | src/helpers/templateHelper.ts:26-33 | `generateUpdateInputType`; what it declares is stated by TemplateProperties.UpdateInputTypeReadsBack |
| TemplateHelper.IdType | src/helpers/templateHelper.ts:36 | the `idType` of the layer templates; stated by TemplateProperties.IdTypeOfFirstId |
| TemplateHelper.ControllerTemplate | src/helpers/templateHelper.ts:35-73 | `generateControllerTemplate`; its import, class, signatures and returns are stated by LayerProperties.ControllerDeclares, its embedded interfaces by LayerConsistency.TemplatesEmbedInterfaces |
| TemplateHelper.ServiceTemplate | src/helpers/templateHelper.ts:75-113 | `generateServiceTemplate`; stated by LayerProperties.ServiceDeclares and LayerConsistency.TemplatesEmbedInterfaces |
| TemplateHelper.RepositoryTemplate | src/helpers/templateHelper.ts:115-158 | `generateRepositoryTemplate`; stated by LayerProperties.RepositoryDeclares, LayerProperties.RepositoryReturns and LayerConsistency.TemplatesEmbedInterfaces |
| TemplateHelper.IndexTemplate | src/helpers/templateHelper.ts:160-165 | `generateIndexTemplate`; stated by LayerConsistency.IndexExports |
| Text.Join | src/helpers/templateHelper.ts:21 | JavaScript's `join`; its laws are Text.JoinAppend and Text.LinesJoinRoundTrip |
| Text.Lines | src/helpers/templateHelper.ts:21 | the newline split that reads a generated text as lines; every text has at least one line, and it undoes Text.Join (Text.LinesJoinRoundTrip) |
| Text.ToLower | src/helpers/templateHelper.ts:42 | JavaScript's `toLowerCase` on ASCII; stated by Text.ToLowerAt, Text.ToLowerIdempotent and Text.ToLowerIdentifier |
| TemplateProperties.IdTypeOfFirstId | src/helpers/templateHelper.ts:36 | the identifier type of the layer templates is the projected type of the first `isId` field |
| TemplateProperties.InputFieldsSpec | src/helpers/templateHelper.ts:13-14 | the interface filter keeps a field iff it is neither the id nor `@updatedAt`, keeps each kept field as often as the schema lists it, and keeps schema order |
| TemplateProperties.InputFieldsExcludeIdAndUpdatedAt | src/helpers/templateHelper.ts:27-28 | no id field and no `@updatedAt` field is offered on input |
| InterfaceSyntax.CreateMembers | src/helpers/templateHelper.ts:15-20 | the i-th create member has the i-th field's name and projected type, and is optional iff the field is not required or has a default |
| InterfaceSyntax.UpdateMembers | src/helpers/templateHelper.ts:29 | the i-th update member has the i-th field's name and projected type and is always optional |
| TemplateProperties.CreateFieldLinesAreMemberLines | src/helpers/templateHelper.ts:15-20 | the create field lines are the member lines `  name?: type;` / `  name: type;` of the create members |
| TemplateProperties.UpdateFieldLinesAreMemberLines | src/helpers/templateHelper.ts:29 | the update field lines are the member lines of the update members |
| InterfaceSyntax.ParseMemberLine | src/helpers/templateHelper.ts:17-19 | a member line reads back as its name, optional marker and type |
| InterfaceSyntax.ParseMemberLines | src/helpers/templateHelper.ts:15-21 | a list of member lines reads back as the members, in order |
| InterfaceSyntax.MemberBodyLines | src/helpers/templateHelper.ts:21-23 | the body splits back into the member lines, and an interface without members has one empty body line |
| InterfaceSyntax.InterfaceRoundTrip | src/helpers/templateHelper.ts:23 | an `interface Name {\n…\n}` text reads back as its name and members |
| TemplateProperties.InputNamesAreIdentifiers | src/helpers/templateHelper.ts:37-38 | `Create<Name>Input` and `Update<Name>Input` are identifiers when the model name is |
| TemplateProperties.CreateInputTypeReadsBack | src/helpers/templateHelper.ts:12-24 | the create interface reads back as `Create<Name>Input` with exactly the input fields, in schema order, optional iff not required or defaulted, with projected types |
| TemplateProperties.UpdateInputTypeReadsBack | src/helpers/templateHelper.ts:26-33 | the update interface reads back as `Update<Name>Input` with the same input fields in schema order, every one optional |
| TemplateProperties.InterfacesDeclareSameFields | src/helpers/templateHelper.ts:12-33 | both interfaces declare the same names with the same types in the same order; every update member is optional |
| LayerProperties.LayerLines | src/helpers/templateHelper.ts:40-48 | a layer file's lines are the import line, a blank line, the create interface's lines, a blank line, the update interface's lines, a blank line, then the class lines |
| LayerProperties.LayerTagged | src/helpers/templateHelper.ts:44-46 | the embedded interfaces contribute no import, class, method or return line to a layer file |
| LayerProperties.MethodsTagged | src/helpers/templateHelper.ts:53-71 | the `async` lines of a method list are its signatures followed by " {", and its other tagged lines come from its bodies only |
| LayerProperties.ReturnsTagged | src/helpers/templateHelper.ts:53-71 | the `return` lines of forwarding bodies are exactly the forwarded calls |
| LayerProperties.ControllerDeclares | src/helpers/templateHelper.ts:35-73 | the controller imports only `<Name>Service` from `./<lower>.service`, declares only `<Name>Controller`, declares the five CRUD signatures with the id type and the interface names, and each method returns the same-named service method on its own arguments |
| LayerProperties.ServiceDeclares | src/helpers/templateHelper.ts:75-113 | the service imports only `<Name>Repository` from `./<lower>.repository`, declares only `<Name>Service`, declares the same five signatures, and each method returns the same-named repository method on its own arguments |
| LayerProperties.RepositoryReturns | src/helpers/templateHelper.ts:129-156 | the repository's method bodies return, in order, `findMany`, `findUnique`, `create`, `update` and `delete` on `this.prisma.<lower>` |
| LayerProperties.RepositoryDeclares | src/helpers/templateHelper.ts:115-158 | the repository imports only `PrismaClient` from `@prisma/client`, declares only `<Name>Repository`, declares the same five signatures, and returns the five Prisma client calls on `this.prisma.<lower>` |
| LayerConsistency.LayerFileEmbedsInterfaces | src/helpers/templateHelper.ts:40-48 | a layer file holds the create interface, a blank line and the update interface as one unbroken piece of its text |
| LayerConsistency.TemplatesEmbedInterfaces | src/helpers/templateHelper.ts:44-124 | controller, service and repository each contain the create interface text followed, after a blank line, by the update interface text, unchanged |
| LayerConsistency.LayersShareSignatures | src/helpers/templateHelper.ts:53-156 | the controller, service and repository declare the same method signatures in the same order |
| LayerConsistency.ExportLineRoundTrip | src/helpers/templateHelper.ts:161 | a re-export line reads back as its module path |
| LayerConsistency.ExportsRoundTrip | src/helpers/templateHelper.ts:161-163 | a list of re-export lines reads back as its module paths, in order |
| LayerConsistency.IndexExports | src/helpers/templateHelper.ts:160-165 | the index re-exports exactly `./<lower>.controller`, `./<lower>.service` and `./<lower>.repository`, in that order, and ends with a newline |
| Text.LinesJoinRoundTrip | src/helpers/templateHelper.ts:21 | splitting at newlines undoes joining with newlines when no part holds a newline |
| Text.LinesAppend | src/helpers/templateHelper.ts:23 | splitting text with an inserted newline splits each side separately |
| Text.JoinAppend | src/helpers/templateHelper.ts:21 | joining two non-empty lists is joining their joins with the separator |
| Text.ToLowerAt | src/helpers/templateHelper.ts:42 | lowercasing keeps the length, lowercases each ASCII upper-case letter and leaves every other character alone |
| Text.ToLowerIdempotent | src/helpers/templateHelper.ts:42 | lowercasing a lowercased name changes nothing |
| Text.ToLowerIdentifier | src/helpers/templateHelper.ts:42 | the lowercased model name is an identifier with no upper-case letter |
| UserModel.UserCreateInterface | src/__tests__/templateHelper.test.ts:90-100 | for the test's `User` model, `CreateUserInput` leaves out `id` and declares `email: string` and `name?: string` |
| UserModel.UserUpdateInterface | src/__tests__/templateHelper.test.ts:86-87 | for `User`, `UpdateUserInput` declares `email?: string` and `name?: string` |
| UserModel.UserIdType | src/__tests__/templateHelper.test.ts:65 | the `User` model has an id field and its parameters are typed `number` |
| UserModel.UserRepositoryCalls | src/__tests__/templateHelper.test.ts:114-118 | the `User` repository's method bodies return, in order, `this.prisma.user.findMany();`, `findUnique({`, `create({`, `update({` and `delete({` on `this.prisma.user`, and nothing else |

## Left out

- `src/generator.ts` is not part of this model, since it is file-system and plugin plumbing around the engine. That covers:
  - the output-directory guard;
  - `mkdir` and `writeFile` for four files per model;
  - `path.join`;
  - the `logger` calls;
  - the `generatorHandler` registration.
- `toLowerCase` is modelled as ASCII lowercasing. Unicode case mapping belongs to the JavaScript runtime.
- DMMF attributes the templates never read are not modelled: `kind`, `isList`, `isUnique`, `default` and so on. The field's DMMF `type` is modelled as `Field.typeName`.
- The model does not cover whether the emitted TypeScript compiles. The runtime behaviour of the generated classes (Prisma client calls, `async`) is not modelled either.
- TemplateProperties.CreateInputTypeReadsBack: stated for models whose model and field names are identifiers (ASCII letters, digits, `_`), as Prisma requires. A name holding `:`, `?` or a newline would not read back. The same holds for TemplateProperties.UpdateInputTypeReadsBack, TemplateProperties.InterfacesDeclareSameFields and InterfaceSyntax.InterfaceRoundTrip.
- LayerProperties.ControllerDeclares: reads back the import, class, signature and `return` lines, and likewise LayerProperties.ServiceDeclares and LayerProperties.RepositoryDeclares. The constructor line and the Prisma `where: { id }` / `data` argument lines are not read back. They are part of the modelled text exactly, but no lemma reads them.
- LayerConsistency.TemplatesEmbedInterfaces: states containment of the two interface texts. The line-level placement is stated by LayerProperties.LayerLines.
