/** The `User` model of the template tests, worked through the general
    lemmas: an auto-incremented `Int` id, a required `email` and an optional
    `name`. */
module UserModel {
  import opened Text
  import opened TemplateHelper
  import opened InterfaceSyntax
  import opened TemplateProperties
  import opened LayerProperties

  const Id := Field("id", "Int", true, true, true, false)
  const Email := Field("email", "String", false, true, false, false)
  const Name := Field("name", "String", false, false, false, false)
  const User := Model("User", [Id, Email, Name])

  lemma UserWellNamed()
    ensures WellNamed(User)
  {
    assert IsWordChar('U') && IsWordChar('s') && IsWordChar('e') && IsWordChar('r');
    assert forall f :: f in User.fields ==> f == Id || f == Email || f == Name;
  }

  lemma UserInputFields()
    ensures InputFields(User.fields) == [Email, Name]
  {
    assert [Name][1..] == [];
    assert InputFields([Name]) == [Name];
    assert [Email, Name][1..] == [Name];
    assert InputFields([Email, Name]) == [Email] + [Name];
    assert User.fields[1..] == [Email, Name];
  }

  lemma UserMembers()
    ensures CreateMembers([Email, Name]) == [Member("email", false, "string"), Member("name", true, "string")]
    ensures UpdateMembers([Email, Name]) == [Member("email", true, "string"), Member("name", true, "string")]
  {
    assert TypeForField(Email) == "string";
    assert TypeForField(Name) == "string";
  }

  lemma UserInputNames()
    ensures "Create" + User.name + "Input" == "CreateUserInput"
    ensures "Update" + User.name + "Input" == "UpdateUserInput"
  {
  }

  /** `CreateUserInput` leaves out the id and declares `email: string` and
      `name?: string`. */
  lemma UserCreateInterface()
    ensures ParseInterface(CreateInputType(User))
            == Some(InterfaceDecl("CreateUserInput",
                                  [Member("email", false, "string"), Member("name", true, "string")]))
  {
    UserWellNamed();
    UserInputFields();
    UserMembers();
    UserInputNames();
    CreateInputTypeReadsBack(User);
  }

  /** `UpdateUserInput` declares both `email?: string` and `name?: string`. */
  lemma UserUpdateInterface()
    ensures ParseInterface(UpdateInputType(User))
            == Some(InterfaceDecl("UpdateUserInput",
                                  [Member("email", true, "string"), Member("name", true, "string")]))
  {
    UserWellNamed();
    UserInputFields();
    UserMembers();
    UserInputNames();
    UpdateInputTypeReadsBack(User);
  }

  /** The identifier parameters are typed `number`. */
  lemma UserIdType()
    ensures HasId(User.fields) && IdType(User) == "number"
  {
    assert User.fields[0].isId;
  }

  lemma UserLower()
    ensures ToLower(User.name) == "user"
  {
    assert ToLower("User") == [LowerChar('U')] + ToLower("ser");
    assert ToLower("ser") == "ser";
  }

  lemma UserPrismaCalls()
    ensures PrismaCalls(User)
            == ["this.prisma.user.findMany();", "this.prisma.user.findUnique({",
                "this.prisma.user.create({", "this.prisma.user.update({", "this.prisma.user.delete({"]
  {
    UserLower();
    var d := "this.prisma.user";
    assert "this.prisma." + "user" == d;
    assert d + ".findMany();" == "this.prisma.user.findMany();";
    assert d + ".findUnique({" == "this.prisma.user.findUnique({";
    assert d + ".create({" == "this.prisma.user.create({";
    assert d + ".update({" == "this.prisma.user.update({";
    assert d + ".delete({" == "this.prisma.user.delete({";
  }

  /** The repository's method bodies return, in order, `findMany`,
      `findUnique`, `create`, `update` and `delete` on `this.prisma.user`. */
  lemma UserRepositoryCalls()
    ensures HasId(User.fields)
    ensures Tagged(Lines(RepositoryTemplate(User)), "    return ")
            == ["this.prisma.user.findMany();", "this.prisma.user.findUnique({",
                "this.prisma.user.create({", "this.prisma.user.update({", "this.prisma.user.delete({"]
  {
    UserWellNamed();
    UserIdType();
    RepositoryDeclares(User);
    UserPrismaCalls();
  }
}
