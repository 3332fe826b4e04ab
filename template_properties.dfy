/** What the generated input interfaces say, read back from their text. */
module TemplateProperties {
  import opened Text
  import opened TemplateHelper
  import opened InterfaceSyntax

  /** `xs` is `ys` with some elements left out, the rest in their order. */
  predicate IsSubsequence<T(==)>(xs: seq<T>, ys: seq<T>)
  {
    if |xs| == 0 then true
    else if |ys| == 0 then false
    else if xs[0] == ys[0] then IsSubsequence(xs[1..], ys[1..])
    else IsSubsequence(xs, ys[1..])
  }

  /** The filter of both interfaces keeps exactly the non-id, non-`@updatedAt`
      fields, each as often as the schema lists it, in schema order. */
  lemma {:induction false} InputFieldsSpec(fields: seq<Field>)
    ensures forall f :: f in InputFields(fields) <==> f in fields && IsInputField(f)
    ensures forall f :: multiset(InputFields(fields))[f] == if IsInputField(f) then multiset(fields)[f] else 0
    ensures IsSubsequence(InputFields(fields), fields)
  {
    if |fields| > 0 {
      InputFieldsSpec(fields[1..]);
      assert fields == [fields[0]] + fields[1..];
      if IsInputField(fields[0]) {
        assert InputFields(fields)[1..] == InputFields(fields[1..]);
      } else {
        if |InputFields(fields)| > 0 {
          assert InputFields(fields)[0] in InputFields(fields[1..]);
        }
      }
    }
  }

  /** No identifier field and no `@updatedAt` field is offered on input. */
  lemma InputFieldsExcludeIdAndUpdatedAt(fields: seq<Field>)
    ensures forall f :: f in InputFields(fields) ==> !f.isId && !f.isUpdatedAt
  {
    InputFieldsSpec(fields);
  }

  lemma {:induction false} CreateFieldLinesAreMemberLines(fields: seq<Field>)
    ensures CreateFieldLines(fields) == MemberLines(CreateMembers(fields))
  {
    if |fields| > 0 {
      CreateFieldLinesAreMemberLines(fields[1..]);
      assert CreateMembers(fields)[1..] == CreateMembers(fields[1..]);
    }
  }

  lemma {:induction false} UpdateFieldLinesAreMemberLines(fields: seq<Field>)
    ensures UpdateFieldLines(fields) == MemberLines(UpdateMembers(fields))
  {
    if |fields| > 0 {
      UpdateFieldLinesAreMemberLines(fields[1..]);
      assert UpdateMembers(fields)[1..] == UpdateMembers(fields[1..]);
      assert UpdateFieldLine(fields[0]) == MemberLine(fields[0].name, true, TypeForField(fields[0]));
    }
  }

  lemma TypeForFieldOneLine(f: Field)
    ensures '\n' !in TypeForField(f)
  {
  }

  lemma IdentifierConcat(a: string, b: string)
    requires IsIdentifier(a) && IsIdentifier(b)
    ensures IsIdentifier(a + b)
  {
    assert forall i :: 0 <= i < |a + b| ==> (a + b)[i] == if i < |a| then a[i] else b[i - |a|];
  }

  /** The interface names are identifiers when the model name is. */
  lemma InputNamesAreIdentifiers(model: Model)
    requires IsIdentifier(model.name)
    ensures IsIdentifier(CreateInputName(model)) && IsIdentifier(UpdateInputName(model))
  {
    assert IsIdentifier("Create") && IsIdentifier("Update") && IsIdentifier("Input");
    IdentifierConcat("Create", model.name);
    IdentifierConcat("Create" + model.name, "Input");
    IdentifierConcat("Update", model.name);
    IdentifierConcat("Update" + model.name, "Input");
  }

  /** The create interface, read back, is named `Create<Model>Input` and
      declares the input fields in schema order, each optional exactly when
      it is not required or has a default, each with its projected type. */
  lemma CreateInputTypeReadsBack(model: Model)
    requires WellNamed(model)
    ensures ParseInterface(CreateInputType(model))
            == Some(InterfaceDecl("Create" + model.name + "Input", CreateMembers(InputFields(model.fields))))
  {
    var fs := InputFields(model.fields);
    var ms := CreateMembers(fs);
    InputFieldsSpec(model.fields);
    forall m | m in ms ensures IsIdentifier(m.name) && '\n' !in m.tsType {
      var i :| 0 <= i < |fs| && ms[i] == m;
      assert fs[i] in fs;
      TypeForFieldOneLine(fs[i]);
    }
    InputNamesAreIdentifiers(model);
    CreateFieldLinesAreMemberLines(fs);
    InterfaceRoundTrip(CreateInputName(model), ms);
  }

  /** The update interface, read back, is named `Update<Model>Input` and
      declares the same input fields in schema order, every one optional. */
  lemma UpdateInputTypeReadsBack(model: Model)
    requires WellNamed(model)
    ensures ParseInterface(UpdateInputType(model))
            == Some(InterfaceDecl("Update" + model.name + "Input", UpdateMembers(InputFields(model.fields))))
  {
    var fs := InputFields(model.fields);
    var ms := UpdateMembers(fs);
    InputFieldsSpec(model.fields);
    forall m | m in ms ensures IsIdentifier(m.name) && '\n' !in m.tsType {
      var i :| 0 <= i < |fs| && ms[i] == m;
      assert fs[i] in fs;
      TypeForFieldOneLine(fs[i]);
    }
    InputNamesAreIdentifiers(model);
    UpdateFieldLinesAreMemberLines(fs);
    InterfaceRoundTrip(UpdateInputName(model), ms);
  }

  /** The two interfaces declare the same members in the same order with the
      same types; they differ only in that every update member is optional. */
  lemma InterfacesDeclareSameFields(model: Model)
    requires WellNamed(model)
    ensures ParseInterface(CreateInputType(model)).Some? && ParseInterface(UpdateInputType(model)).Some?
    ensures var c := ParseInterface(CreateInputType(model)).value.members;
            var u := ParseInterface(UpdateInputType(model)).value.members;
            |c| == |u| &&
            forall i :: 0 <= i < |c| ==>
              c[i].name == u[i].name && c[i].tsType == u[i].tsType && u[i].optional
  {
    CreateInputTypeReadsBack(model);
    UpdateInputTypeReadsBack(model);
  }

  /** The identifier type is the projected type of the first `isId` field. */
  lemma IdTypeOfFirstId(model: Model)
    requires HasId(model.fields)
    ensures exists i :: IsFirstId(model.fields, i) && IdType(model) == TypeForField(model.fields[i])
  {
    var r := FindId(model.fields);
    assert r.Some?;
    var i :| IsFirstId(model.fields, i) && model.fields[i] == r.value;
    assert IdType(model) == TypeForField(model.fields[i]);
  }
}
