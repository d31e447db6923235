/**
 * The documentation-model builder: classifies a type, collects its members kind by kind
 * (dropping those merely inherited from `object` when asked to), maps an enumeration's values
 * to their names, and splits a namespace into its cumulative prefixes.
 */
module ModelBuilder {
  import opened Wrappers
  import opened Strings
  import opened Linq
  import opened Reflection
  import opened Models

  /** The exceptions the builder can throw. */
  datatype BuildError =
    | DuplicateEnumValue(value: int)  // `ToDictionary` meets a backing value for the second time
    | NullNamespace                   // `Namespace.Split` on a type outside every namespace

  /**
   * A member-collection handler: an action that stores a collection on the model object. It is
   * given the model and the collection, and yields the model as the action leaves it.
   */
  type Handler<-C> = (TypeModel, C) -> TypeModel

  /** The optional caller-supplied handlers of the generic overload; `None` selects the default. */
  datatype Handlers = Handlers(
    fieldHandler: Option<Handler<seq<FieldModel>>>,
    propertyHandler: Option<Handler<seq<PropertyModel>>>,
    constructorHandler: Option<Handler<seq<ConstructorModel>>>,
    methodHandler: Option<Handler<seq<MethodModel>>>,
    enumValueHandler: Option<Handler<map<int, string>>>)

  predicate UsesDefaults(h: Handlers)
  {
    h.fieldHandler.None? && h.propertyHandler.None? && h.constructorHandler.None?
    && h.methodHandler.None? && h.enumValueHandler.None?
  }

  /** The type being described, the filtering switch, and the model under construction. */
  datatype TypeBuilderState = TypeBuilderState(typ: TypeDescriptor, filterObjectMatches: bool, model: TypeModel)

  /** A new model of class `kind` that carries the type's name, full name and namespace. */
  function NewTypeBuilderState(kind: TypeKind, t: TypeDescriptor, filterObjectMatches: bool): (s: TypeBuilderState)
    ensures s.typ == t && s.filterObjectMatches == filterObjectMatches
    ensures s.model.kind == kind && s.model.name == t.name && s.model.fullName == t.fullName && s.model.namespace == t.namespace
    ensures s.model.constructors.None? && s.model.fields.None? && s.model.properties.None?
    ensures s.model.methods.None? && s.model.values.None?
  {
    TypeBuilderState(t, filterObjectMatches,
      TypeModel(kind, t.name, t.fullName, t.namespace, None, None, None, None, None))
  }

  // ---------------------------------------------------------------- classification and gates

  /** First match wins: enumeration, then interface, then class; anything else is a struct. */
  function Classify(t: TypeDescriptor): (k: TypeKind)
    ensures k == EnumKind <==> t.isEnum
    ensures k == InterfaceKind <==> !t.isEnum && t.isInterface
    ensures k == ClassKind <==> !t.isEnum && !t.isInterface && t.isClass
    ensures k == StructKind <==> !t.isEnum && !t.isInterface && !t.isClass
  {
    if t.isEnum then EnumKind
    else if t.isInterface then InterfaceKind
    else if t.isClass then ClassKind
    else StructKind
  }

  predicate BuildsConstructors(t: TypeDescriptor) { !(t.isEnum || t.isInterface) }
  predicate BuildsFields(t: TypeDescriptor) { t.isClass || (t.isValueType && !(t.isPrimitive || t.isEnum)) }
  predicate BuildsProperties(t: TypeDescriptor) { !t.isEnum }
  predicate BuildsMethods(t: TypeDescriptor) { !t.isEnum }
  predicate BuildsEnumValues(t: TypeDescriptor) { t.isEnum }

  /**
   * For a type whose flags fit together, its classification decides which collections are
   * built: an enumeration gets only its values, an interface only properties and methods, a
   * class everything but values, and a struct everything but values, with fields only when it
   * is a non-primitive value type.
   */
  lemma KindGatesCollections(t: TypeDescriptor)
    requires Consistent(t)
    ensures Classify(t) == EnumKind ==>
      BuildsEnumValues(t) && !BuildsConstructors(t) && !BuildsFields(t) && !BuildsProperties(t) && !BuildsMethods(t)
    ensures Classify(t) == InterfaceKind ==>
      !BuildsEnumValues(t) && !BuildsConstructors(t) && !BuildsFields(t) && BuildsProperties(t) && BuildsMethods(t)
    ensures Classify(t) == ClassKind ==>
      !BuildsEnumValues(t) && BuildsConstructors(t) && BuildsFields(t) && BuildsProperties(t) && BuildsMethods(t)
    ensures Classify(t) == StructKind ==>
      !BuildsEnumValues(t) && BuildsConstructors(t) && BuildsProperties(t) && BuildsMethods(t)
      && (BuildsFields(t) <==> t.isValueType && !t.isPrimitive)
  {
  }

  // ---------------------------------------------------------------- filtering

  /** The comparison `IsDefinedByObject` makes: kind, declaring type and name. */
  predicate SameMember(a: MemberInfo, b: MemberInfo)
  {
    a.memberType == b.memberType && a.declaringType == b.declaringType && a.name == b.name
  }

  /** `object` has a member of the same kind, declaring type and name. */
  function IsDefinedByObject(info: MemberInfo, objectMembers: seq<MemberInfo>): (r: bool)
    ensures r <==> exists i :: 0 <= i < |objectMembers| && SameMember(objectMembers[i], info)
  {
    Any(objectMembers, (member: MemberInfo) => SameMember(member, info))
  }

  /** The `Where` step shared by every member pipeline. */
  function Kept(infos: seq<MemberInfo>, filterObjectMatches: bool, objectMembers: seq<MemberInfo>): seq<MemberInfo>
  {
    Where(infos, (info: MemberInfo) => !filterObjectMatches || !IsDefinedByObject(info, objectMembers))
  }

  /**
   * Without filtering every member passes, in order; with filtering a member is dropped
   * exactly when `object` has a matching member.
   */
  lemma FilterObjectMatches(infos: seq<MemberInfo>, filterObjectMatches: bool, objectMembers: seq<MemberInfo>)
    ensures !filterObjectMatches ==> Kept(infos, filterObjectMatches, objectMembers) == infos
    ensures filterObjectMatches ==>
      forall x :: x in Kept(infos, filterObjectMatches, objectMembers) <==> x in infos && !IsDefinedByObject(x, objectMembers)
  {
    if !filterObjectMatches {
      WhereKeepsAll(infos, (info: MemberInfo) => !filterObjectMatches || !IsDefinedByObject(info, objectMembers));
    }
  }

  /** Filtering keeps the reflection order: it distributes over concatenation. */
  lemma KeptPreservesOrder(a: seq<MemberInfo>, b: seq<MemberInfo>, filterObjectMatches: bool, objectMembers: seq<MemberInfo>)
    ensures Kept(a + b, filterObjectMatches, objectMembers)
      == Kept(a, filterObjectMatches, objectMembers) + Kept(b, filterObjectMatches, objectMembers)
  {
    WhereAppend(a, b, (info: MemberInfo) => !filterObjectMatches || !IsDefinedByObject(info, objectMembers));
  }

  /**
   * Every member of `object` is declared by `object`, so a member declared elsewhere, such as
   * an override of `ToString` on a subclass, survives filtering.
   */
  lemma OverrideIsKept(info: MemberInfo, objectMembers: seq<MemberInfo>)
    requires forall i :: 0 <= i < |objectMembers| ==> objectMembers[i].declaringType == ObjectTypeName
    requires info.declaringType != ObjectTypeName
    ensures Kept([info], true, objectMembers) == [info]
  {
    assert !IsDefinedByObject(info, objectMembers);
    assert [info][1..] == [];
  }

  /**
   * A type whose members all match members of `object` yields nothing when filtering and
   * all of them otherwise.
   */
  lemma OnlyObjectMembers(infos: seq<MemberInfo>, objectMembers: seq<MemberInfo>)
    requires forall i :: 0 <= i < |infos| ==> IsDefinedByObject(infos[i], objectMembers)
    ensures Kept(infos, true, objectMembers) == []
    ensures Kept(infos, false, objectMembers) == infos
  {
    FilterObjectMatches(infos, false, objectMembers);
    WhereKeepsNone(infos, (info: MemberInfo) => !true || !IsDefinedByObject(info, objectMembers));
  }

  // ---------------------------------------------------------------- member pipelines

  /** `GetMembers(...).OfType<ConstructorInfo>()`. */
  function ConstructorInfos(t: TypeDescriptor): seq<MemberInfo>
  {
    Where(t.members, (m: MemberInfo) => m.memberType == ConstructorMember)
  }

  function ConstructorModels(state: TypeBuilderState, objectMembers: seq<MemberInfo>): seq<ConstructorModel>
  {
    Select(Kept(ConstructorInfos(state.typ), state.filterObjectMatches, objectMembers), (_: MemberInfo) => ConstructorModel)
  }

  function FieldModels(state: TypeBuilderState, objectMembers: seq<MemberInfo>): seq<FieldModel>
  {
    Select(Kept(state.typ.fields, state.filterObjectMatches, objectMembers), (info: MemberInfo) => FieldModel(info.name))
  }

  function PropertyModels(state: TypeBuilderState, objectMembers: seq<MemberInfo>): seq<PropertyModel>
  {
    Select(Kept(state.typ.properties, state.filterObjectMatches, objectMembers), (info: MemberInfo) => PropertyModel(info.name))
  }

  function MethodModels(state: TypeBuilderState, objectMembers: seq<MemberInfo>): seq<MethodModel>
  {
    Select(Kept(state.typ.methods, state.filterObjectMatches, objectMembers), (info: MemberInfo) => MethodModel(info.name))
  }

  // ---------------------------------------------------------------- enumeration values

  /** No two enumerants share a backing value. */
  predicate DistinctValues(es: seq<Enumerant>)
  {
    forall i, j :: 0 <= i < j < |es| ==> es[i].value != es[j].value
  }

  /**
   * `ToDictionary(key => key, key => Enum.GetName(type, key))` over the enumerants in order:
   * it fails on the first backing value seen twice, and otherwise maps every backing value to
   * the name of the one enumerant that has it.
   */
  function EnumValueMap(es: seq<Enumerant>): (r: Result<map<int, string>, BuildError>)
    ensures r.Success? <==> DistinctValues(es)
    ensures r.Success? ==> r.value.Keys == set i | 0 <= i < |es| :: es[i].value
    ensures r.Success? ==> forall i :: 0 <= i < |es| ==> r.value[es[i].value] == es[i].name
    ensures r.Failure? ==>
      && r.error.DuplicateEnumValue?
      && exists i, j :: 0 <= i < j < |es| && es[i].value == r.error.value && es[j].value == r.error.value
  {
    if es == [] then Success(map[])
    else
      var init := es[..|es| - 1];
      var last := es[|es| - 1];
      assert forall i :: 0 <= i < |init| ==> init[i] == es[i];
      match EnumValueMap(init)
      case Failure(e) => Failure(e)
      case Success(m) =>
        if last.value in m then
          Failure(DuplicateEnumValue(last.value))
        else
          Success(m[last.value := last.name])
  }

  /** Three distinct values map to their names; an aliased value makes the build throw. */
  lemma EnumValueMapExamples()
    ensures EnumValueMap([Enumerant(0, "Red"), Enumerant(1, "Green"), Enumerant(2, "Blue")])
         == Success(map[0 := "Red", 1 := "Green", 2 := "Blue"])
    ensures EnumValueMap([Enumerant(0, "None"), Enumerant(0, "Default")]) == Failure(DuplicateEnumValue(0))
  {
  }

  // ---------------------------------------------------------------- handlers

  /** Runs the caller's handler if there is one and the default otherwise; the model object keeps its class. */
  function Apply<C>(handler: Option<Handler<C>>, default: Handler<C>, model: TypeModel, items: C): TypeModel
  {
    var h := if handler.Some? then handler.value else default;
    h(model, items).(kind := model.kind)
  }

  /**
   * The default handlers: each stores the built items in its own collection when the model's
   * class implements the matching `IHave...` interface, and otherwise leaves the model as it is;
   * no other part of the model changes.
   */
  function DefaultConstructorHandler(implements: (TypeKind, Capability) -> bool): (h: Handler<seq<ConstructorModel>>)
    ensures forall m: TypeModel, xs: seq<ConstructorModel> :: h(m, xs).(constructors := m.constructors) == m
    ensures forall m: TypeModel, xs: seq<ConstructorModel> :: h(m, xs).constructors == if implements(m.kind, HaveConstructors) then Some(xs) else m.constructors
  {
    (model: TypeModel, items: seq<ConstructorModel>) =>
      if implements(model.kind, HaveConstructors) then model.(constructors := Some(items)) else model
  }

  function DefaultFieldHandler(implements: (TypeKind, Capability) -> bool): (h: Handler<seq<FieldModel>>)
    ensures forall m: TypeModel, xs: seq<FieldModel> :: h(m, xs).(fields := m.fields) == m
    ensures forall m: TypeModel, xs: seq<FieldModel> :: h(m, xs).fields == if implements(m.kind, HaveFields) then Some(xs) else m.fields
  {
    (model: TypeModel, items: seq<FieldModel>) =>
      if implements(model.kind, HaveFields) then model.(fields := Some(items)) else model
  }

  function DefaultPropertyHandler(implements: (TypeKind, Capability) -> bool): (h: Handler<seq<PropertyModel>>)
    ensures forall m: TypeModel, xs: seq<PropertyModel> :: h(m, xs).(properties := m.properties) == m
    ensures forall m: TypeModel, xs: seq<PropertyModel> :: h(m, xs).properties == if implements(m.kind, HaveProperties) then Some(xs) else m.properties
  {
    (model: TypeModel, items: seq<PropertyModel>) =>
      if implements(model.kind, HaveProperties) then model.(properties := Some(items)) else model
  }

  function DefaultMethodHandler(implements: (TypeKind, Capability) -> bool): (h: Handler<seq<MethodModel>>)
    ensures forall m: TypeModel, xs: seq<MethodModel> :: h(m, xs).(methods := m.methods) == m
    ensures forall m: TypeModel, xs: seq<MethodModel> :: h(m, xs).methods == if implements(m.kind, HaveMethods) then Some(xs) else m.methods
  {
    (model: TypeModel, items: seq<MethodModel>) =>
      if implements(model.kind, HaveMethods) then model.(methods := Some(items)) else model
  }

  function DefaultEnumValueHandler(implements: (TypeKind, Capability) -> bool): (h: Handler<map<int, string>>)
    ensures forall m: TypeModel, xs: map<int, string> :: h(m, xs).(values := m.values) == m
    ensures forall m: TypeModel, xs: map<int, string> :: h(m, xs).values == if implements(m.kind, HaveEnumValues) then Some(xs) else m.values
  {
    (model: TypeModel, values: map<int, string>) =>
      if implements(model.kind, HaveEnumValues) then model.(values := Some(values)) else model
  }

  // ---------------------------------------------------------------- the builders

  function BuildConstructors(state: TypeBuilderState, handler: Option<Handler<seq<ConstructorModel>>>,
                             implements: (TypeKind, Capability) -> bool, objectMembers: seq<MemberInfo>): (m: TypeModel)
    ensures m.kind == state.model.kind
    ensures handler.Some? ==> m == handler.value(state.model, ConstructorModels(state, objectMembers)).(kind := state.model.kind)
    ensures handler.None? ==> m.(constructors := state.model.constructors) == state.model
    ensures handler.None? ==> m.constructors == if implements(state.model.kind, HaveConstructors) then Some(ConstructorModels(state, objectMembers)) else state.model.constructors
  {
    Apply(handler, DefaultConstructorHandler(implements), state.model, ConstructorModels(state, objectMembers))
  }

  function BuildFields(state: TypeBuilderState, handler: Option<Handler<seq<FieldModel>>>,
                       implements: (TypeKind, Capability) -> bool, objectMembers: seq<MemberInfo>): (m: TypeModel)
    ensures m.kind == state.model.kind
    ensures handler.Some? ==> m == handler.value(state.model, FieldModels(state, objectMembers)).(kind := state.model.kind)
    ensures handler.None? ==> m.(fields := state.model.fields) == state.model
    ensures handler.None? ==> m.fields == if implements(state.model.kind, HaveFields) then Some(FieldModels(state, objectMembers)) else state.model.fields
  {
    Apply(handler, DefaultFieldHandler(implements), state.model, FieldModels(state, objectMembers))
  }

  function BuildProperties(state: TypeBuilderState, handler: Option<Handler<seq<PropertyModel>>>,
                           implements: (TypeKind, Capability) -> bool, objectMembers: seq<MemberInfo>): (m: TypeModel)
    ensures m.kind == state.model.kind
    ensures handler.Some? ==> m == handler.value(state.model, PropertyModels(state, objectMembers)).(kind := state.model.kind)
    ensures handler.None? ==> m.(properties := state.model.properties) == state.model
    ensures handler.None? ==> m.properties == if implements(state.model.kind, HaveProperties) then Some(PropertyModels(state, objectMembers)) else state.model.properties
  {
    Apply(handler, DefaultPropertyHandler(implements), state.model, PropertyModels(state, objectMembers))
  }

  function BuildMethods(state: TypeBuilderState, handler: Option<Handler<seq<MethodModel>>>,
                        implements: (TypeKind, Capability) -> bool, objectMembers: seq<MemberInfo>): (m: TypeModel)
    ensures m.kind == state.model.kind
    ensures handler.Some? ==> m == handler.value(state.model, MethodModels(state, objectMembers)).(kind := state.model.kind)
    ensures handler.None? ==> m.(methods := state.model.methods) == state.model
    ensures handler.None? ==> m.methods == if implements(state.model.kind, HaveMethods) then Some(MethodModels(state, objectMembers)) else state.model.methods
  {
    Apply(handler, DefaultMethodHandler(implements), state.model, MethodModels(state, objectMembers))
  }

  function BuildEnumValues(state: TypeBuilderState, handler: Option<Handler<map<int, string>>>,
                           implements: (TypeKind, Capability) -> bool): (r: Result<TypeModel, BuildError>)
    ensures r.Failure? <==> !DistinctValues(state.typ.enumerants)
    ensures r.Failure? ==> r == Failure(EnumValueMap(state.typ.enumerants).error)
    ensures r.Success? ==> r.value.kind == state.model.kind
    ensures r.Success? && handler.Some? ==>
      r.value == handler.value(state.model, EnumValueMap(state.typ.enumerants).value).(kind := state.model.kind)
    ensures r.Success? && handler.None? ==>
      && r.value.(values := state.model.values) == state.model
      && r.value.values == if implements(state.model.kind, HaveEnumValues) then Some(EnumValueMap(state.typ.enumerants).value) else state.model.values
  {
    match EnumValueMap(state.typ.enumerants)
    case Failure(e) => Failure(e)
    case Success(values) => Success(Apply(handler, DefaultEnumValueHandler(implements), state.model, values))
  }

  /**
   * The generic overload `BuildTypeModel<TModel>`: `kind` is the model class `TModel`,
   * `implements` says which `IHave...` interfaces each model class implements, and
   * `objectMembers` is what `typeof(object).GetMembers` returns. A caller that omits the
   * switch or a handler passes `DefaultFilterObjectMatches` or `None`.
   */
  function BuildTypeModelAs(kind: TypeKind, t: TypeDescriptor, filterObjectMatches: bool, handlers: Handlers,
                            implements: (TypeKind, Capability) -> bool, objectMembers: seq<MemberInfo>)
    : (r: Result<TypeModel, BuildError>)
    ensures r.Failure? <==> t.isEnum && !DistinctValues(t.enumerants)
    ensures r.Failure? ==> r.error.DuplicateEnumValue?
    ensures r.Success? ==> r.value.kind == kind
  {
    var state := NewTypeBuilderState(kind, t, filterObjectMatches);
    var m1 := if BuildsConstructors(t) then BuildConstructors(state, handlers.constructorHandler, implements, objectMembers) else state.model;
    var m2 := if BuildsFields(t) then BuildFields(state.(model := m1), handlers.fieldHandler, implements, objectMembers) else m1;
    var m3 := if BuildsProperties(t) then BuildProperties(state.(model := m2), handlers.propertyHandler, implements, objectMembers) else m2;
    var m4 := if BuildsMethods(t) then BuildMethods(state.(model := m3), handlers.methodHandler, implements, objectMembers) else m3;
    if BuildsEnumValues(t) then BuildEnumValues(state.(model := m4), handlers.enumValueHandler, implements) else Success(m4)
  }

  /** The value both overloads give the filtering switch when the caller leaves it out: members of `object` are dropped. */
  const DefaultFilterObjectMatches := true

  /**
   * The non-generic overload: the model class is the type's classification, with the default
   * handlers. A caller that omits the switch passes `DefaultFilterObjectMatches`.
   */
  function BuildTypeModel(t: TypeDescriptor, filterObjectMatches: bool,
                          implements: (TypeKind, Capability) -> bool, objectMembers: seq<MemberInfo>)
    : (r: Result<TypeModel, BuildError>)
    ensures r.Failure? <==> t.isEnum && !DistinctValues(t.enumerants)
    ensures r.Success? ==> r.value == DefaultModel(Classify(t), t, filterObjectMatches, implements, objectMembers)
  {
    var handlers := Handlers(None, None, None, None, None);
    DefaultBuildIsDefaultModel(Classify(t), t, filterObjectMatches, handlers, implements, objectMembers);
    BuildTypeModelAs(Classify(t), t, filterObjectMatches, handlers, implements, objectMembers)
  }

  // ---------------------------------------------------------------- properties of a build

  /**
   * The non-generic overload builds the model class that the classification picks, and the
   * model carries the type's name, full name and namespace.
   */
  lemma BuildTypeModelIdentity(t: TypeDescriptor, filterObjectMatches: bool,
                               implements: (TypeKind, Capability) -> bool, objectMembers: seq<MemberInfo>)
    ensures var r := BuildTypeModel(t, filterObjectMatches, implements, objectMembers);
      r.Success? ==>
        && r.value.kind == Classify(t)
        && r.value.name == t.name
        && r.value.fullName == t.fullName
        && r.value.namespace == t.namespace
  {
    var handlers := Handlers(None, None, None, None, None);
    assert UsesDefaults(handlers);
    DefaultBuildIdentity(Classify(t), t, filterObjectMatches, handlers, implements, objectMembers);
  }

  /** With the default handlers the model keeps the name, full name and namespace it was created with. */
  lemma DefaultBuildIdentity(kind: TypeKind, t: TypeDescriptor, filterObjectMatches: bool, handlers: Handlers,
                             implements: (TypeKind, Capability) -> bool, objectMembers: seq<MemberInfo>)
    requires UsesDefaults(handlers)
    ensures var r := BuildTypeModelAs(kind, t, filterObjectMatches, handlers, implements, objectMembers);
      r.Success? ==>
        && r.value.kind == kind
        && r.value.name == t.name
        && r.value.fullName == t.fullName
        && r.value.namespace == t.namespace
  {
    DefaultBuildIsDefaultModel(kind, t, filterObjectMatches, handlers, implements, objectMembers);
  }

  /**
   * The model the default handlers produce, described all at once: the type's names, and each
   * collection present exactly when its gate lets it be built and the model class implements
   * the matching interface.
   */
  ghost function DefaultModel(kind: TypeKind, t: TypeDescriptor, filterObjectMatches: bool,
                              implements: (TypeKind, Capability) -> bool, objectMembers: seq<MemberInfo>): TypeModel
  {
    var state := NewTypeBuilderState(kind, t, filterObjectMatches);
    var values := EnumValueMap(t.enumerants);
    TypeModel(kind, t.name, t.fullName, t.namespace,
      if BuildsConstructors(t) && implements(kind, HaveConstructors) then Some(ConstructorModels(state, objectMembers)) else None,
      if BuildsFields(t) && implements(kind, HaveFields) then Some(FieldModels(state, objectMembers)) else None,
      if BuildsProperties(t) && implements(kind, HaveProperties) then Some(PropertyModels(state, objectMembers)) else None,
      if BuildsMethods(t) && implements(kind, HaveMethods) then Some(MethodModels(state, objectMembers)) else None,
      if BuildsEnumValues(t) && implements(kind, HaveEnumValues) && values.Success? then Some(values.value) else None)
  }

  /**
   * With the default handlers, the step-by-step build either throws for a repeated enumeration
   * value or yields exactly the model `DefaultModel` describes.
   */
  lemma DefaultBuildIsDefaultModel(kind: TypeKind, t: TypeDescriptor, filterObjectMatches: bool, handlers: Handlers,
                                   implements: (TypeKind, Capability) -> bool, objectMembers: seq<MemberInfo>)
    requires UsesDefaults(handlers)
    ensures BuildTypeModelAs(kind, t, filterObjectMatches, handlers, implements, objectMembers)
         == if t.isEnum && !DistinctValues(t.enumerants) then Failure(EnumValueMap(t.enumerants).error)
            else Success(DefaultModel(kind, t, filterObjectMatches, implements, objectMembers))
  {
    var state := NewTypeBuilderState(kind, t, filterObjectMatches);
    var d := DefaultModel(kind, t, filterObjectMatches, implements, objectMembers);
    var m1 := if BuildsConstructors(t) then BuildConstructors(state, handlers.constructorHandler, implements, objectMembers) else state.model;
    assert m1 == state.model.(constructors := d.constructors);
    var m2 := if BuildsFields(t) then BuildFields(state.(model := m1), handlers.fieldHandler, implements, objectMembers) else m1;
    assert m2 == m1.(fields := d.fields);
    var m3 := if BuildsProperties(t) then BuildProperties(state.(model := m2), handlers.propertyHandler, implements, objectMembers) else m2;
    assert m3 == m2.(properties := d.properties);
    var m4 := if BuildsMethods(t) then BuildMethods(state.(model := m3), handlers.methodHandler, implements, objectMembers) else m3;
    assert m4 == m3.(methods := d.methods);
    assert m4.(values := d.values) == d;
  }

  /**
   * With the default handlers the constructor list is stored exactly when the type is neither
   * an enumeration nor an interface and the model class implements `IHaveConstructors`; it then
   * holds one model per kept constructor.
   */
  lemma DefaultBuildConstructors(kind: TypeKind, t: TypeDescriptor, filterObjectMatches: bool, handlers: Handlers,
                                 implements: (TypeKind, Capability) -> bool, objectMembers: seq<MemberInfo>)
    requires UsesDefaults(handlers)
    ensures var r := BuildTypeModelAs(kind, t, filterObjectMatches, handlers, implements, objectMembers);
      r.Success? ==>
        && (r.value.constructors.Some? <==> BuildsConstructors(t) && implements(kind, HaveConstructors))
        && (r.value.constructors.Some? ==>
              |r.value.constructors.value| == |Kept(ConstructorInfos(t), filterObjectMatches, objectMembers)|)
  {
    DefaultBuildIsDefaultModel(kind, t, filterObjectMatches, handlers, implements, objectMembers);
  }

  /**
   * With the default handlers the field list is stored exactly when the type is a class or a
   * non-primitive, non-enumeration value type and the model class implements `IHaveFields`; it
   * then names the kept fields in reflection order.
   */
  lemma DefaultBuildFields(kind: TypeKind, t: TypeDescriptor, filterObjectMatches: bool, handlers: Handlers,
                           implements: (TypeKind, Capability) -> bool, objectMembers: seq<MemberInfo>)
    requires UsesDefaults(handlers)
    ensures var r := BuildTypeModelAs(kind, t, filterObjectMatches, handlers, implements, objectMembers);
      r.Success? ==>
        && (r.value.fields.Some? <==> BuildsFields(t) && implements(kind, HaveFields))
        && (r.value.fields.Some? ==>
              var kept := Kept(t.fields, filterObjectMatches, objectMembers);
              |r.value.fields.value| == |kept| && forall i :: 0 <= i < |kept| ==> r.value.fields.value[i].name == kept[i].name)
  {
    DefaultBuildIsDefaultModel(kind, t, filterObjectMatches, handlers, implements, objectMembers);
  }

  /**
   * With the default handlers the property list is stored exactly when the type is not an
   * enumeration and the model class implements `IHaveProperties`; it then names the kept
   * properties in reflection order.
   */
  lemma DefaultBuildProperties(kind: TypeKind, t: TypeDescriptor, filterObjectMatches: bool, handlers: Handlers,
                               implements: (TypeKind, Capability) -> bool, objectMembers: seq<MemberInfo>)
    requires UsesDefaults(handlers)
    ensures var r := BuildTypeModelAs(kind, t, filterObjectMatches, handlers, implements, objectMembers);
      r.Success? ==>
        && (r.value.properties.Some? <==> BuildsProperties(t) && implements(kind, HaveProperties))
        && (r.value.properties.Some? ==>
              var kept := Kept(t.properties, filterObjectMatches, objectMembers);
              |r.value.properties.value| == |kept| && forall i :: 0 <= i < |kept| ==> r.value.properties.value[i].name == kept[i].name)
  {
    DefaultBuildIsDefaultModel(kind, t, filterObjectMatches, handlers, implements, objectMembers);
  }

  /**
   * With the default handlers the method list is stored exactly when the type is not an
   * enumeration and the model class implements `IHaveMethods`; it then names the kept methods
   * in reflection order.
   */
  lemma DefaultBuildMethods(kind: TypeKind, t: TypeDescriptor, filterObjectMatches: bool, handlers: Handlers,
                            implements: (TypeKind, Capability) -> bool, objectMembers: seq<MemberInfo>)
    requires UsesDefaults(handlers)
    ensures var r := BuildTypeModelAs(kind, t, filterObjectMatches, handlers, implements, objectMembers);
      r.Success? ==>
        && (r.value.methods.Some? <==> BuildsMethods(t) && implements(kind, HaveMethods))
        && (r.value.methods.Some? ==>
              var kept := Kept(t.methods, filterObjectMatches, objectMembers);
              |r.value.methods.value| == |kept| && forall i :: 0 <= i < |kept| ==> r.value.methods.value[i].name == kept[i].name)
  {
    DefaultBuildIsDefaultModel(kind, t, filterObjectMatches, handlers, implements, objectMembers);
  }

  /**
   * With the default handlers an enumeration's model holds its value map exactly when the
   * model class implements `IHaveEnumValues`, and that map sends each backing value to its name.
   */
  lemma DefaultBuildEnumValues(kind: TypeKind, t: TypeDescriptor, filterObjectMatches: bool, handlers: Handlers,
                               implements: (TypeKind, Capability) -> bool, objectMembers: seq<MemberInfo>)
    requires UsesDefaults(handlers)
    ensures var r := BuildTypeModelAs(kind, t, filterObjectMatches, handlers, implements, objectMembers);
      r.Success? ==>
        && (r.value.values.Some? <==> t.isEnum && implements(kind, HaveEnumValues))
        && (r.value.values.Some? ==>
              && r.value.values.value.Keys == (set i | 0 <= i < |t.enumerants| :: t.enumerants[i].value)
              && forall i :: 0 <= i < |t.enumerants| ==> r.value.values.value[t.enumerants[i].value] == t.enumerants[i].name)
  {
    DefaultBuildIsDefaultModel(kind, t, filterObjectMatches, handlers, implements, objectMembers);
  }

  /**
   * Handlers are consulted only for the collections the type's gates let through: two sets of
   * handlers that agree on those build the same model.
   */
  lemma UnusedHandlersIgnored(kind: TypeKind, t: TypeDescriptor, filterObjectMatches: bool, h1: Handlers, h2: Handlers,
                              implements: (TypeKind, Capability) -> bool, objectMembers: seq<MemberInfo>)
    requires BuildsConstructors(t) ==> h1.constructorHandler == h2.constructorHandler
    requires BuildsFields(t) ==> h1.fieldHandler == h2.fieldHandler
    requires BuildsProperties(t) ==> h1.propertyHandler == h2.propertyHandler
    requires BuildsMethods(t) ==> h1.methodHandler == h2.methodHandler
    requires BuildsEnumValues(t) ==> h1.enumValueHandler == h2.enumValueHandler
    ensures BuildTypeModelAs(kind, t, filterObjectMatches, h1, implements, objectMembers)
         == BuildTypeModelAs(kind, t, filterObjectMatches, h2, implements, objectMembers)
  {
  }

  /**
   * A caller-supplied method handler replaces the default: for a type that is not an
   * enumeration the method step runs last, so the built model is what the caller's handler
   * makes of the model the earlier steps produced (the build with a handler that keeps its
   * model) and the kept method models, in the model's own class.
   */
  lemma CustomMethodHandlerReplacesDefault(kind: TypeKind, t: TypeDescriptor, filterObjectMatches: bool, handlers: Handlers,
                                           implements: (TypeKind, Capability) -> bool, objectMembers: seq<MemberInfo>,
                                           h: Handler<seq<MethodModel>>)
    requires !t.isEnum && handlers.methodHandler == Some(h)
    ensures var noop := handlers.(methodHandler := Some((m: TypeModel, _: seq<MethodModel>) => m));
      var before := BuildTypeModelAs(kind, t, filterObjectMatches, noop, implements, objectMembers);
      && before.Success?
      && BuildTypeModelAs(kind, t, filterObjectMatches, handlers, implements, objectMembers)
         == Success(h(before.value, MethodModels(NewTypeBuilderState(kind, t, filterObjectMatches), objectMembers)).(kind := kind))
  {
    var noop := handlers.(methodHandler := Some((m: TypeModel, _: seq<MethodModel>) => m));
    var state := NewTypeBuilderState(kind, t, filterObjectMatches);
    var m1 := if BuildsConstructors(t) then BuildConstructors(state, handlers.constructorHandler, implements, objectMembers) else state.model;
    var m2 := if BuildsFields(t) then BuildFields(state.(model := m1), handlers.fieldHandler, implements, objectMembers) else m1;
    var m3 := if BuildsProperties(t) then BuildProperties(state.(model := m2), handlers.propertyHandler, implements, objectMembers) else m2;
    assert m3.kind == kind;
    assert BuildTypeModelAs(kind, t, filterObjectMatches, noop, implements, objectMembers) == Success(m3);
    assert BuildTypeModelAs(kind, t, filterObjectMatches, handlers, implements, objectMembers)
        == Success(h(m3, MethodModels(state, objectMembers)).(kind := kind));
  }

  /**
   * A caller-supplied enumeration-value handler replaces the default: for an enumeration
   * without repeated values the value step runs last, so the built model is what the caller's
   * handler makes of the model the earlier steps produced (the build with a handler that keeps
   * its model) and the value map, in the model's own class.
   */
  lemma CustomEnumValueHandlerReplacesDefault(kind: TypeKind, t: TypeDescriptor, filterObjectMatches: bool, handlers: Handlers,
                                              implements: (TypeKind, Capability) -> bool, objectMembers: seq<MemberInfo>,
                                              h: Handler<map<int, string>>)
    requires t.isEnum && DistinctValues(t.enumerants) && handlers.enumValueHandler == Some(h)
    ensures var noop := handlers.(enumValueHandler := Some((m: TypeModel, _: map<int, string>) => m));
      var before := BuildTypeModelAs(kind, t, filterObjectMatches, noop, implements, objectMembers);
      && before.Success?
      && BuildTypeModelAs(kind, t, filterObjectMatches, handlers, implements, objectMembers)
         == Success(h(before.value, EnumValueMap(t.enumerants).value).(kind := kind))
  {
    var noop := handlers.(enumValueHandler := Some((m: TypeModel, _: map<int, string>) => m));
    var state := NewTypeBuilderState(kind, t, filterObjectMatches);
    var m2 := if BuildsFields(t) then BuildFields(state, handlers.fieldHandler, implements, objectMembers) else state.model;
    assert m2.kind == kind;
    assert BuildTypeModelAs(kind, t, filterObjectMatches, noop, implements, objectMembers) == Success(m2);
    assert BuildTypeModelAs(kind, t, filterObjectMatches, handlers, implements, objectMembers)
        == Success(h(m2, EnumValueMap(t.enumerants).value).(kind := kind));
  }

  // ---------------------------------------------------------------- graduated namespaces

  /** What the string builder holds after the loop has appended `segments`. */
  ghost function Accumulated(segments: seq<string>): string
  {
    if segments == [] then ""
    else
      var before := Accumulated(segments[..|segments| - 1]);
      (if |before| > 0 then before + "." else before) + segments[|segments| - 1]
  }

  /** One more segment: the builder gains a dot, unless it is still empty, and then the segment. */
  lemma AccumulatedSnoc(init: seq<string>, last: string)
    ensures var before := Accumulated(init);
      Accumulated(init + [last]) == (if |before| > 0 then before + "." else before) + last
  {
    assert (init + [last])[..|init + [last]| - 1] == init;
  }

  /** Unless it begins with an empty segment, the builder holds the segments joined by dots. */
  lemma {:induction false} AccumulatedIsJoin(segments: seq<string>)
    requires |segments| >= 1
    requires segments[0] != "" || |segments| == 1
    ensures Accumulated(segments) == Join(segments, '.')
  {
    var init := segments[..|segments| - 1];
    var last := segments[|segments| - 1];
    assert init + [last] == segments;
    AccumulatedSnoc(init, last);
    if |segments| == 1 {
      assert init == [];
    } else {
      assert init[0] == segments[0];
      AccumulatedIsJoin(init);
      JoinStartsWithFirst(init, '.');
      assert |Accumulated(init)| > 0;
      JoinAppend(init, last, '.');
    }
  }

  /**
   * The cumulative prefixes of the type's namespace: one entry per dot-separated segment, each
   * entry a prefix of the next; when the namespace does not begin with a dot, entry `k` is the
   * first `k + 1` segments joined by dots and the last entry is the namespace itself. A type
   * outside every namespace makes `Split` throw.
   */
  method BuildGraduatedNamespaces(t: TypeDescriptor) returns (r: Result<seq<string>, BuildError>)
    ensures r.Failure? <==> t.namespace.None?
    ensures r.Failure? ==> r.error == NullNamespace
    ensures r.Success? ==> |r.value| == |Split(t.namespace.value, '.')| == Count(t.namespace.value, '.') + 1
    ensures r.Success? ==> forall k :: 0 <= k < |r.value| - 1 ==> r.value[k] <= r.value[k + 1]
    ensures r.Success? && !(|t.namespace.value| > 0 && t.namespace.value[0] == '.') ==>
      && (forall k :: 0 <= k < |r.value| ==> r.value[k] == Join(Split(t.namespace.value, '.')[..k + 1], '.'))
      && r.value[|r.value| - 1] == t.namespace.value
  {
    if t.namespace.None? {
      return Failure(NullNamespace);
    }
    var segments := Split(t.namespace.value, '.');
    var graduated: seq<string> := [];
    var builder: string := "";
    var i := 0;
    while i < |segments|
      invariant 0 <= i <= |segments|
      invariant builder == Accumulated(segments[..i])
      invariant |graduated| == i
      invariant forall k :: 0 <= k < i ==> graduated[k] == Accumulated(segments[..k + 1])
    {
      assert segments[..i + 1][..i] == segments[..i];
      if |builder| > 0 {
        builder := builder + ".";
      }
      builder := builder + segments[i];
      graduated := graduated + [builder];
      i := i + 1;
    }
    forall k | 0 <= k < |graduated| - 1
      ensures graduated[k] <= graduated[k + 1]
    {
      assert segments[..k + 2][..k + 1] == segments[..k + 1];
    }
    var ns := t.namespace.value;
    if !(|ns| > 0 && ns[0] == '.') {
      forall k | 0 <= k < |graduated|
        ensures graduated[k] == Join(segments[..k + 1], '.')
      {
        AccumulatedIsJoin(segments[..k + 1]);
      }
      assert segments[..|graduated|] == segments;
    }
    return Success(graduated);
  }
}
