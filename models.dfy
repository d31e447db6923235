/** The documentation model of one type and of its members. */
module Models {
  import opened Wrappers

  /** The four model classes a type can become. */
  datatype TypeKind = EnumKind | InterfaceKind | ClassKind | StructKind

  /** The `IHave...` interfaces through which the default handlers store a collection. */
  datatype Capability = HaveConstructors | HaveFields | HaveProperties | HaveMethods | HaveEnumValues

  datatype ConstructorModel = ConstructorModel
  datatype FieldModel = FieldModel(name: string)
  datatype PropertyModel = PropertyModel(name: string)
  datatype MethodModel = MethodModel(name: string)

  /**
   * A type model. `kind` is the runtime class of the model object; a collection is `None`
   * while the builder has not assigned it.
   */
  datatype TypeModel = TypeModel(
    kind: TypeKind,
    name: string,
    fullName: string,
    namespace: Option<string>,
    constructors: Option<seq<ConstructorModel>>,
    fields: Option<seq<FieldModel>>,
    properties: Option<seq<PropertyModel>>,
    methods: Option<seq<MethodModel>>,
    values: Option<map<int, string>>)
}
