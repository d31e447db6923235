/** A node of the namespace tree: child namespaces and the type models declared in it. */
module NamespaceModels {
  import opened Wrappers
  import opened Models

  /**
   * The static type argument `TModel` of `Add<TModel>`: one of the four registered model
   * classes, or any other type model class (the base class itself or a further subclass).
   */
  datatype ModelClass = ClassModelClass | InterfaceModelClass | StructModelClass | EnumModelClass | OtherModelClass

  /** The binder table: which list a static model class is appended to, if any. */
  function ModelBinder(c: ModelClass): (slot: Option<TypeKind>)
    ensures slot.None? <==> c == OtherModelClass
  {
    match c
    case ClassModelClass => Some(ClassKind)
    case InterfaceModelClass => Some(InterfaceKind)
    case StructModelClass => Some(StructKind)
    case EnumModelClass => Some(EnumKind)
    case OtherModelClass => None
  }

  class NamespaceModel {
    var namespaceName: Option<string>
    var namespaces: seq<NamespaceModel>
    var interfaces: seq<TypeModel>
    var classes: seq<TypeModel>
    var enums: seq<TypeModel>
    var structs: seq<TypeModel>

    /** Each type list holds only models of its own class. */
    ghost predicate Valid()
      reads this
    {
      && (forall i :: 0 <= i < |interfaces| ==> interfaces[i].kind == InterfaceKind)
      && (forall i :: 0 <= i < |classes| ==> classes[i].kind == ClassKind)
      && (forall i :: 0 <= i < |enums| ==> enums[i].kind == EnumKind)
      && (forall i :: 0 <= i < |structs| ==> structs[i].kind == StructKind)
    }

    /** The child namespaces, in the order they were added. */
    function Namespaces(): (r: seq<NamespaceModel>)
      reads this
      ensures r == namespaces
    {
      namespaces
    }

    /** The list the binder table fills for `InterfaceKind`; in a valid node it holds only such models. */
    function Interfaces(): (r: seq<TypeModel>)
      reads this
      ensures r == TypesOf(InterfaceKind)
      ensures Valid() ==> forall i :: 0 <= i < |r| ==> r[i].kind == InterfaceKind
    {
      interfaces
    }

    /** The list the binder table fills for `ClassKind`; in a valid node it holds only such models. */
    function Classes(): (r: seq<TypeModel>)
      reads this
      ensures r == TypesOf(ClassKind)
      ensures Valid() ==> forall i :: 0 <= i < |r| ==> r[i].kind == ClassKind
    {
      classes
    }

    /** The list the binder table fills for `EnumKind`; in a valid node it holds only such models. */
    function Enums(): (r: seq<TypeModel>)
      reads this
      ensures r == TypesOf(EnumKind)
      ensures Valid() ==> forall i :: 0 <= i < |r| ==> r[i].kind == EnumKind
    {
      enums
    }

    /** The list the binder table fills for `StructKind`; in a valid node it holds only such models. */
    function Structs(): (r: seq<TypeModel>)
      reads this
      ensures r == TypesOf(StructKind)
      ensures Valid() ==> forall i :: 0 <= i < |r| ==> r[i].kind == StructKind
    {
      structs
    }

    /** The model's list of the given class. */
    function TypesOf(kind: TypeKind): seq<TypeModel>
      reads this
    {
      match kind
      case InterfaceKind => interfaces
      case ClassKind => classes
      case EnumKind => enums
      case StructKind => structs
    }

    constructor ()
      ensures Valid()
      ensures namespaceName == None
      ensures Namespaces() == [] && Interfaces() == [] && Classes() == [] && Enums() == [] && Structs() == []
    {
      namespaceName := None;
      namespaces := [];
      interfaces := [];
      classes := [];
      enums := [];
      structs := [];
    }

    /** `Add(NamespaceModel)`: appends a child namespace; the type lists do not change. */
    method AddNamespace(child: NamespaceModel)
      requires Valid()
      modifies this
      ensures Valid()
      ensures Namespaces() == old(Namespaces()) + [child]
      ensures Interfaces() == old(Interfaces()) && Classes() == old(Classes())
      ensures Enums() == old(Enums()) && Structs() == old(Structs())
      ensures namespaceName == old(namespaceName)
    {
      namespaces := namespaces + [child];
    }

    /**
     * `Add<TModel>(model)`: appends the model to the list the binder table names for its
     * static class, without looking for an earlier copy; every other list stays as it was, and
     * a class missing from the table changes nothing. The model is taken to be of the class the
     * table names for its static class: the four registered model classes are modelled as
     * unrelated, so a subclass of one of them is not an instance of another.
     */
    method AddModel(staticClass: ModelClass, model: TypeModel)
      requires Valid()
      requires ModelBinder(staticClass).Some? ==> model.kind == ModelBinder(staticClass).value
      modifies this
      ensures Valid()
      ensures forall kind :: TypesOf(kind) == (if ModelBinder(staticClass) == Some(kind) then old(TypesOf(kind)) + [model] else old(TypesOf(kind)))
      ensures Namespaces() == old(Namespaces())
      ensures namespaceName == old(namespaceName)
    {
      var binder := ModelBinder(staticClass);
      match binder
      case None =>
      case Some(ClassKind) => classes := classes + [model];
      case Some(InterfaceKind) => interfaces := interfaces + [model];
      case Some(StructKind) => structs := structs + [model];
      case Some(EnumKind) => enums := enums + [model];
    }
  }

  /**
   * Adding the same class model twice lists it twice, and adding through an unregistered
   * static class leaves the node as it was.
   */
  method AddTwiceThenUnregistered(model: TypeModel) returns (node: NamespaceModel)
    requires model.kind == ClassKind
    ensures node.Valid()
    ensures node.Classes() == [model, model]
    ensures node.Namespaces() == [] && node.Interfaces() == [] && node.Enums() == [] && node.Structs() == []
  {
    node := new NamespaceModel();
    node.AddModel(ClassModelClass, model);
    node.AddModel(ClassModelClass, model);
    assert node.TypesOf(ClassKind) == [model, model];
    node.AddModel(OtherModelClass, model);
    assert node.TypesOf(ClassKind) == [model, model];
    assert node.TypesOf(InterfaceKind) == [] && node.TypesOf(EnumKind) == [] && node.TypesOf(StructKind) == [];
  }
}
