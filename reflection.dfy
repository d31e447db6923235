/**
 * Runtime type introspection, as data. A type descriptor records what the builder asks of a
 * `System.Type`: its classification flags, its names, and the member lists that the reflection
 * calls return, in the order they return them.
 */
module Reflection {
  import opened Wrappers

  /** `MemberInfo.MemberType`. */
  datatype MemberType = ConstructorMember | EventMember | FieldMember | MethodMember | PropertyMember | NestedTypeMember

  /**
   * A member as reflection reports it. The builder compares members on their kind, their
   * declaring type (by identity, here its full name) and their name; `signature` stands for
   * everything else a member carries (parameters, return type), which that comparison ignores.
   */
  datatype MemberInfo = MemberInfo(memberType: MemberType, declaringType: string, name: string, signature: string)

  /** One named constant of an enumeration and its backing integer. */
  datatype Enumerant = Enumerant(value: int, name: string)

  /**
   * A type descriptor. `members`, `fields`, `properties` and `methods` are what `GetMembers`,
   * `GetFields`, `GetProperties` and `GetMethods` return for public instance and static members;
   * `enumerants` are the defined constants of an enumeration. `namespace` is `None` for a type
   * declared outside every namespace, where reflection answers null.
   */
  datatype TypeDescriptor = TypeDescriptor(
    name: string,
    fullName: string,
    namespace: Option<string>,
    isEnum: bool,
    isInterface: bool,
    isClass: bool,
    isValueType: bool,
    isPrimitive: bool,
    members: seq<MemberInfo>,
    fields: seq<MemberInfo>,
    properties: seq<MemberInfo>,
    methods: seq<MemberInfo>,
    enumerants: seq<Enumerant>)

  /** The full name reflection gives the universal base type. */
  const ObjectTypeName: string := "System.Object"

  /**
   * The flags of a real runtime type fit together: an enumeration is a value type, an
   * interface is neither a class nor a value type, a class is not a value type, and a
   * primitive type is a value type that is not an enumeration.
   */
  predicate Consistent(t: TypeDescriptor)
  {
    && (t.isEnum ==> t.isValueType && !t.isClass && !t.isInterface && !t.isPrimitive)
    && (t.isInterface ==> !t.isClass && !t.isValueType)
    && (t.isClass ==> !t.isValueType)
    && (t.isPrimitive ==> t.isValueType)
  }
}
