/** Plain-value stand-ins for the Roslyn symbols and syntax nodes the generator queries.
    Only the facts the generator reads are kept: a type's special type, type kind and
    display strings, a member's kind, override flag and attribute renderings, a class
    declaration's identifier, modifiers and attributes, and the base-type chain. */
module Symbols {

  datatype Option<+T> = None | Some(value: T)

  /** Roslyn's SpecialType: which well-known runtime type a type symbol is, if any.
      The enumeration members the generator does not name are kept as `OtherSpecialType`. */
  datatype SpecialType =
    | NotSpecial
    | SystemObject | SystemBoolean | SystemChar
    | SystemSByte | SystemByte | SystemInt16 | SystemUInt16
    | SystemInt32 | SystemUInt32 | SystemInt64 | SystemUInt64
    | SystemSingle | SystemDouble | SystemString
    | SystemDecimal | SystemIntPtr | SystemUIntPtr | SystemDateTime
    | SystemVoid | SystemEnum | SystemValueType | SystemArray
    | OtherSpecialType(id: nat)

  /** Roslyn's TypeKind. An array type carries its element type, as IArrayTypeSymbol does. */
  datatype TypeKind =
    | ArrayType(element: TypeDesc)
    | ClassType | StructType | InterfaceType | EnumType | DelegateType
    | ErrorType | TypeParameterType | DynamicType | PointerType
    | FunctionPointerType | ModuleType | SubmissionType | UnknownType

  /** A type symbol: `display` is its ToString(), `originalDefinition` the ToString() of its
      OriginalDefinition (for a constructed generic type, the unconstructed one). */
  datatype TypeDesc = TypeDesc(
    special: SpecialType,
    kind: TypeKind,
    display: string,
    originalDefinition: string)

  /** Roslyn's SymbolKind, with the declared type attached to a field. */
  datatype SymbolKind =
    | FieldSymbol(fieldType: TypeDesc)
    | PropertySymbol
    | MethodSymbol
    | EventSymbol
    | NamedTypeSymbol

  /** A member symbol; `attributes` holds the ToString() of each of its AttributeData. */
  datatype Member = Member(
    name: string,
    kind: SymbolKind,
    isOverride: bool,
    attributes: seq<string>)

  /** A named type symbol with its own members (GetMembers() order) and its base type.
      The base-type chain is finite by construction. */
  datatype NamedType = NamedType(
    name: string,
    members: seq<Member>,
    baseType: Option<NamedType>)

  /** The declared symbol of a class: its named type, the Name of its containing
      namespace ("" for the global namespace) and its ToString() display. */
  datatype ClassSymbol = ClassSymbol(
    namedType: NamedType,
    containingNamespace: string,
    display: string)

  /** A class declaration node: identifier, modifier tokens in source order and the
      fully qualified names of the attributes applied to it. */
  datatype ClassDecl = ClassDecl(
    identifier: string,
    modifiers: seq<string>,
    attributes: seq<string>)

  /** A syntax node that an attribute can be applied to. */
  datatype SyntaxNode =
    | ClassDeclaration(decl: ClassDecl)
    | OtherDeclaration(attributes: seq<string>)

  /** What FieldBuilder reads from a field symbol. */
  datatype FieldInfo = FieldInfo(name: string, fieldType: TypeDesc)
}
