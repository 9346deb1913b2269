/**
 * The design-time declaration of one page input (an ArgumentContent), as a
 * closed sum over the kinds the page generator distinguishes, together with
 * the external helpers the generator calls but whose code is not modelled.
 */
module Arguments {
  import opened Wrappers

  /** An object type (a DataObjectDefinition), reduced to its name and the path of its owner module. */
  datatype ObjectDef = ObjectDef(name: string, ownerPath: string)

  /**
   * The element argument of an array: its precise data element class, the
   * constructor expression of its data element type, and the object type
   * it refers to when the element argument is an object argument.
   */
  datatype Payload = Payload(eltName: string, typeNameWithArgument: string, target: Option<ObjectDef>)

  /** The kinds of argument the generator treats differently. */
  datatype Kind =
    | Plain                       // any argument that is neither an object, a node tree nor an array
    | Object(definition: ObjectDef)
    | NodeTree
    | Array(payload: Payload)

  /**
   * One page argument: its name, the precise data element class it
   * materialises into (`getPreciseDataEltName`), the Java type of the raw
   * constructor parameter (`getType`), and its kind.
   */
  datatype Argument = Argument(name: string, eltName: string, typeName: string, kind: Kind)

  /**
   * The helpers the generator calls whose code is not modelled:
   * `StringFormatter.formatForJavaClass`, `StringFormatter.formatForAttribute`,
   * Java's `String.toLowerCase`, and the lines `ArgumentContent.writeImports`
   * writes for an argument inside a module with the given path.
   */
  datatype Externals = Externals(
    javaClass: string -> string,
    attribute: string -> string,
    lowerCase: string -> string,
    writeImports: (Argument, string) -> seq<string>)

  /**
   * The object type whose class the generated code refers to for this
   * argument: the object of an object argument, or that of the element of
   * an array whose element is an object argument.
   */
  function ReferencedObject(a: Argument): (r: Option<ObjectDef>)
    ensures r.Some? ==> a.kind.Object? || (a.kind.Array? && a.kind.payload.target == r)
    ensures a.kind.Object? ==> r == Some(a.kind.definition)
    ensures a.kind.Plain? || a.kind.NodeTree? ==> r.None?
  {
    match a.kind
    case Object(d) => Some(d)
    case Array(p) => p.target
    case _ => None
  }

  /** True when the argument refers to an object type owned by a module other than the one at `modulePath`. */
  predicate IsCrossModule(a: Argument, modulePath: string)
  {
    ReferencedObject(a).Some? && ReferencedObject(a).value.ownerPath != modulePath
  }

  predicate IsArray(a: Argument)
  {
    a.kind.Array?
  }
}
