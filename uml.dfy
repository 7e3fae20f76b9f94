/**
 * The model elements the generator reads, as plain values, and the
 * generation options. The host application owns the real elements; what its
 * repository queries would return is carried here as fields.
 */
module Uml {

  /** The visibility marker of an attribute or operation; package visibility maps to no Ruby section. */
  datatype VisibilityKind = VkPublic | VkProtected | VkPrivate | VkPackage

  datatype Attribute = Attribute(
    name: string,
    visibility: VisibilityKind,
    isStatic: bool,
    isReadOnly: bool,
    defaultValue: string,
    documentation: string)

  /** `parameters` holds the names of the non-return parameters, in declared order. */
  datatype Operation = Operation(
    name: string,
    visibility: VisibilityKind,
    parameters: seq<string>,
    documentation: string)

  /** The identity the generator compares association ends against (`===` on elements). */
  type ElementId = nat

  /** A class or an interface. */
  datatype Classifier = Classifier(
    id: ElementId,
    name: string,
    stereotype: string,
    documentation: string,
    attributes: seq<Attribute>,
    operations: seq<Operation>)

  /**
   * One end of an association: the element at that end (its identity, its
   * name and the dotted path of the package holding it) and whether the end
   * is navigable.
   */
  datatype AssociationEnd = AssociationEnd(
    reference: ElementId,
    referenceName: string,
    referencePackage: string,
    navigable: bool)

  datatype Association = Association(end1: AssociationEnd, end2: AssociationEnd)

  /** A realized interface: its name and the dotted path of the package holding it. */
  datatype InterfaceRef = InterfaceRef(name: string, packagePath: string)

  /**
   * What the repository answers about one class: the names of the targets of
   * its generalizations, the interfaces it realizes, and every association
   * touching it, each in the repository's order.
   */
  datatype Relationships = Relationships(
    superClasses: seq<string>,
    interfaces: seq<InterfaceRef>,
    associations: seq<Association>)

  /** The generator options the renderer consults. */
  datatype Options = Options(
    useTab: bool,
    indentSpaces: int,
    initializeMethod: bool,
    toStringMethod: bool,
    documentation: bool)
}
