/**
 * What each rendering method of the Ruby generator appends to the writer,
 * as a list of lines. Every function takes the indent unit `u` and the
 * depth `d` of the writer's indentation stack when the method is called;
 * a non-empty line at depth `k` is `k` copies of `u` followed by its text
 * (`LineAt`), an empty line is empty at any depth.
 *
 * Collections are walked by prefix (`xs, k` stands for the first `k` items
 * of `xs`), the same way the generator's loops walk them.
 */
module RubyText {
  import opened Wrappers
  import opened JsBuiltins
  import opened Uml
  import opened CodeGeneratorUtils

  /** The three visibility strings `getVisibility` can return. */
  datatype Visibility = Public | Protected | Private

  /**
   * Behaviour the generator calls that none of its files defines:
   * `codeWriter.toCamelCase`, and the comparison `lines > 1` of an array of
   * documentation lines with a number, which converts the array to a
   * number. The conversion of an array of two or more strings is never
   * greater than one, so only a one-item array asks `numberExceedsOne`.
   */
  datatype Runtime = Runtime(toCamelCase: string -> string, numberExceedsOne: string -> bool)

  /** `getVisibility`: the Ruby section of a visibility kind, none for package visibility. */
  function GetVisibility(k: VisibilityKind): (r: Option<Visibility>)
    ensures r == None <==> k == VkPackage
    ensures r == Some(Public) <==> k == VkPublic
    ensures r == Some(Protected) <==> k == VkProtected
    ensures r == Some(Private) <==> k == VkPrivate
  {
    match k
    case VkPublic => Some(Public)
    case VkProtected => Some(Protected)
    case VkPrivate => Some(Private)
    case VkPackage => None
  }

  /** The label line of a visibility section. */
  function VisibilityName(v: Visibility): string
  {
    match v
    case Public => "public"
    case Protected => "protected"
    case Private => "private"
  }

  // ----- counting -----

  /**
   * Whether `countAttributeByVisibility` counts `a` in bucket `v`: public
   * and private count only instance attributes, protected counts statics
   * too.
   */
  predicate CountedIn(a: Attribute, v: Visibility)
  {
    var vis := GetVisibility(a.visibility);
    match v
    case Public => vis == Some(Public) && !a.isStatic
    case Protected => vis == Some(Protected)
    case Private => vis == Some(Private) && !a.isStatic
  }

  /** Bucket `v` of `countAttributeByVisibility` over the first `k` attributes. */
  function AttributeCount(attrs: seq<Attribute>, k: nat, v: Visibility): nat
    requires k <= |attrs|
    decreases k
  {
    if k == 0 then 0
    else AttributeCount(attrs, k - 1, v) + (if CountedIn(attrs[k - 1], v) then 1 else 0)
  }

  /** `countStaticAttribute` over the first `k` attributes. */
  function StaticCount(attrs: seq<Attribute>, k: nat): nat
    requires k <= |attrs|
    decreases k
  {
    if k == 0 then 0
    else StaticCount(attrs, k - 1) + (if attrs[k - 1].isStatic then 1 else 0)
  }

  /** Bucket `v` of `countMethodByVisibility` over the first `k` operations. */
  function OperationCount(ops: seq<Operation>, k: nat, v: Visibility): nat
    requires k <= |ops|
    decreases k
  {
    if k == 0 then 0
    else OperationCount(ops, k - 1, v) + (if GetVisibility(ops[k - 1].visibility) == Some(v) then 1 else 0)
  }

  // ----- indentation -----

  /** What `getIndentString` returns: a tab, or `indentSpaces` spaces (none when it is not positive). */
  function IndentStringFor(o: Options): string
  {
    if o.useTab then "\t" else Repeat(" ", if o.indentSpaces > 0 then o.indentSpaces as nat else 0)
  }

  // ----- documentation -----

  /** The guard `lines > 1` of `writeDocumentation`. */
  predicate ExceedsOne(lines: seq<string>, rt: Runtime)
  {
    |lines| == 1 && rt.numberExceedsOne(lines[0])
  }

  /** One ` line` comment continuation per item, for the first `k` items. */
  function SpacedLines(ls: seq<string>, k: nat, u: string, d: nat): seq<string>
    requires k <= |ls|
    decreases k
  {
    if k == 0 then [] else SpacedLines(ls, k - 1, u, d) + [LineAt(u, d, " " + ls[k - 1])]
  }

  /** `writeDocumentation`: nothing unless documentation is on and the trimmed text is non-empty. */
  function DocumentationLines(text: string, o: Options, rt: Runtime, u: string, d: nat): seq<string>
  {
    if o.documentation && |Trim(text)| > 0 then
      var ls := Split(Trim(text), '\n');
      if ExceedsOne(ls, rt) then [LineAt(u, d, "#")] + SpacedLines(ls, |ls|, u, d)
      else [LineAt(u, d, "# " + ls[0])]
    else []
  }

  // ----- attribute accessors -----

  /** Whether `writeAttributeAccessor(v)` looks at `a`: an instance attribute of visibility `v`. */
  predicate AccessorSelected(a: Attribute, v: Visibility)
  {
    GetVisibility(a.visibility) == Some(v) && !a.isStatic
  }

  /** Names of the selected attributes among the first `k` whose read-only flag is `readOnly`. */
  function AccessorNames(attrs: seq<Attribute>, k: nat, v: Visibility, readOnly: bool): seq<string>
    requires k <= |attrs|
    decreases k
  {
    if k == 0 then []
    else
      AccessorNames(attrs, k - 1, v, readOnly)
      + (if AccessorSelected(attrs[k - 1], v) && attrs[k - 1].isReadOnly == readOnly then [attrs[k - 1].name] else [])
  }

  /** Ruby symbols `:name` for a list of names. */
  function Symbols(names: seq<string>): (r: seq<string>)
    ensures |r| == |names|
  {
    if names == [] then [] else Symbols(names[..|names| - 1]) + [":" + names[|names| - 1]]
  }

  /** The documentation of each selected attribute among the first `k`, in order. */
  function AccessorDocLines(attrs: seq<Attribute>, k: nat, v: Visibility, o: Options, rt: Runtime, u: string, d: nat): seq<string>
    requires k <= |attrs|
    decreases k
  {
    if k == 0 then []
    else
      AccessorDocLines(attrs, k - 1, v, o, rt, u, d)
      + (if AccessorSelected(attrs[k - 1], v) then DocumentationLines(attrs[k - 1].documentation, o, rt, u, d) else [])
  }

  /** `keyword :a, :b` for a non-empty list of names, nothing for an empty one. */
  function AccessorDeclaration(keyword: string, names: seq<string>, u: string, d: nat): seq<string>
  {
    if names == [] then [] else [LineAt(u, d, keyword + " " + Join(Symbols(names), ", "))]
  }

  /** `writeAttributeAccessor(v)`: the documentation, then the accessor line, then the reader line. */
  function AttributeAccessorLines(v: Visibility, attrs: seq<Attribute>, o: Options, rt: Runtime, u: string, d: nat): seq<string>
  {
    AccessorDocLines(attrs, |attrs|, v, o, rt, u, d)
    + AccessorDeclaration("attr_accessor", AccessorNames(attrs, |attrs|, v, false), u, d)
    + AccessorDeclaration("attr_reader", AccessorNames(attrs, |attrs|, v, true), u, d)
  }

  // ----- static attributes -----

  /** `writeConstant` over the first `k` attributes: the read-only statics. */
  function ConstantLines(attrs: seq<Attribute>, k: nat, u: string, d: nat): seq<string>
    requires k <= |attrs|
    decreases k
  {
    if k == 0 then []
    else
      var a := attrs[k - 1];
      ConstantLines(attrs, k - 1, u, d)
      + (if a.isReadOnly && a.isStatic then
           [LineAt(u, d, a.name + " = " + a.defaultValue)]
           + (if GetVisibility(a.visibility) == Some(Private) then [LineAt(u, d, "private_constant :" + a.name)] else [])
         else [])
  }

  /** `writeClassVariable` over the first `k` attributes: the mutable statics. */
  function ClassVariableLines(attrs: seq<Attribute>, k: nat, u: string, d: nat): seq<string>
    requires k <= |attrs|
    decreases k
  {
    if k == 0 then []
    else
      var a := attrs[k - 1];
      ClassVariableLines(attrs, k - 1, u, d)
      + (if !a.isReadOnly && a.isStatic then [LineAt(u, d, "@@" + a.name + " = " + a.defaultValue)] else [])
  }

  // ----- constructor -----

  /** Names of the instance attributes among the first `k`. */
  function InstanceNames(attrs: seq<Attribute>, k: nat): seq<string>
    requires k <= |attrs|
    decreases k
  {
    if k == 0 then []
    else InstanceNames(attrs, k - 1) + (if !attrs[k - 1].isStatic then [attrs[k - 1].name] else [])
  }

  /** One `@n = n` line per instance attribute among the first `k`. */
  function FieldAssignments(attrs: seq<Attribute>, k: nat, u: string, d: nat): seq<string>
    requires k <= |attrs|
    decreases k
  {
    if k == 0 then []
    else
      FieldAssignments(attrs, k - 1, u, d)
      + (if !attrs[k - 1].isStatic then [LineAt(u, d, "@" + attrs[k - 1].name + " = " + attrs[k - 1].name)] else [])
  }

  /** One `@x = X.new` line per associated member among the first `k`. */
  function AssociationInitializers(names: seq<string>, k: nat, rt: Runtime, u: string, d: nat): seq<string>
    requires k <= |names|
    decreases k
  {
    if k == 0 then []
    else AssociationInitializers(names, k - 1, rt, u, d) + [LineAt(u, d, "@" + names[k - 1] + " = " + rt.toCamelCase(names[k - 1]) + ".new")]
  }

  /** `writeConstructor`, given the names `getClassAssociation` returns. */
  function ConstructorLines(c: Classifier, associated: seq<string>, rt: Runtime, u: string, d: nat): seq<string>
  {
    if |c.name| > 0 then
      [LineAt(u, d, "def initialize(" + Join(InstanceNames(c.attributes, |c.attributes|), ", ") + ")")]
      + FieldAssignments(c.attributes, |c.attributes|, u, d + 1)
      + AssociationInitializers(associated, |associated|, rt, u, d + 1)
      + [LineAt(u, d, "end")]
    else []
  }

  // ----- methods -----

  const TodoLine := "# TODO(person name): Implement this method here."

  /** `def name`, followed by `(p1, p2)` when the operation has parameters. */
  function MethodHeader(op: Operation): string
  {
    "def " + op.name + (if op.parameters == [] then "" else "(" + Join(op.parameters, ", ") + ")")
  }

  /** One method stub: its documentation, the header, the indented TODO line and `end`. */
  function StubLines(op: Operation, o: Options, rt: Runtime, u: string, d: nat): seq<string>
  {
    DocumentationLines(op.documentation, o, rt, u, d)
    + [LineAt(u, d, MethodHeader(op)), LineAt(u, d + 1, TodoLine), LineAt(u, d, "end")]
  }

  /**
   * What `writeMethod(v)` writes for operation `i`: its stub when it has
   * visibility `v`, followed by an empty line unless it is the last
   * operation of the whole list.
   */
  function MethodEntryLines(v: Visibility, ops: seq<Operation>, i: nat, o: Options, rt: Runtime, u: string, d: nat): seq<string>
    requires i < |ops|
  {
    if GetVisibility(ops[i].visibility) == Some(v) then StubLines(ops[i], o, rt, u, d) + (if i != |ops| - 1 then [""] else [])
    else []
  }

  /** `writeMethod(v)` over the first `k` operations. */
  function MethodLines(v: Visibility, ops: seq<Operation>, k: nat, o: Options, rt: Runtime, u: string, d: nat): seq<string>
    requires k <= |ops|
    decreases k
  {
    if k == 0 then [] else MethodLines(v, ops, k - 1, o, rt, u, d) + MethodEntryLines(v, ops, k - 1, o, rt, u, d)
  }

  // ----- sections -----

  /** The accessors of visibility `v` followed by an empty line, when there are attributes of that bucket. */
  function SectionAttributeLines(v: Visibility, attrs: seq<Attribute>, o: Options, rt: Runtime, u: string, d: nat): seq<string>
  {
    if AttributeCount(attrs, |attrs|, v) > 0 then AttributeAccessorLines(v, attrs, o, rt, u, d) + [""] else []
  }

  /** The stubs of visibility `v` one level below `d`, when there are operations of that bucket. */
  function SectionMethodLines(v: Visibility, ops: seq<Operation>, o: Options, rt: Runtime, u: string, d: nat): seq<string>
  {
    if OperationCount(ops, |ops|, v) > 0 then MethodLines(v, ops, |ops|, o, rt, u, d + 1) else []
  }

  /** A section whose label sits at depth `d`: the label, the accessors one level in, the stubs one level in. */
  function SectionBody(v: Visibility, c: Classifier, o: Options, rt: Runtime, u: string, d: nat): seq<string>
  {
    [LineAt(u, d, VisibilityName(v))]
    + SectionAttributeLines(v, c.attributes, o, rt, u, d + 1)
    + SectionMethodLines(v, c.operations, o, rt, u, d)
  }

  /**
   * The protected or private part of `writeMethodByVisibility`: present when
   * the bucket has attributes or operations, with its label one level in.
   */
  function SectionLines(v: Visibility, c: Classifier, o: Options, rt: Runtime, u: string, d: nat): seq<string>
  {
    if AttributeCount(c.attributes, |c.attributes|, v) > 0 || OperationCount(c.operations, |c.operations|, v) > 0 then
      SectionBody(v, c, o, rt, u, d + 1)
    else []
  }

  /** `writeMethodByVisibility`: public stubs one level in, then the protected and the private section. */
  function MethodByVisibilityLines(c: Classifier, o: Options, rt: Runtime, u: string, d: nat): seq<string>
  {
    SectionMethodLines(Public, c.operations, o, rt, u, d)
    + SectionLines(Protected, c, o, rt, u, d)
    + SectionLines(Private, c, o, rt, u, d)
  }

  // ----- associations -----

  /** A `require_relative` for a file stem, inside its package directory when there is one. */
  function RequireText(packageStem: string, fileStem: string, inModule: bool): string
  {
    if packageStem != "" then "require_relative '" + packageStem + "/" + fileStem + ".rb'"
    else if inModule then "require_relative '../" + fileStem + ".rb'"
    else "require_relative '" + fileStem + ".rb'"
  }

  /** The `require_relative` line for the element at the far end of an association. */
  function EndRequire(e: AssociationEnd, inModule: bool): string
  {
    RequireText(CodeWriter.FileName(e.referencePackage), CodeWriter.FileName(e.referenceName), inModule)
  }

  /** Whether the element `id` sits at end 1 with a navigable end 2. */
  predicate ReachesEnd2(id: ElementId, a: Association)
  {
    a.end1.reference == id && a.end2.navigable
  }

  /** Whether the element `id` sits at end 2 with a navigable end 1. */
  predicate ReachesEnd1(id: ElementId, a: Association)
  {
    a.end2.reference == id && a.end1.navigable
  }

  /** The require lines of `writeAssociation` over the first `k` associations. */
  function AssociationRequires(id: ElementId, assocs: seq<Association>, k: nat, inModule: bool, u: string, d: nat): seq<string>
    requires k <= |assocs|
    decreases k
  {
    if k == 0 then []
    else
      var a := assocs[k - 1];
      AssociationRequires(id, assocs, k - 1, inModule, u, d)
      + (if ReachesEnd2(id, a) then [LineAt(u, d, EndRequire(a.end2, inModule))] else [])
      + (if ReachesEnd1(id, a) then [LineAt(u, d, EndRequire(a.end1, inModule))] else [])
  }

  /** `writeAssociation`: the require lines, then an empty line when there is any association at all. */
  function AssociationLines(id: ElementId, assocs: seq<Association>, inModule: bool, u: string, d: nat): seq<string>
  {
    AssociationRequires(id, assocs, |assocs|, inModule, u, d) + (if |assocs| > 0 then [""] else [])
  }

  /** `getClassAssociation` over the first `k` associations: the file stems of the reachable ends. */
  function ClassAssociation(id: ElementId, assocs: seq<Association>, k: nat): seq<string>
    requires k <= |assocs|
    decreases k
  {
    if k == 0 then []
    else
      var a := assocs[k - 1];
      ClassAssociation(id, assocs, k - 1)
      + (if ReachesEnd2(id, a) then [CodeWriter.FileName(a.end2.referenceName)] else [])
      + (if ReachesEnd1(id, a) then [CodeWriter.FileName(a.end1.referenceName)] else [])
  }

  // ----- to_s, interface, class -----

  const ToStringBody := "\"Your string representation of the object will be written here.\""

  /** `writeToStringMethod`: it leaves the writer one level deeper than it found it. */
  function ToStringLines(u: string, d: nat): seq<string>
  {
    [LineAt(u, d + 1, "def to_s"), LineAt(u, d + 2, ToStringBody), LineAt(u, d + 1, "end")]
  }

  /** `writeInterface`: a Ruby module holding the method stubs. */
  function InterfaceLines(c: Classifier, o: Options, rt: Runtime, u: string, d: nat): seq<string>
  {
    [LineAt(u, d, "module " + c.name)] + MethodByVisibilityLines(c, o, rt, u, d) + [LineAt(u, d, "end")]
  }

  /** The depth after one `outdent`. */
  function Outdented(depth: nat): nat
  {
    if depth > 0 then depth - 1 else 0
  }

  /** The depth at which `writeClass` writes its final `end`, and leaves the writer. */
  function ClassEndDepth(o: Options, d: nat): nat
  {
    if o.toStringMethod then d else Outdented(d)
  }

  /** `class Name`, with `< Super` for the first superclass when there is one. */
  function ClassHeader(name: string, superClasses: seq<string>): string
  {
    "class " + name + (if |superClasses| > 0 then " < " + superClasses[0] else "")
  }

  /** The require lines for the first superclass and the first interface, the documentation and the header. */
  function ClassPreambleLines(c: Classifier, rel: Relationships, o: Options, rt: Runtime, u: string, d: nat): seq<string>
  {
    (if |rel.superClasses| > 0 then [LineAt(u, d, RequireText("", CodeWriter.FileName(rel.superClasses[0]), false)), ""] else [])
    + (if |rel.interfaces| > 0 then
         [LineAt(u, d, RequireText(CodeWriter.FileName(rel.interfaces[0].packagePath), CodeWriter.FileName(rel.interfaces[0].name), false)), ""]
       else [])
    + DocumentationLines(c.documentation, o, rt, u, d)
    + [LineAt(u, d, ClassHeader(c.name, rel.superClasses))]
  }

  /** The `include` of the first realized interface, followed by an empty line. */
  function IncludeLines(interfaces: seq<InterfaceRef>, u: string, d: nat): seq<string>
  {
    if |interfaces| > 0 then [LineAt(u, d, "include " + interfaces[0].name), ""] else []
  }

  /** The accessor line for the associated members, followed by an empty line, when there are any. */
  function AssociationAccessorLines(associated: seq<string>, u: string, d: nat): seq<string>
  {
    if |associated| > 0 then AccessorDeclaration("attr_accessor", associated, u, d) + [""] else []
  }

  /**
   * The public accessors, followed by an empty line only when there are no
   * statics, then the constants and class variables followed by an empty line
   * when there are statics.
   */
  function ClassAttributeLines(attrs: seq<Attribute>, o: Options, rt: Runtime, u: string, d: nat): seq<string>
  {
    var staticCount := StaticCount(attrs, |attrs|);
    (if AttributeCount(attrs, |attrs|, Public) > 0 then
       AttributeAccessorLines(Public, attrs, o, rt, u, d) + (if staticCount == 0 then [""] else [])
     else [])
    + (if staticCount > 0 then ConstantLines(attrs, |attrs|, u, d) + ClassVariableLines(attrs, |attrs|, u, d) + [""] else [])
  }

  /** The constructor followed by an empty line, when `initializeMethod` is on. */
  function InitializeLines(c: Classifier, associated: seq<string>, o: Options, rt: Runtime, u: string, d: nat): seq<string>
  {
    if o.initializeMethod then ConstructorLines(c, associated, rt, u, d) + [""] else []
  }

  /**
   * The part of `writeClass` written one level in: the `include`, the
   * association accessors, the public accessors, the statics and the
   * constructor, each block followed by an empty line.
   */
  function ClassBodyLines(c: Classifier, rel: Relationships, o: Options, rt: Runtime, u: string, d: nat): seq<string>
  {
    var associated := ClassAssociation(c.id, rel.associations, |rel.associations|);
    IncludeLines(rel.interfaces, u, d + 1)
    + AssociationAccessorLines(associated, u, d + 1)
    + ClassAttributeLines(c.attributes, o, rt, u, d + 1)
    + InitializeLines(c, associated, o, rt, u, d + 1)
  }

  /** `writeClass`. */
  function ClassLines(c: Classifier, rel: Relationships, o: Options, rt: Runtime, u: string, d: nat): seq<string>
  {
    ClassPreambleLines(c, rel, o, rt, u, d)
    + ClassBodyLines(c, rel, o, rt, u, d)
    + MethodByVisibilityLines(c, o, rt, u, d)
    + (if o.toStringMethod then ToStringLines(u, d) else [])
    + [LineAt(u, ClassEndDepth(o, d), "end")]
  }

  // ----- files -----

  /** Whether `getPackageName` gave a truthy module name. */
  predicate HasModule(moduleName: Option<string>)
  {
    moduleName.Some? && moduleName.value != ""
  }

  /**
   * The lines of the file generated for a class: with a module name, the
   * association requires (relative to the module directory), the package
   * documentation and the class inside `module M ... end`.
   */
  function ClassFileLines(c: Classifier, rel: Relationships, moduleName: Option<string>, packageDocumentation: string,
                          o: Options, rt: Runtime, u: string): seq<string>
  {
    if HasModule(moduleName) then
      AssociationLines(c.id, rel.associations, true, u, 0)
      + DocumentationLines(packageDocumentation, o, rt, u, 0)
      + [LineAt(u, 0, "module " + moduleName.value)]
      + ClassLines(c, rel, o, rt, u, 1)
      + [LineAt(u, Outdented(ClassEndDepth(o, 1)), "end")]
    else
      AssociationLines(c.id, rel.associations, false, u, 0) + ClassLines(c, rel, o, rt, u, 0)
  }

  /** A file the generator would write: its path and its content. */
  datatype GeneratedFile = GeneratedFile(path: string, content: string)

  /** `basePath/<file stem>.rb`. */
  function OutputPath(basePath: string, name: string): string
  {
    basePath + "/" + CodeWriter.FileName(name) + ".rb"
  }
}
