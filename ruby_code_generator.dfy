/**
 * The rendering methods of the Ruby generator (ruby-code-generator.js),
 * step by step against a `CodeWriter`. Each one is proved to append exactly
 * the lines its `RubyText` function describes, at the depth the writer had
 * when it was called, and to leave the indentation stack as stated.
 *
 * The host's repository queries are inputs: the association list of the
 * element, its superclass names, its interfaces and its package name.
 */
module RubyCodeGenerator {
  import opened Wrappers
  import opened JsBuiltins
  import opened Uml
  import opened CodeGeneratorUtils
  import opened RubyText

  /** `getIndentString`: a tab, or one space pushed per unit of `indentSpaces`. */
  method GetIndentString(options: Options) returns (indent: string)
    ensures indent == IndentStringFor(options)
    ensures options.useTab ==> indent == "\t"
    ensures !options.useTab ==> |indent| == (if options.indentSpaces > 0 then options.indentSpaces else 0)
    ensures !options.useTab ==> forall i | 0 <= i < |indent| :: indent[i] == ' '
  {
    if options.useTab {
      return "\t";
    }
    var parts: seq<string> := [];
    var length := options.indentSpaces;
    var i := 0;
    while i < length
      invariant 0 <= i <= (if length > 0 then length else 0)
      invariant |parts| == i
      invariant forall j | 0 <= j < |parts| :: parts[j] == " "
    {
      parts := parts + [" "];
      i := i + 1;
    }
    ConcatOfCopies(parts, " ");
    RepeatSpaces(|parts|);
    indent := Concat(parts);
  }

  /** `countAttributeByVisibility`: the public, protected and private buckets. */
  method CountAttributeByVisibility(element: Classifier) returns (publicCount: nat, protectedCount: nat, privateCount: nat)
    ensures publicCount == AttributeCount(element.attributes, |element.attributes|, Public)
    ensures protectedCount == AttributeCount(element.attributes, |element.attributes|, Protected)
    ensures privateCount == AttributeCount(element.attributes, |element.attributes|, Private)
  {
    publicCount, protectedCount, privateCount := 0, 0, 0;
    var len := |element.attributes|;
    for i := 0 to len
      invariant publicCount == AttributeCount(element.attributes, i, Public)
      invariant protectedCount == AttributeCount(element.attributes, i, Protected)
      invariant privateCount == AttributeCount(element.attributes, i, Private)
    {
      var elementVisibility := GetVisibility(element.attributes[i].visibility);
      if elementVisibility == Some(Public) && !element.attributes[i].isStatic {
        publicCount := publicCount + 1;
      } else if elementVisibility == Some(Protected) {
        protectedCount := protectedCount + 1;
      } else if elementVisibility == Some(Private) && !element.attributes[i].isStatic {
        privateCount := privateCount + 1;
      }
    }
  }

  /** `countStaticAttribute`. */
  method CountStaticAttribute(element: Classifier) returns (staticCount: nat)
    ensures staticCount == StaticCount(element.attributes, |element.attributes|)
  {
    staticCount := 0;
    var len := |element.attributes|;
    for i := 0 to len
      invariant staticCount == StaticCount(element.attributes, i)
    {
      if element.attributes[i].isStatic {
        staticCount := staticCount + 1;
      }
    }
  }

  /** `countMethodByVisibility`: the public, protected and private buckets. */
  method CountMethodByVisibility(element: Classifier) returns (publicCount: nat, protectedCount: nat, privateCount: nat)
    ensures publicCount == OperationCount(element.operations, |element.operations|, Public)
    ensures protectedCount == OperationCount(element.operations, |element.operations|, Protected)
    ensures privateCount == OperationCount(element.operations, |element.operations|, Private)
  {
    publicCount, protectedCount, privateCount := 0, 0, 0;
    var len := |element.operations|;
    for i := 0 to len
      invariant publicCount == OperationCount(element.operations, i, Public)
      invariant protectedCount == OperationCount(element.operations, i, Protected)
      invariant privateCount == OperationCount(element.operations, i, Private)
    {
      var methodVisibility := GetVisibility(element.operations[i].visibility);
      if methodVisibility == Some(Public) {
        publicCount := publicCount + 1;
      } else if methodVisibility == Some(Protected) {
        protectedCount := protectedCount + 1;
      } else if methodVisibility == Some(Private) {
        privateCount := privateCount + 1;
      }
    }
  }

  /** `getClassAssociation`, given the associations touching `element`. */
  method GetClassAssociation(element: Classifier, associations: seq<Association>) returns (classAssociations: seq<string>)
    ensures classAssociations == ClassAssociation(element.id, associations, |associations|)
  {
    classAssociations := [];
    for i := 0 to |associations|
      invariant classAssociations == ClassAssociation(element.id, associations, i)
    {
      var association := associations[i];
      if association.end1.reference == element.id && association.end2.navigable {
        classAssociations := classAssociations + [CodeWriter.FileName(association.end2.referenceName)];
      }
      if association.end2.reference == element.id && association.end1.navigable {
        classAssociations := classAssociations + [CodeWriter.FileName(association.end1.referenceName)];
      }
    }
  }

  /** `writeAssociation`, given the associations touching `element`. */
  method WriteAssociation(w: CodeWriter, element: Classifier, associations: seq<Association>, isInModule: bool)
    requires w.Valid()
    modifies w
    ensures w.Valid() && w.indentString == old(w.indentString) && w.indentations == old(w.indentations)
    ensures w.lines == old(w.lines) + AssociationLines(element.id, associations, isInModule, w.indentString, |w.indentations|)
  {
    ghost var u, d := w.indentString, |w.indentations|;
    for i := 0 to |associations|
      invariant w.Valid() && w.indentString == u && w.indentations == old(w.indentations)
      invariant w.lines == old(w.lines) + AssociationRequires(element.id, associations, i, isInModule, u, d)
    {
      ghost var l0 := w.lines;
      ghost var r := AssociationRequires(element.id, associations, i, isInModule, u, d);
      var association := associations[i];
      ghost var e2 := if ReachesEnd2(element.id, association) then [LineAt(u, d, EndRequire(association.end2, isInModule))] else [];
      ghost var e1 := if ReachesEnd1(element.id, association) then [LineAt(u, d, EndRequire(association.end1, isInModule))] else [];
      if association.end1.reference == element.id && association.end2.navigable {
        WriteRequire(w, association.end2, isInModule);
      }
      assert w.lines == l0 + e2;
      ghost var l1 := w.lines;
      if association.end2.reference == element.id && association.end1.navigable {
        WriteRequire(w, association.end1, isInModule);
      }
      assert w.lines == l1 + e1;
      AppendAssoc(old(w.lines), r, e2);
      AppendAssoc(old(w.lines), r + e2, e1);
    }
    ghost var l2 := w.lines;
    if |associations| > 0 {
      w.WriteLine("");
    }
    assert w.lines == l2 + (if |associations| > 0 then [""] else []);
  }

  /** One `require_relative` line of `writeAssociation`, for the element at the far end. */
  method WriteRequire(w: CodeWriter, end: AssociationEnd, isInModule: bool)
    requires w.Valid()
    modifies w
    ensures w.Valid() && w.indentString == old(w.indentString) && w.indentations == old(w.indentations)
    ensures w.lines == old(w.lines) + [LineAt(w.indentString, |w.indentations|, EndRequire(end, isInModule))]
  {
    var packageName := CodeWriter.FileName(end.referencePackage);
    var fileName := CodeWriter.FileName(end.referenceName);
    if packageName != "" {
      w.WriteLine("require_relative '" + packageName + "/" + fileName + ".rb'");
    } else if isInModule {
      w.WriteLine("require_relative '../" + fileName + ".rb'");
    } else {
      w.WriteLine("require_relative '" + fileName + ".rb'");
    }
  }

  /** `writeDocumentation`. */
  method WriteDocumentation(w: CodeWriter, text: string, options: Options, rt: Runtime)
    requires w.Valid()
    modifies w
    ensures w.Valid() && w.indentString == old(w.indentString) && w.indentations == old(w.indentations)
    ensures w.lines == old(w.lines) + DocumentationLines(text, options, rt, w.indentString, |w.indentations|)
  {
    ghost var u, d := w.indentString, |w.indentations|;
    if options.documentation && |Trim(text)| > 0 {
      var lines := Split(Trim(text), '\n');
      if ExceedsOne(lines, rt) {
        w.WriteLine("#");
        for i := 0 to |lines|
          invariant w.Valid() && w.indentString == u && w.indentations == old(w.indentations)
          invariant w.lines == old(w.lines) + [LineAt(u, d, "#")] + SpacedLines(lines, i, u, d)
        {
          w.WriteLine(" " + lines[i]);
        }
      } else {
        w.WriteLine("# " + lines[0]);
      }
    }
  }

  /**
   * The first line `writeConstructor` writes: the terms `def initialize(`,
   * then each instance attribute's name followed by `, `, with the last
   * separator popped, joined and closed by `)`.
   */
  method InitializeHeader(element: Classifier) returns (header: string)
    ensures header == "def initialize(" + Join(InstanceNames(element.attributes, |element.attributes|), ", ") + ")"
  {
    var terms: seq<string> := [];
    var len := |element.attributes|;
    terms := terms + ["def initialize("];
    for i := 0 to len
      invariant terms == ["def initialize("] + Interleave(InstanceNames(element.attributes, i), ", ")
    {
      ghost var names := InstanceNames(element.attributes, i);
      if !element.attributes[i].isStatic {
        assert InstanceNames(element.attributes, i + 1) == names + [element.attributes[i].name];
        InterleaveSnoc(names, element.attributes[i].name, ", ");
        terms := terms + [element.attributes[i].name];
        terms := terms + [", "];
        assert terms == ["def initialize("] + Interleave(names, ", ") + [element.attributes[i].name, ", "];
        AppendAssoc(["def initialize("], Interleave(names, ", "), [element.attributes[i].name, ", "]);
      } else {
        assert InstanceNames(element.attributes, i + 1) == names;
      }
    }
    PrefixedPushPopJoin("def initialize(", InstanceNames(element.attributes, len), ", ");
    if |terms| > 1 {
      terms := terms[..|terms| - 1];
    }
    header := Concat(terms) + ")";
  }

  /** `writeConstructor`, given the associations touching `element`. */
  method WriteConstructor(w: CodeWriter, element: Classifier, associations: seq<Association>, rt: Runtime)
    requires w.Valid()
    modifies w
    ensures w.Valid() && w.indentString == old(w.indentString) && w.indentations == old(w.indentations)
    ensures w.lines == old(w.lines) + ConstructorLines(element, ClassAssociation(element.id, associations, |associations|), rt, w.indentString, |w.indentations|)
  {
    ghost var u, d := w.indentString, |w.indentations|;
    ghost var inner := old(w.indentations) + [u];
    if |element.name| > 0 {
      var attrs := element.attributes;
      var len := |attrs|;
      var header := InitializeHeader(element);
      w.WriteLine(header);
      ghost var a := [LineAt(u, d, header)];
      w.Indent();
      WriteFieldAssignments(w, attrs);
      ghost var f := FieldAssignments(attrs, len, u, d + 1);
      assert w.lines == old(w.lines) + a + f;
      var classAssociations := GetClassAssociation(element, associations);
      ghost var q := AssociationInitializers(classAssociations, |classAssociations|, rt, u, d + 1);
      if |classAssociations| > 0 {
        WriteAssociationInitializers(w, classAssociations, rt);
      } else {
        assert w.lines == w.lines + q;
      }
      assert w.lines == old(w.lines) + a + f + q;
      w.Outdent();
      assert w.indentations == old(w.indentations) by {
        assert inner[..|old(w.indentations)|] == old(w.indentations);
      }
      w.WriteLine("end");
      ghost var e := [LineAt(u, d, "end")];
      assert w.lines == old(w.lines) + a + f + q + e;
      AppendAssoc(old(w.lines), a, f);
      AppendAssoc(old(w.lines), a + f, q);
      AppendAssoc(old(w.lines), a + f + q, e);
    }
  }

  /** The `@name = name` lines of `writeConstructor`, one per instance attribute. */
  method WriteFieldAssignments(w: CodeWriter, attrs: seq<Attribute>)
    requires w.Valid()
    modifies w
    ensures w.Valid() && w.indentString == old(w.indentString) && w.indentations == old(w.indentations)
    ensures w.lines == old(w.lines) + FieldAssignments(attrs, |attrs|, w.indentString, |w.indentations|)
  {
    ghost var u, d := w.indentString, |w.indentations|;
    for i := 0 to |attrs|
      invariant w.Valid() && w.indentString == u && w.indentations == old(w.indentations)
      invariant w.lines == old(w.lines) + FieldAssignments(attrs, i, u, d)
    {
      if !attrs[i].isStatic {
        var line := "@" + attrs[i].name + " = " + attrs[i].name;
        w.WriteLine(line);
        AppendAssoc(old(w.lines), FieldAssignments(attrs, i, u, d), [LineAt(u, d, line)]);
      } else {
        assert FieldAssignments(attrs, i + 1, u, d) == FieldAssignments(attrs, i, u, d) + [];
      }
    }
  }

  /** The `@x = X.new` lines of `writeConstructor`, one per associated member. */
  method WriteAssociationInitializers(w: CodeWriter, classAssociations: seq<string>, rt: Runtime)
    requires w.Valid()
    modifies w
    ensures w.Valid() && w.indentString == old(w.indentString) && w.indentations == old(w.indentations)
    ensures w.lines == old(w.lines) + AssociationInitializers(classAssociations, |classAssociations|, rt, w.indentString, |w.indentations|)
  {
    ghost var u, d := w.indentString, |w.indentations|;
    for i := 0 to |classAssociations|
      invariant w.Valid() && w.indentString == u && w.indentations == old(w.indentations)
      invariant w.lines == old(w.lines) + AssociationInitializers(classAssociations, i, rt, u, d)
    {
      var line := "@" + classAssociations[i] + " = " + rt.toCamelCase(classAssociations[i]) + ".new";
      w.WriteLine(line);
      AppendAssoc(old(w.lines), AssociationInitializers(classAssociations, i, rt, u, d), [LineAt(u, d, line)]);
    }
  }

  /** `writeAttributeAccessor(visibility)`. */
  method WriteAttributeAccessor(visibility: Visibility, w: CodeWriter, element: Classifier, options: Options, rt: Runtime)
    requires w.Valid()
    modifies w
    ensures w.Valid() && w.indentString == old(w.indentString) && w.indentations == old(w.indentations)
    ensures w.lines == old(w.lines) + AttributeAccessorLines(visibility, element.attributes, options, rt, w.indentString, |w.indentations|)
  {
    ghost var u, d := w.indentString, |w.indentations|;
    var attrs := element.attributes;
    var len := |attrs|;
    var readerAttributeTerms, accessorAttributeTerms := WriteAccessorDocumentation(visibility, w, attrs, options, rt);
    WriteDeclaration(w, "attr_accessor", accessorAttributeTerms, AccessorNames(attrs, len, visibility, false));
    WriteDeclaration(w, "attr_reader", readerAttributeTerms, AccessorNames(attrs, len, visibility, true));
    ghost var docs := AccessorDocLines(attrs, len, visibility, options, rt, u, d);
    ghost var acc := AccessorDeclaration("attr_accessor", AccessorNames(attrs, len, visibility, false), u, d);
    ghost var rdr := AccessorDeclaration("attr_reader", AccessorNames(attrs, len, visibility, true), u, d);
    assert w.lines == old(w.lines) + docs + acc + rdr;
    AppendAssoc(old(w.lines), docs, acc);
    AppendAssoc(old(w.lines), docs + acc, rdr);
  }

  /**
   * The loop of `writeAttributeAccessor`: the documentation of each selected
   * attribute is written, and the reader and accessor terms are collected.
   */
  method WriteAccessorDocumentation(visibility: Visibility, w: CodeWriter, attrs: seq<Attribute>, options: Options, rt: Runtime)
    returns (readerAttributeTerms: seq<string>, accessorAttributeTerms: seq<string>)
    requires w.Valid()
    modifies w
    ensures w.Valid() && w.indentString == old(w.indentString) && w.indentations == old(w.indentations)
    ensures w.lines == old(w.lines) + AccessorDocLines(attrs, |attrs|, visibility, options, rt, w.indentString, |w.indentations|)
    ensures readerAttributeTerms == Interleave(Symbols(AccessorNames(attrs, |attrs|, visibility, true)), ", ")
    ensures accessorAttributeTerms == Interleave(Symbols(AccessorNames(attrs, |attrs|, visibility, false)), ", ")
  {
    ghost var u, d := w.indentString, |w.indentations|;
    readerAttributeTerms, accessorAttributeTerms := [], [];
    for i := 0 to |attrs|
      invariant w.Valid() && w.indentString == u && w.indentations == old(w.indentations)
      invariant w.lines == old(w.lines) + AccessorDocLines(attrs, i, visibility, options, rt, u, d)
      invariant readerAttributeTerms == AccessorTerms(attrs, i, visibility, true)
      invariant accessorAttributeTerms == AccessorTerms(attrs, i, visibility, false)
    {
      readerAttributeTerms, accessorAttributeTerms := VisitAccessorAttribute(visibility, w, attrs[i], options, rt, readerAttributeTerms, accessorAttributeTerms);
      AppendAssoc(old(w.lines), AccessorDocLines(attrs, i, visibility, options, rt, u, d),
                  if AccessorSelected(attrs[i], visibility) then DocumentationLines(attrs[i].documentation, options, rt, u, d) else []);
    }
    AccessorTermsInterleave(attrs, |attrs|, visibility, true);
    AccessorTermsInterleave(attrs, |attrs|, visibility, false);
  }

  /** The terms the loop of `writeAttributeAccessor` pushes for one declaration over the first `k` attributes. */
  ghost function AccessorTerms(attrs: seq<Attribute>, k: nat, v: Visibility, readOnly: bool): seq<string>
    requires k <= |attrs|
    decreases k
  {
    if k == 0 then []
    else
      AccessorTerms(attrs, k - 1, v, readOnly)
      + (if AccessorSelected(attrs[k - 1], v) && attrs[k - 1].isReadOnly == readOnly then [":" + attrs[k - 1].name, ", "] else [])
  }

  /** The pushed terms are the symbols of the selected names, each followed by a separator. */
  lemma {:induction false} AccessorTermsInterleave(attrs: seq<Attribute>, k: nat, v: Visibility, readOnly: bool)
    requires k <= |attrs|
    ensures AccessorTerms(attrs, k, v, readOnly) == Interleave(Symbols(AccessorNames(attrs, k, v, readOnly)), ", ")
  {
    if k > 0 {
      AccessorTermsInterleave(attrs, k - 1, v, readOnly);
      var a := attrs[k - 1];
      var names := AccessorNames(attrs, k - 1, v, readOnly);
      if AccessorSelected(a, v) && a.isReadOnly == readOnly {
        assert AccessorNames(attrs, k, v, readOnly) == names + [a.name];
        SymbolsSnoc(names, a.name);
        InterleaveSnoc(Symbols(names), ":" + a.name, ", ");
      } else {
        assert AccessorNames(attrs, k, v, readOnly) == names + [];
        assert names + [] == names;
        assert AccessorTerms(attrs, k, v, readOnly) == AccessorTerms(attrs, k - 1, v, readOnly) + [];
      }
    }
  }

  /**
   * One pass of the loop of `writeAttributeAccessor`: for an instance
   * attribute of the visibility, its documentation is written and its symbol
   * and a separator are pushed onto the reader or the accessor terms.
   */
  method VisitAccessorAttribute(visibility: Visibility, w: CodeWriter, a: Attribute, options: Options, rt: Runtime,
                                readerTerms: seq<string>, accessorTerms: seq<string>)
    returns (readerAttributeTerms: seq<string>, accessorAttributeTerms: seq<string>)
    requires w.Valid()
    modifies w
    ensures w.Valid() && w.indentString == old(w.indentString) && w.indentations == old(w.indentations)
    ensures w.lines == old(w.lines) + (if AccessorSelected(a, visibility) then DocumentationLines(a.documentation, options, rt, w.indentString, |w.indentations|) else [])
    ensures readerAttributeTerms == readerTerms + (if AccessorSelected(a, visibility) && a.isReadOnly then [":" + a.name, ", "] else [])
    ensures accessorAttributeTerms == accessorTerms + (if AccessorSelected(a, visibility) && !a.isReadOnly then [":" + a.name, ", "] else [])
  {
    readerAttributeTerms, accessorAttributeTerms := readerTerms, accessorTerms;
    var attributeVisibility := GetVisibility(a.visibility);
    if attributeVisibility == Some(visibility) && !a.isStatic {
      WriteDocumentation(w, a.documentation, options, rt);
      var symbol := ":" + a.name;
      if a.isReadOnly {
        PushTwo(readerAttributeTerms, symbol, ", ");
        readerAttributeTerms := readerAttributeTerms + [symbol];
        readerAttributeTerms := readerAttributeTerms + [", "];
      } else {
        PushTwo(accessorAttributeTerms, symbol, ", ");
        accessorAttributeTerms := accessorAttributeTerms + [symbol];
        accessorAttributeTerms := accessorAttributeTerms + [", "];
      }
    }
  }

  /**
   * The closing step shared by the accessor declarations: when anything was
   * pushed, pop the trailing separator and write `keyword` with the joined
   * terms.
   */
  method WriteDeclaration(w: CodeWriter, keyword: string, terms: seq<string>, ghost names: seq<string>)
    requires terms == Interleave(Symbols(names), ", ")
    requires w.Valid()
    modifies w
    ensures w.Valid() && w.indentString == old(w.indentString) && w.indentations == old(w.indentations)
    ensures w.lines == old(w.lines) + AccessorDeclaration(keyword, names, w.indentString, |w.indentations|)
  {
    var attributeTerms := terms;
    if |attributeTerms| > 1 {
      PushPopJoin(Symbols(names), ", ");
      attributeTerms := attributeTerms[..|attributeTerms| - 1];
      w.WriteLine(keyword + " " + Concat(attributeTerms));
    }
  }

  lemma {:induction false} SymbolsSnoc(names: seq<string>, x: string)
    ensures Symbols(names + [x]) == Symbols(names) + [":" + x]
  {
    assert (names + [x])[..|names|] == names;
  }

  /** `writeConstant`. */
  method WriteConstant(w: CodeWriter, element: Classifier)
    requires w.Valid()
    modifies w
    ensures w.Valid() && w.indentString == old(w.indentString) && w.indentations == old(w.indentations)
    ensures w.lines == old(w.lines) + ConstantLines(element.attributes, |element.attributes|, w.indentString, |w.indentations|)
  {
    ghost var u, d := w.indentString, |w.indentations|;
    var len := |element.attributes|;
    for i := 0 to len
      invariant w.Valid() && w.indentString == u && w.indentations == old(w.indentations)
      invariant w.lines == old(w.lines) + ConstantLines(element.attributes, i, u, d)
    {
      var a := element.attributes[i];
      if a.isReadOnly && a.isStatic {
        w.WriteLine(a.name + " = " + a.defaultValue);
        if GetVisibility(a.visibility) == Some(Private) {
          w.WriteLine("private_constant :" + a.name);
        }
      }
    }
  }

  /** `writeClassVariable`. */
  method WriteClassVariable(w: CodeWriter, element: Classifier)
    requires w.Valid()
    modifies w
    ensures w.Valid() && w.indentString == old(w.indentString) && w.indentations == old(w.indentations)
    ensures w.lines == old(w.lines) + ClassVariableLines(element.attributes, |element.attributes|, w.indentString, |w.indentations|)
  {
    ghost var u, d := w.indentString, |w.indentations|;
    var len := |element.attributes|;
    for i := 0 to len
      invariant w.Valid() && w.indentString == u && w.indentations == old(w.indentations)
      invariant w.lines == old(w.lines) + ClassVariableLines(element.attributes, i, u, d)
    {
      var a := element.attributes[i];
      if !a.isReadOnly && a.isStatic {
        w.WriteLine("@@" + a.name + " = " + a.defaultValue);
      }
    }
  }

  /** The terms `writeMethod` pushes for the first `j` parameters: each name, then `, ` or, after the last, `)`. */
  function ParameterTerms(ps: seq<string>, j: nat): seq<string>
    requires j <= |ps|
    decreases j
  {
    if j == 0 then [] else ParameterTerms(ps, j - 1) + [ps[j - 1], if j - 1 != |ps| - 1 then ", " else ")"]
  }

  /** Before the last parameter the terms are the names each followed by a separator. */
  lemma {:induction false} ParameterTermsBeforeLast(ps: seq<string>, j: nat)
    requires j < |ps|
    ensures ParameterTerms(ps, j) == Interleave(ps[..j], ", ")
  {
    if j > 0 {
      ParameterTermsBeforeLast(ps, j - 1);
      assert ps[..j] == ps[..j - 1] + [ps[j - 1]];
      InterleaveSnoc(ps[..j - 1], ps[j - 1], ", ");
    }
  }

  /** All the terms: the pushed pairs with the last separator replaced by `)`. */
  lemma {:induction false} ParameterTermsShape(ps: seq<string>)
    requires ps != []
    ensures ParameterTerms(ps, |ps|) == Interleave(ps, ", ")[..2 * |ps| - 1] + [")"]
  {
    var n := |ps|;
    ParameterTermsBeforeLast(ps, n - 1);
    InterleaveDropLast(ps, ", ");
  }

  /** Joined, the parameter terms are the parameter list and its closing parenthesis. */
  lemma {:induction false} ParameterTermsJoin(ps: seq<string>)
    requires ps != []
    ensures Concat(ParameterTerms(ps, |ps|)) == Join(ps, ", ") + ")"
  {
    var pairs := Interleave(ps, ", ")[..2 * |ps| - 1];
    ParameterTermsShape(ps);
    ConcatAppend(pairs, [")"]);
    ConcatPair(")", ")");
    PushPopJoin(ps, ", ");
  }

  /**
   * The header line of one stub in `writeMethod`: the terms `def name`,
   * then `(` and the parameter terms when there are parameters, joined.
   */
  method StubHeader(op: Operation) returns (header: string)
    ensures header == MethodHeader(op)
  {
    var terms: seq<string> := [];
    var parameters := op.parameters;
    var parametersLength := |parameters|;
    terms := terms + ["def " + op.name];
    if parametersLength != 0 {
      terms := terms + ["("];
      for j := 0 to parametersLength
        invariant terms == ["def " + op.name, "("] + ParameterTerms(parameters, j)
      {
        terms := terms + [parameters[j]];
        if j != parametersLength - 1 {
          terms := terms + [", "];
        } else {
          terms := terms + [")"];
        }
      }
      ParameterTermsJoin(parameters);
      ConcatAppend(["def " + op.name, "("], ParameterTerms(parameters, parametersLength));
    }
    ConcatPair("def " + op.name, "(");
    header := Concat(terms);
  }

  /** One stub of `writeMethod`: documentation, header, the indented TODO line, `end`. */
  method WriteStub(w: CodeWriter, op: Operation, options: Options, rt: Runtime)
    requires w.Valid()
    modifies w
    ensures w.Valid() && w.indentString == old(w.indentString) && w.indentations == old(w.indentations)
    ensures w.lines == old(w.lines) + StubLines(op, options, rt, w.indentString, |w.indentations|)
  {
    ghost var u := w.indentString;
    WriteDocumentation(w, op.documentation, options, rt);
    var header := StubHeader(op);
    w.WriteLine(header);
    w.Indent();
    w.WriteLine(TodoLine);
    w.Outdent();
    assert w.indentations == old(w.indentations) by {
      assert (old(w.indentations) + [u])[..|old(w.indentations)|] == old(w.indentations);
    }
    w.WriteLine("end");
    ghost var docs := DocumentationLines(op.documentation, options, rt, u, |old(w.indentations)|);
    ghost var h := LineAt(u, |old(w.indentations)|, MethodHeader(op));
    ghost var t := LineAt(u, |old(w.indentations)| + 1, TodoLine);
    ghost var e := LineAt(u, |old(w.indentations)|, "end");
    assert w.lines == old(w.lines) + docs + [h] + [t] + [e];
    PushTwo(old(w.lines) + docs, h, t);
    assert w.lines == old(w.lines) + docs + [h, t] + [e];
    assert [h, t] + [e] == [h, t, e];
    AppendAssoc(old(w.lines) + docs, [h, t], [e]);
    AppendAssoc(old(w.lines), docs, [h, t, e]);
  }

  /** `writeMethod(visibility)`. */
  method WriteMethod(visibility: Visibility, w: CodeWriter, element: Classifier, options: Options, rt: Runtime)
    requires w.Valid()
    modifies w
    ensures w.Valid() && w.indentString == old(w.indentString) && w.indentations == old(w.indentations)
    ensures w.lines == old(w.lines) + MethodLines(visibility, element.operations, |element.operations|, options, rt, w.indentString, |w.indentations|)
  {
    ghost var u, d := w.indentString, |w.indentations|;
    var ops := element.operations;
    var len := |ops|;
    for i := 0 to len
      invariant w.Valid() && w.indentString == u && w.indentations == old(w.indentations)
      invariant w.lines == old(w.lines) + MethodLines(visibility, ops, i, options, rt, u, d)
    {
      ghost var l0 := w.lines;
      var methodVisibility := GetVisibility(ops[i].visibility);
      if methodVisibility == Some(visibility) {
        WriteStub(w, ops[i], options, rt);
        if i != len - 1 {
          w.WriteLine("");
          AppendAssoc(l0, StubLines(ops[i], options, rt, u, d), [""]);
        } else {
          assert w.lines == l0 + (StubLines(ops[i], options, rt, u, d) + []);
        }
      } else {
        assert w.lines == l0 + [];
      }
      assert w.lines == l0 + MethodEntryLines(visibility, ops, i, options, rt, u, d);
      AppendAssoc(old(w.lines), MethodLines(visibility, ops, i, options, rt, u, d), MethodEntryLines(visibility, ops, i, options, rt, u, d));
    }
  }

  /**
   * The protected or private part of `writeMethodByVisibility`, given the
   * bucket's attribute and operation counts.
   */
  method WriteSection(visibility: Visibility, w: CodeWriter, element: Classifier, options: Options, rt: Runtime,
                      attributeLength: nat, methodLength: nat)
    requires attributeLength == AttributeCount(element.attributes, |element.attributes|, visibility)
    requires methodLength == OperationCount(element.operations, |element.operations|, visibility)
    requires w.Valid()
    modifies w
    ensures w.Valid() && w.indentString == old(w.indentString) && w.indentations == old(w.indentations)
    ensures w.lines == old(w.lines) + SectionLines(visibility, element, options, rt, w.indentString, |w.indentations|)
  {
    ghost var u, d := w.indentString, |w.indentations|;
    if attributeLength > 0 || methodLength > 0 {
      ghost var section := SectionBody(visibility, element, options, rt, u, d + 1);
      assert SectionLines(visibility, element, options, rt, u, d) == section;
      w.Indent();
      WriteSectionContent(visibility, w, element, options, rt, attributeLength, methodLength);
      assert w.lines == old(w.lines) + section;
      w.Outdent();
      assert w.indentations == old(w.indentations) by {
        assert (old(w.indentations) + [u])[..|old(w.indentations)|] == old(w.indentations);
      }
    } else {
      assert SectionLines(visibility, element, options, rt, u, d) == [];
      assert w.lines == old(w.lines) + [];
    }
  }

  /** A protected or private section written at its label's depth: the label, the accessors one level in, the stubs. */
  method WriteSectionContent(visibility: Visibility, w: CodeWriter, element: Classifier, options: Options, rt: Runtime,
                             attributeLength: nat, methodLength: nat)
    requires attributeLength == AttributeCount(element.attributes, |element.attributes|, visibility)
    requires methodLength == OperationCount(element.operations, |element.operations|, visibility)
    requires w.Valid()
    modifies w
    ensures w.Valid() && w.indentString == old(w.indentString) && w.indentations == old(w.indentations)
    ensures w.lines == old(w.lines) + SectionBody(visibility, element, options, rt, w.indentString, |w.indentations|)
  {
    ghost var u, d := w.indentString, |w.indentations|;
    w.WriteLine(VisibilityName(visibility));
    ghost var heading := [LineAt(u, d, VisibilityName(visibility))];
    w.Indent();
    WriteSectionAttributes(visibility, w, element, options, rt, attributeLength);
    ghost var acc := SectionAttributeLines(visibility, element.attributes, options, rt, u, d + 1);
    assert w.lines == old(w.lines) + heading + acc;
    w.Outdent();
    assert w.indentations == old(w.indentations) by {
      assert (old(w.indentations) + [u])[..|old(w.indentations)|] == old(w.indentations);
    }
    WriteMethodBlock(visibility, w, element, options, rt, methodLength);
    ghost var ms := SectionMethodLines(visibility, element.operations, options, rt, u, d);
    assert w.lines == old(w.lines) + heading + acc + ms;
    AppendAssoc(old(w.lines), heading, acc);
    AppendAssoc(old(w.lines), heading + acc, ms);
  }

  /** The accessors of a protected or private section, followed by an empty line, when the bucket has attributes. */
  method WriteSectionAttributes(visibility: Visibility, w: CodeWriter, element: Classifier, options: Options, rt: Runtime,
                                attributeLength: nat)
    requires attributeLength == AttributeCount(element.attributes, |element.attributes|, visibility)
    requires w.Valid()
    modifies w
    ensures w.Valid() && w.indentString == old(w.indentString) && w.indentations == old(w.indentations)
    ensures w.lines == old(w.lines) + SectionAttributeLines(visibility, element.attributes, options, rt, w.indentString, |w.indentations|)
  {
    if attributeLength > 0 {
      WriteAttributeAccessor(visibility, w, element, options, rt);
      w.WriteLine("");
      AppendAssoc(old(w.lines), AttributeAccessorLines(visibility, element.attributes, options, rt, w.indentString, |w.indentations|), [""]);
    } else {
      assert w.lines == old(w.lines) + [];
    }
  }

  /** The stubs of one visibility, written one level further in, when the bucket has operations. */
  method WriteMethodBlock(visibility: Visibility, w: CodeWriter, element: Classifier, options: Options, rt: Runtime,
                          methodLength: nat)
    requires methodLength == OperationCount(element.operations, |element.operations|, visibility)
    requires w.Valid()
    modifies w
    ensures w.Valid() && w.indentString == old(w.indentString) && w.indentations == old(w.indentations)
    ensures w.lines == old(w.lines) + SectionMethodLines(visibility, element.operations, options, rt, w.indentString, |w.indentations|)
  {
    ghost var u := w.indentString;
    if methodLength > 0 {
      w.Indent();
      WriteMethod(visibility, w, element, options, rt);
      w.Outdent();
      assert w.indentations == old(w.indentations) by {
        assert (old(w.indentations) + [u])[..|old(w.indentations)|] == old(w.indentations);
      }
    } else {
      assert w.lines == old(w.lines) + [];
    }
  }

  /** `writeMethodByVisibility`: it leaves the indentation stack as it found it. */
  method WriteMethodByVisibility(w: CodeWriter, element: Classifier, options: Options, rt: Runtime)
    requires w.Valid()
    modifies w
    ensures w.Valid() && w.indentString == old(w.indentString) && w.indentations == old(w.indentations)
    ensures w.lines == old(w.lines) + MethodByVisibilityLines(element, options, rt, w.indentString, |w.indentations|)
  {
    ghost var u, d := w.indentString, |w.indentations|;
    var _, protectedAttributeLength, privateAttributeLength := CountAttributeByVisibility(element);
    var publicMethodLength, protectedMethodLength, privateMethodLength := CountMethodByVisibility(element);
    WriteMethodBlock(Public, w, element, options, rt, publicMethodLength);
    ghost var pub := SectionMethodLines(Public, element.operations, options, rt, u, d);
    WriteSection(Protected, w, element, options, rt, protectedAttributeLength, protectedMethodLength);
    ghost var prot := SectionLines(Protected, element, options, rt, u, d);
    WriteSection(Private, w, element, options, rt, privateAttributeLength, privateMethodLength);
    ghost var priv := SectionLines(Private, element, options, rt, u, d);
    assert w.lines == old(w.lines) + pub + prot + priv;
    AppendAssoc(old(w.lines), pub, prot);
    AppendAssoc(old(w.lines), pub + prot, priv);
  }

  /** `writeToStringMethod`: it indents twice and outdents once, leaving the writer one level deeper. */
  method WriteToStringMethod(w: CodeWriter)
    requires w.Valid()
    modifies w
    ensures w.Valid() && w.indentString == old(w.indentString)
    ensures w.indentations == old(w.indentations) + [w.indentString]
    ensures w.lines == old(w.lines) + ToStringLines(w.indentString, |old(w.indentations)|)
  {
    ghost var u := w.indentString;
    w.Indent();
    w.WriteLine("def to_s");
    w.Indent();
    w.WriteLine(ToStringBody);
    w.Outdent();
    assert w.indentations == old(w.indentations) + [u] by {
      assert (old(w.indentations) + [u] + [u])[..|old(w.indentations)| + 1] == old(w.indentations) + [u];
    }
    w.WriteLine("end");
  }

  /** `writeInterface`. */
  method WriteInterface(w: CodeWriter, element: Classifier, options: Options, rt: Runtime)
    requires w.Valid()
    modifies w
    ensures w.Valid() && w.indentString == old(w.indentString) && w.indentations == old(w.indentations)
    ensures w.lines == old(w.lines) + InterfaceLines(element, options, rt, w.indentString, |w.indentations|)
  {
    ghost var u, d := w.indentString, |w.indentations|;
    var terms: seq<string> := [];
    terms := terms + ["module"];
    terms := terms + [element.name];
    assert Join(terms, " ") == "module " + element.name by {
      assert terms[1..] == [element.name];
    }
    w.WriteLine(Join(terms, " "));
    WriteMethodByVisibility(w, element, options, rt);
    w.WriteLine("end");
    ghost var a := [LineAt(u, d, "module " + element.name)];
    ghost var m := MethodByVisibilityLines(element, options, rt, u, d);
    ghost var b := [LineAt(u, d, "end")];
    assert w.lines == old(w.lines) + a + m + b;
    AppendAssoc(old(w.lines), a, m);
    AppendAssoc(old(w.lines), a + m, b);
  }

  /** The words of a class header joined by spaces make `ClassHeader`. */
  lemma {:induction false} ClassHeaderWords(name: string, superClasses: seq<string>)
    ensures Join(["class", name] + (if |superClasses| > 0 then ["< " + superClasses[0]] else []), " ") == ClassHeader(name, superClasses)
  {
    var terms := ["class", name] + (if |superClasses| > 0 then ["< " + superClasses[0]] else []);
    if |superClasses| > 0 {
      assert terms[1..] == [name, "< " + superClasses[0]];
      assert terms[1..][1..] == ["< " + superClasses[0]];
      assert Join(terms[1..], " ") == name + " " + ("< " + superClasses[0]);
    } else {
      assert terms[1..] == [name];
    }
  }

  /** The header line of `writeClass`: the terms `class`, the name and `< Super` for the first superclass, joined by spaces. */
  method ClassHeaderLine(name: string, inheritance: seq<string>) returns (header: string)
    ensures header == ClassHeader(name, inheritance)
  {
    var terms: seq<string> := [];
    terms := terms + ["class"];
    terms := terms + [name];
    if |inheritance| > 0 {
      terms := terms + ["< " + inheritance[0]];
    }
    assert terms == ["class", name] + (if |inheritance| > 0 then ["< " + inheritance[0]] else []);
    ClassHeaderWords(name, inheritance);
    header := Join(terms, " ");
  }

  /** The require of the first superclass in `writeClass`, followed by an empty line. */
  method WriteSuperClassRequire(w: CodeWriter, inheritance: seq<string>)
    requires w.Valid()
    modifies w
    ensures w.Valid() && w.indentString == old(w.indentString) && w.indentations == old(w.indentations)
    ensures w.lines == old(w.lines)
                       + (if |inheritance| > 0 then [LineAt(w.indentString, |w.indentations|, RequireText("", CodeWriter.FileName(inheritance[0]), false)), ""] else [])
  {
    if |inheritance| > 0 {
      var fileName := CodeWriter.FileName(inheritance[0]);
      w.WriteLine("require_relative '" + fileName + ".rb'");
      w.WriteLine("");
    }
  }

  /** The require of the first realized interface in `writeClass`, followed by an empty line. */
  method WriteInterfaceRequire(w: CodeWriter, interfaces: seq<InterfaceRef>)
    requires w.Valid()
    modifies w
    ensures w.Valid() && w.indentString == old(w.indentString) && w.indentations == old(w.indentations)
    ensures w.lines == old(w.lines)
                       + (if |interfaces| > 0 then
                            [LineAt(w.indentString, |w.indentations|,
                                    RequireText(CodeWriter.FileName(interfaces[0].packagePath), CodeWriter.FileName(interfaces[0].name), false)), ""]
                          else [])
  {
    if |interfaces| > 0 {
      var packageName := CodeWriter.FileName(interfaces[0].packagePath);
      var fileName := CodeWriter.FileName(interfaces[0].name);
      if packageName != "" {
        w.WriteLine("require_relative '" + packageName + "/" + fileName + ".rb'");
      } else {
        w.WriteLine("require_relative '" + fileName + ".rb'");
      }
      w.WriteLine("");
    }
  }

  /** The opening of `writeClass`: requires for the first superclass and interface, documentation, header. */
  method WriteClassPreamble(w: CodeWriter, element: Classifier, rel: Relationships, options: Options, rt: Runtime)
    requires w.Valid()
    modifies w
    ensures w.Valid() && w.indentString == old(w.indentString) && w.indentations == old(w.indentations)
    ensures w.lines == old(w.lines) + ClassPreambleLines(element, rel, options, rt, w.indentString, |w.indentations|)
  {
    ghost var u, d := w.indentString, |w.indentations|;
    WriteSuperClassRequire(w, rel.superClasses);
    ghost var sup := if |rel.superClasses| > 0 then [LineAt(u, d, RequireText("", CodeWriter.FileName(rel.superClasses[0]), false)), ""] else [];
    WriteInterfaceRequire(w, rel.interfaces);
    ghost var itf := if |rel.interfaces| > 0 then
                       [LineAt(u, d, RequireText(CodeWriter.FileName(rel.interfaces[0].packagePath), CodeWriter.FileName(rel.interfaces[0].name), false)), ""]
                     else [];
    WriteDocumentation(w, element.documentation, options, rt);
    ghost var docs := DocumentationLines(element.documentation, options, rt, u, d);
    var header := ClassHeaderLine(element.name, rel.superClasses);
    w.WriteLine(header);
    ghost var hd := [LineAt(u, d, header)];
    assert w.lines == old(w.lines) + sup + itf + docs + hd;
    AppendAssoc(old(w.lines), sup, itf);
    AppendAssoc(old(w.lines), sup + itf, docs);
    AppendAssoc(old(w.lines), sup + itf + docs, hd);
  }

  /** The association accessor line of `writeClass`, followed by an empty line when there is any association. */
  method WriteAssociationAccessor(w: CodeWriter, associations: seq<string>)
    requires w.Valid()
    modifies w
    ensures w.Valid() && w.indentString == old(w.indentString) && w.indentations == old(w.indentations)
    ensures w.lines == old(w.lines) + AssociationAccessorLines(associations, w.indentString, |w.indentations|)
  {
    if |associations| > 0 {
      var associationTerms := SymbolTerms(associations);
      WriteDeclaration(w, "attr_accessor", associationTerms, associations);
      w.WriteLine("");
      AppendAssoc(old(w.lines), AccessorDeclaration("attr_accessor", associations, w.indentString, |w.indentations|), [""]);
    }
  }

  /** The terms pushed for a list of names: each as a symbol, followed by a separator. */
  method SymbolTerms(names: seq<string>) returns (terms: seq<string>)
    ensures terms == Interleave(Symbols(names), ", ")
  {
    terms := [];
    for i := 0 to |names|
      invariant terms == Interleave(Symbols(names[..i]), ", ")
    {
      assert names[..i + 1] == names[..i] + [names[i]];
      SymbolsSnoc(names[..i], names[i]);
      InterleaveSnoc(Symbols(names[..i]), ":" + names[i], ", ");
      terms := terms + [":" + names[i]];
      terms := terms + [", "];
    }
    assert names[..|names|] == names;
  }

  /** The public accessors and the statics of `writeClass`, each block followed by an empty line. */
  method WriteClassAttributes(w: CodeWriter, element: Classifier, options: Options, rt: Runtime)
    requires w.Valid()
    modifies w
    ensures w.Valid() && w.indentString == old(w.indentString) && w.indentations == old(w.indentations)
    ensures w.lines == old(w.lines) + ClassAttributeLines(element.attributes, options, rt, w.indentString, |w.indentations|)
  {
    ghost var u, d, attrs := w.indentString, |w.indentations|, element.attributes;
    var staticAttributeCount := CountStaticAttribute(element);
    var publicAttributeLength, _, _ := CountAttributeByVisibility(element);
    ghost var pub: seq<string> := [];
    if publicAttributeLength > 0 {
      WriteAttributeAccessor(Public, w, element, options, rt);
      pub := AttributeAccessorLines(Public, attrs, options, rt, u, d);
      if staticAttributeCount == 0 {
        w.WriteLine("");
        AppendAssoc(old(w.lines), pub, [""]);
        pub := pub + [""];
      } else {
        assert pub == pub + [];
        pub := pub + [];
      }
    }
    assert w.lines == old(w.lines) + pub;
    ghost var l1 := w.lines;
    ghost var st: seq<string> := [];
    if staticAttributeCount > 0 {
      WriteConstant(w, element);
      ghost var cs := ConstantLines(attrs, |attrs|, u, d);
      WriteClassVariable(w, element);
      ghost var vs := ClassVariableLines(attrs, |attrs|, u, d);
      w.WriteLine("");
      st := cs + vs + [""];
      assert w.lines == l1 + cs + vs + [""];
      AppendAssoc(l1, cs, vs);
      AppendAssoc(l1, cs + vs, [""]);
    }
    assert w.lines == old(w.lines) + pub + st;
    AppendAssoc(old(w.lines), pub, st);
  }

  /** The part of `writeClass` written one level in. */
  method WriteClassBody(w: CodeWriter, element: Classifier, rel: Relationships, options: Options, rt: Runtime)
    requires w.Valid()
    modifies w
    ensures w.Valid() && w.indentString == old(w.indentString)
    ensures w.indentations == old(w.indentations) + [w.indentString]
    ensures w.lines == old(w.lines) + ClassBodyLines(element, rel, options, rt, w.indentString, |old(w.indentations)|)
  {
    ghost var u, d := w.indentString, |w.indentations|;
    w.Indent();
    WriteInclude(w, rel.interfaces);
    ghost var inc := IncludeLines(rel.interfaces, u, d + 1);
    var associations := GetClassAssociation(element, rel.associations);
    WriteAssociationAccessor(w, associations);
    ghost var asc := AssociationAccessorLines(associations, u, d + 1);
    WriteClassAttributes(w, element, options, rt);
    ghost var attrs := ClassAttributeLines(element.attributes, options, rt, u, d + 1);
    WriteInitialize(w, element, rel.associations, options, rt);
    ghost var ctor := InitializeLines(element, associations, options, rt, u, d + 1);
    assert w.lines == old(w.lines) + inc + asc + attrs + ctor;
    AppendAssoc(old(w.lines), inc, asc);
    AppendAssoc(old(w.lines), inc + asc, attrs);
    AppendAssoc(old(w.lines), inc + asc + attrs, ctor);
  }

  /** The `include` of the first realized interface in `writeClass`, followed by an empty line. */
  method WriteInclude(w: CodeWriter, interfaces: seq<InterfaceRef>)
    requires w.Valid()
    modifies w
    ensures w.Valid() && w.indentString == old(w.indentString) && w.indentations == old(w.indentations)
    ensures w.lines == old(w.lines) + IncludeLines(interfaces, w.indentString, |w.indentations|)
  {
    if |interfaces| > 0 {
      w.WriteLine("include " + interfaces[0].name);
      w.WriteLine("");
    }
  }

  /** The constructor of `writeClass` when `initializeMethod` is on, followed by an empty line. */
  method WriteInitialize(w: CodeWriter, element: Classifier, associations: seq<Association>, options: Options, rt: Runtime)
    requires w.Valid()
    modifies w
    ensures w.Valid() && w.indentString == old(w.indentString) && w.indentations == old(w.indentations)
    ensures w.lines == old(w.lines) + InitializeLines(element, ClassAssociation(element.id, associations, |associations|), options, rt, w.indentString, |w.indentations|)
  {
    if options.initializeMethod {
      WriteConstructor(w, element, associations, rt);
      w.WriteLine("");
      AppendAssoc(old(w.lines), ConstructorLines(element, ClassAssociation(element.id, associations, |associations|), rt, w.indentString, |w.indentations|), [""]);
    }
  }

  /**
   * `writeClass`. With `toStringMethod` off, its final `outdent` pops a level
   * it did not push (or does nothing on an empty stack).
   */
  method WriteClass(w: CodeWriter, element: Classifier, rel: Relationships, options: Options, rt: Runtime)
    requires w.Valid()
    modifies w
    ensures w.Valid() && w.indentString == old(w.indentString)
    ensures options.toStringMethod ==> w.indentations == old(w.indentations)
    ensures !options.toStringMethod ==>
              w.indentations == if old(w.indentations) == [] then [] else old(w.indentations)[..|old(w.indentations)| - 1]
    ensures |w.indentations| == ClassEndDepth(options, |old(w.indentations)|)
    ensures w.lines == old(w.lines) + ClassLines(element, rel, options, rt, w.indentString, |old(w.indentations)|)
  {
    ghost var u, d := w.indentString, |w.indentations|;
    WriteClassPreamble(w, element, rel, options, rt);
    ghost var pre := ClassPreambleLines(element, rel, options, rt, u, d);
    WriteClassBody(w, element, rel, options, rt);
    ghost var body := ClassBodyLines(element, rel, options, rt, u, d);
    w.Outdent();
    assert w.indentations == old(w.indentations) by {
      assert (old(w.indentations) + [u])[..|old(w.indentations)|] == old(w.indentations);
    }
    WriteMethodByVisibility(w, element, options, rt);
    ghost var mv := MethodByVisibilityLines(element, options, rt, u, d);
    ghost var l3 := w.lines;
    ghost var ts: seq<string> := [];
    if options.toStringMethod {
      WriteToStringMethod(w);
      ts := ToStringLines(u, d);
    }
    assert w.lines == l3 + ts;
    w.Outdent();
    if options.toStringMethod {
      assert w.indentations == old(w.indentations) by {
        assert (old(w.indentations) + [u])[..|old(w.indentations)|] == old(w.indentations);
      }
    }
    assert |w.indentations| == ClassEndDepth(options, d);
    w.WriteLine("end");
    ghost var e := [LineAt(u, ClassEndDepth(options, d), "end")];
    assert w.lines == old(w.lines) + pre + body + mv + ts + e;
    AppendAssoc(old(w.lines), pre, body);
    AppendAssoc(old(w.lines), pre + body, mv);
    AppendAssoc(old(w.lines), pre + body + mv, ts);
    AppendAssoc(old(w.lines), pre + body + mv + ts, e);
  }

  /**
   * The class branch of `generate`, without writing the file: an
   * `annotationType` class gives no file; any other class gives the file
   * `basePath/<stem>.rb` whose content is the class's lines joined by
   * newlines.
   */
  method GenerateClass(element: Classifier, rel: Relationships, moduleName: Option<string>, packageDocumentation: string,
                       basePath: string, options: Options, rt: Runtime) returns (file: Option<GeneratedFile>)
    ensures element.stereotype == "annotationType" ==> file == None
    ensures element.stereotype != "annotationType" ==>
              file == Some(GeneratedFile(OutputPath(basePath, element.name),
                                         Join(ClassFileLines(element, rel, moduleName, packageDocumentation, options, rt,
                                                             EffectiveIndent(IndentStringFor(options))), "\n")))
  {
    var indentString := GetIndentString(options);
    var codeWriter := new CodeWriter(indentString);
    file := None;
    if element.stereotype != "annotationType" {
      ghost var ls := ClassFileLines(element, rel, moduleName, packageDocumentation, options, rt, codeWriter.indentString);
      WriteClassFile(codeWriter, element, rel, moduleName, packageDocumentation, options, rt);
      assert ls != [];
      assert codeWriter.GetData() == Join(ls, "\n");
      var fullPath := basePath + "/" + CodeWriter.FileName(element.name) + ".rb";
      file := Some(GeneratedFile(fullPath, codeWriter.GetData()));
    }
  }

  /** What `generate` writes into a fresh writer for a class: inside `module M ... end` when the class has a module name. */
  method WriteClassFile(w: CodeWriter, element: Classifier, rel: Relationships, moduleName: Option<string>,
                        packageDocumentation: string, options: Options, rt: Runtime)
    requires w.Valid() && w.lines == [] && w.indentations == []
    modifies w
    ensures w.Valid() && w.indentString == old(w.indentString) && w.indentations == []
    ensures w.lines == ClassFileLines(element, rel, moduleName, packageDocumentation, options, rt, w.indentString)
  {
    ghost var u := w.indentString;
    var moduleNamed := moduleName.Some? && moduleName.value != "";
    if moduleNamed {
      WriteModuleOpening(w, element, rel, moduleName.value, packageDocumentation, options, rt);
      WriteClass(w, element, rel, options, rt);
      w.Outdent();
      w.WriteLine("end");
      ghost var opening := AssociationLines(element.id, rel.associations, true, u, 0)
                           + DocumentationLines(packageDocumentation, options, rt, u, 0)
                           + [LineAt(u, 0, "module " + moduleName.value)];
      ghost var cls := ClassLines(element, rel, options, rt, u, 1);
      ghost var e := [LineAt(u, Outdented(ClassEndDepth(options, 1)), "end")];
      assert w.lines == opening + cls + e;
    } else {
      ghost var a := AssociationLines(element.id, rel.associations, false, u, 0);
      WriteAssociation(w, element, rel.associations, false);
      assert w.lines == a;
      WriteClass(w, element, rel, options, rt);
    }
  }

  /** What `generate` writes before the class when the class lives in a module. */
  method WriteModuleOpening(w: CodeWriter, element: Classifier, rel: Relationships, moduleName: string,
                            packageDocumentation: string, options: Options, rt: Runtime)
    requires w.Valid() && w.lines == [] && w.indentations == []
    modifies w
    ensures w.Valid() && w.indentString == old(w.indentString) && w.indentations == [w.indentString]
    ensures w.lines == AssociationLines(element.id, rel.associations, true, w.indentString, 0)
                       + DocumentationLines(packageDocumentation, options, rt, w.indentString, 0)
                       + [LineAt(w.indentString, 0, "module " + moduleName)]
  {
    ghost var u := w.indentString;
    WriteAssociation(w, element, rel.associations, true);
    ghost var a := AssociationLines(element.id, rel.associations, true, u, 0);
    WriteDocumentation(w, packageDocumentation, options, rt);
    w.WriteLine("module " + moduleName);
    w.Indent();
    assert [] + a == a;
  }

  /** The interface branch of `generate`, without writing the file. */
  method GenerateInterface(element: Classifier, basePath: string, options: Options, rt: Runtime) returns (file: GeneratedFile)
    ensures file == GeneratedFile(OutputPath(basePath, element.name),
                                  Join(InterfaceLines(element, options, rt, EffectiveIndent(IndentStringFor(options)), 0), "\n"))
  {
    var indentString := GetIndentString(options);
    var codeWriter := new CodeWriter(indentString);
    ghost var ls := InterfaceLines(element, options, rt, codeWriter.indentString, 0);
    WriteInterface(codeWriter, element, options, rt);
    assert [] + ls == ls;
    assert codeWriter.lines == ls;
    assert ls != [];
    assert codeWriter.GetData() == Join(ls, "\n");
    var fullPath := basePath + "/" + CodeWriter.FileName(element.name) + ".rb";
    file := GeneratedFile(fullPath, codeWriter.GetData());
  }
}
