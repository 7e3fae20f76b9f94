/**
 * What the rendering functions guarantee for every input: how the counts
 * partition the attributes, which attribute lands in which declaration,
 * the shape of the constructor and of the method stubs, when a section or a
 * require line appears, and the indentation quirks of `writeClass`.
 */
module RubyProperties {
  import opened JsBuiltins
  import opened Uml
  import opened CodeGeneratorUtils
  import opened RubyText
  import opened Wrappers

  // ----- selections of attributes -----

  /** How many of the first `k` attributes satisfy `p`; an independent count to compare the generator's against. */
  function Tally(attrs: seq<Attribute>, k: nat, p: Attribute -> bool): (n: nat)
    requires k <= |attrs|
    ensures n <= k
    decreases k
  {
    if k == 0 then 0 else Tally(attrs, k - 1, p) + (if p(attrs[k - 1]) then 1 else 0)
  }

  predicate IsPublicInstance(a: Attribute) { a.visibility == VkPublic && !a.isStatic }
  predicate IsProtectedAny(a: Attribute) { a.visibility == VkProtected }
  predicate IsProtectedStatic(a: Attribute) { a.visibility == VkProtected && a.isStatic }
  predicate IsPrivateInstance(a: Attribute) { a.visibility == VkPrivate && !a.isStatic }
  predicate IsStatic(a: Attribute) { a.isStatic }
  predicate IsReadOnlyStatic(a: Attribute) { a.isStatic && a.isReadOnly }
  predicate IsMutableStatic(a: Attribute) { a.isStatic && !a.isReadOnly }
  predicate IsPrivateReadOnlyStatic(a: Attribute) { a.isStatic && a.isReadOnly && a.visibility == VkPrivate }

  // ----- counting -----

  /**
   * The protected bucket counts every protected attribute, statics included;
   * the public and private buckets count instance attributes only; together
   * they never exceed the number of attributes.
   */
  lemma {:induction false} AttributeCountBuckets(attrs: seq<Attribute>, k: nat)
    requires k <= |attrs|
    ensures AttributeCount(attrs, k, Public) == Tally(attrs, k, IsPublicInstance)
    ensures AttributeCount(attrs, k, Protected) == Tally(attrs, k, IsProtectedAny)
    ensures AttributeCount(attrs, k, Private) == Tally(attrs, k, IsPrivateInstance)
    ensures AttributeCount(attrs, k, Public) + AttributeCount(attrs, k, Protected) + AttributeCount(attrs, k, Private) <= k
    decreases k
  {
    if k > 0 {
      AttributeCountBuckets(attrs, k - 1);
    }
  }

  /** `countStaticAttribute` counts exactly the static attributes. */
  lemma {:induction false} StaticCountIsTally(attrs: seq<Attribute>, k: nat)
    requires k <= |attrs|
    ensures StaticCount(attrs, k) == Tally(attrs, k, IsStatic)
    decreases k
  {
    if k > 0 {
      StaticCountIsTally(attrs, k - 1);
    }
  }

  /** A bucket of `countMethodByVisibility` is non-zero exactly when some operation has that visibility. */
  lemma {:induction false} OperationCountPositiveIff(ops: seq<Operation>, k: nat, v: Visibility)
    requires k <= |ops|
    ensures OperationCount(ops, k, v) > 0 <==> exists i | 0 <= i < k :: GetVisibility(ops[i].visibility) == Some(v)
    decreases k
  {
    if k > 0 {
      OperationCountPositiveIff(ops, k - 1, v);
    }
  }

  /** The three operation buckets never exceed the number of operations. */
  lemma {:induction false} OperationCountBound(ops: seq<Operation>, k: nat)
    requires k <= |ops|
    ensures OperationCount(ops, k, Public) + OperationCount(ops, k, Protected) + OperationCount(ops, k, Private) <= k
    decreases k
  {
    if k > 0 {
      OperationCountBound(ops, k - 1);
    }
  }

  // ----- attribute accessors -----

  /**
   * The accessor list and the reader list share the selected attributes
   * between them: for public and private they hold exactly the bucket's
   * attributes; for protected, the bucket's statics are in neither.
   */
  lemma {:induction false} AccessorNamesPartition(attrs: seq<Attribute>, k: nat, v: Visibility)
    requires k <= |attrs|
    ensures v != Protected ==>
              |AccessorNames(attrs, k, v, false)| + |AccessorNames(attrs, k, v, true)| == AttributeCount(attrs, k, v)
    ensures v == Protected ==>
              |AccessorNames(attrs, k, v, false)| + |AccessorNames(attrs, k, v, true)| + Tally(attrs, k, IsProtectedStatic)
              == AttributeCount(attrs, k, v)
    decreases k
  {
    if k > 0 {
      AccessorNamesPartition(attrs, k - 1, v);
    }
  }

  /**
   * A name is in the accessor (reader) list exactly when some instance
   * attribute of the visibility, mutable (read-only), carries it.
   */
  lemma {:induction false} AccessorNamesMembers(attrs: seq<Attribute>, k: nat, v: Visibility, readOnly: bool, n: string)
    requires k <= |attrs|
    ensures n in AccessorNames(attrs, k, v, readOnly) <==>
            exists j | 0 <= j < k :: AccessorSelected(attrs[j], v) && attrs[j].isReadOnly == readOnly && attrs[j].name == n
    decreases k
  {
    if k > 0 {
      AccessorNamesMembers(attrs, k - 1, v, readOnly, n);
    }
  }

  /** The last of a list of symbols is the symbol of the last name. */
  lemma SymbolsLast(names: seq<string>)
    requires names != []
    ensures Symbols(names)[|names| - 1] == ":" + names[|names| - 1]
  {
  }

  /**
   * A declaration line exists exactly when its list is non-empty, and then it
   * ends with the last symbol: no separator dangles after it.
   */
  lemma AccessorDeclarationShape(keyword: string, names: seq<string>, u: string, d: nat)
    ensures AccessorDeclaration(keyword, names, u, d) == [] <==> names == []
    ensures names != [] ==>
              |AccessorDeclaration(keyword, names, u, d)| == 1
              && EndsWith(AccessorDeclaration(keyword, names, u, d)[0], ":" + names[|names| - 1])
  {
    if names != [] {
      var syms := Symbols(names);
      var joined := Join(syms, ", ");
      var last := ":" + names[|names| - 1];
      SymbolsLast(names);
      JoinEndsWithLast(syms, ", ");
      var line := Repeat(u, d) + (keyword + " " + joined);
      assert AccessorDeclaration(keyword, names, u, d)[0] == line;
      assert line[|line| - |last|..] == joined[|joined| - |last|..];
    }
  }

  // ----- static attributes -----

  /** Every static attribute is read-only or mutable, never both. */
  lemma {:induction false} StaticPartition(attrs: seq<Attribute>, k: nat)
    requires k <= |attrs|
    ensures Tally(attrs, k, IsReadOnlyStatic) + Tally(attrs, k, IsMutableStatic) == StaticCount(attrs, k)
    decreases k
  {
    if k > 0 {
      StaticPartition(attrs, k - 1);
    }
  }

  /** `writeConstant` writes one line per read-only static, plus one per private read-only static. */
  lemma {:induction false} ConstantLinesCount(attrs: seq<Attribute>, k: nat, u: string, d: nat)
    requires k <= |attrs|
    ensures |ConstantLines(attrs, k, u, d)| == Tally(attrs, k, IsReadOnlyStatic) + Tally(attrs, k, IsPrivateReadOnlyStatic)
    decreases k
  {
    if k > 0 {
      ConstantLinesCount(attrs, k - 1, u, d);
    }
  }

  /** `writeClassVariable` writes one line per mutable static. */
  lemma {:induction false} ClassVariableLinesCount(attrs: seq<Attribute>, k: nat, u: string, d: nat)
    requires k <= |attrs|
    ensures |ClassVariableLines(attrs, k, u, d)| == Tally(attrs, k, IsMutableStatic)
    decreases k
  {
    if k > 0 {
      ClassVariableLinesCount(attrs, k - 1, u, d);
    }
  }

  /** One attribute is rendered by `writeConstant` exactly when it is a read-only static, by `writeClassVariable` exactly when it is a mutable one. */
  lemma StaticWritersExclusive(a: Attribute, u: string, d: nat)
    ensures ConstantLines([a], 1, u, d) != [] <==> IsReadOnlyStatic(a)
    ensures ClassVariableLines([a], 1, u, d) != [] <==> IsMutableStatic(a)
  {
    assert ConstantLines([a], 0, u, d) == [] && ClassVariableLines([a], 0, u, d) == [];
  }

  /** A private read-only static gets its assignment line followed by `private_constant`. */
  lemma PrivateConstantLines(a: Attribute, u: string, d: nat)
    requires IsPrivateReadOnlyStatic(a)
    ensures ConstantLines([a], 1, u, d)
            == [LineAt(u, d, a.name + " = " + a.defaultValue), LineAt(u, d, "private_constant :" + a.name)]
  {
    assert ConstantLines([a], 0, u, d) == [];
  }

  // ----- constructor -----

  /** The parameter list of `initialize` leaves out exactly the static attributes. */
  lemma {:induction false} InstanceNamesCount(attrs: seq<Attribute>, k: nat)
    requires k <= |attrs|
    ensures |InstanceNames(attrs, k)| + StaticCount(attrs, k) == k
    decreases k
  {
    if k > 0 {
      InstanceNamesCount(attrs, k - 1);
    }
  }

  /** The `@n = n` lines follow the parameter list, one for one and in the same order. */
  lemma {:induction false} FieldAssignmentsFollowNames(attrs: seq<Attribute>, k: nat, u: string, d: nat)
    requires k <= |attrs|
    ensures |FieldAssignments(attrs, k, u, d)| == |InstanceNames(attrs, k)|
    ensures forall i | 0 <= i < |InstanceNames(attrs, k)| ::
              FieldAssignments(attrs, k, u, d)[i] == LineAt(u, d, "@" + InstanceNames(attrs, k)[i] + " = " + InstanceNames(attrs, k)[i])
    decreases k
  {
    if k > 0 {
      FieldAssignmentsFollowNames(attrs, k - 1, u, d);
    }
  }

  /** One `@x = X.new` line per associated member, in order. */
  lemma {:induction false} AssociationInitializersLines(names: seq<string>, k: nat, rt: Runtime, u: string, d: nat)
    requires k <= |names|
    ensures |AssociationInitializers(names, k, rt, u, d)| == k
    ensures forall i | 0 <= i < k ::
              AssociationInitializers(names, k, rt, u, d)[i] == LineAt(u, d, "@" + names[i] + " = " + rt.toCamelCase(names[i]) + ".new")
    decreases k
  {
    if k > 0 {
      AssociationInitializersLines(names, k - 1, rt, u, d);
    }
  }

  /**
   * `writeConstructor` writes nothing for an unnamed class; otherwise the
   * header, one assignment per instance attribute, one initializer per
   * associated member, and `end`.
   */
  lemma ConstructorShape(c: Classifier, associated: seq<string>, rt: Runtime, u: string, d: nat)
    ensures ConstructorLines(c, associated, rt, u, d) == [] <==> c.name == ""
    ensures c.name != "" ==>
              var ls := ConstructorLines(c, associated, rt, u, d);
              var fields := InstanceNames(c.attributes, |c.attributes|);
              |ls| == |fields| + |associated| + 2
              && ls[0] == LineAt(u, d, "def initialize(" + Join(fields, ", ") + ")")
              && (forall j | 1 <= j < 1 + |fields| :: ls[j] == LineAt(u, d + 1, "@" + fields[j - 1] + " = " + fields[j - 1]))
              && (forall j | 1 + |fields| <= j < |ls| - 1 ::
                    var n := associated[j - 1 - |fields|];
                    ls[j] == LineAt(u, d + 1, "@" + n + " = " + rt.toCamelCase(n) + ".new"))
              && ls[|ls| - 1] == LineAt(u, d, "end")
  {
    if c.name != "" {
      ConstructorFramed(c, associated, rt, u, d);
      FieldAssignmentsFollowNames(c.attributes, |c.attributes|, u, d + 1);
      AssociationInitializersLines(associated, |associated|, rt, u, d + 1);
    }
  }

  /**
   * A named class's constructor is its header, assignments, initializers and
   * `end`, in that order; each line is stated by its position `j`.
   */
  lemma ConstructorFramed(c: Classifier, associated: seq<string>, rt: Runtime, u: string, d: nat)
    requires c.name != ""
    ensures var ls := ConstructorLines(c, associated, rt, u, d);
            var fa := FieldAssignments(c.attributes, |c.attributes|, u, d + 1);
            var ai := AssociationInitializers(associated, |associated|, rt, u, d + 1);
            |ls| == |fa| + |ai| + 2
            && ls[0] == LineAt(u, d, "def initialize(" + Join(InstanceNames(c.attributes, |c.attributes|), ", ") + ")")
            && (forall j | 1 <= j < 1 + |fa| :: ls[j] == fa[j - 1])
            && (forall j | 1 + |fa| <= j < 1 + |fa| + |ai| :: ls[j] == ai[j - 1 - |fa|])
            && ls[|ls| - 1] == LineAt(u, d, "end")
  {
    var head := LineAt(u, d, "def initialize(" + Join(InstanceNames(c.attributes, |c.attributes|), ", ") + ")");
    var fa := FieldAssignments(c.attributes, |c.attributes|, u, d + 1);
    var ai := AssociationInitializers(associated, |associated|, rt, u, d + 1);
    assert ConstructorLines(c, associated, rt, u, d) == [head] + fa + ai + [LineAt(u, d, "end")];
    FramedIndex(head, fa, ai, LineAt(u, d, "end"));
  }

  /** Where each part of `[h] + a + b + [e]` sits, by position `j`. */
  lemma FramedIndex<T>(h: T, a: seq<T>, b: seq<T>, e: T)
    ensures var s := [h] + a + b + [e];
            |s| == |a| + |b| + 2 && s[0] == h && s[|s| - 1] == e
            && (forall j | 1 <= j < 1 + |a| :: s[j] == a[j - 1])
            && (forall j | 1 + |a| <= j < 1 + |a| + |b| :: s[j] == b[j - 1 - |a|])
  {
    var s := [h] + a + b + [e];
    forall j | 1 <= j < 1 + |a|
      ensures s[j] == a[j - 1]
    {
      assert s[j] == ([h] + a)[j];
    }
    forall j | 1 + |a| <= j < 1 + |a| + |b|
      ensures s[j] == b[j - 1 - |a|]
    {
      assert s[j] == ([h] + a + b)[j];
    }
  }

  // ----- methods -----

  /** A non-empty text gives a non-empty line at any depth. */
  lemma LineAtNonEmpty(u: string, d: nat, text: string)
    requires text != ""
    ensures LineAt(u, d, text) != ""
  {
    assert |Repeat(u, d) + text| >= |text|;
  }

  /** A stub is at least three lines long and ends with its non-empty `end` line. */
  lemma StubLinesEnd(op: Operation, o: Options, rt: Runtime, u: string, d: nat)
    ensures |StubLines(op, o, rt, u, d)| >= 3
    ensures StubLines(op, o, rt, u, d)[|StubLines(op, o, rt, u, d)| - 1] == LineAt(u, d, "end") != ""
  {
    LineAtNonEmpty(u, d, "end");
  }

  /** What `writeMethod(v)` writes for one operation is empty exactly when the operation has another visibility. */
  lemma MethodEntryLinesEmptyIff(v: Visibility, ops: seq<Operation>, i: nat, o: Options, rt: Runtime, u: string, d: nat)
    requires i < |ops|
    ensures MethodEntryLines(v, ops, i, o, rt, u, d) == [] <==> GetVisibility(ops[i].visibility) != Some(v)
  {
    if GetVisibility(ops[i].visibility) == Some(v) {
      StubLinesEnd(ops[i], o, rt, u, d);
      var stub := StubLines(ops[i], o, rt, u, d);
      assert |MethodEntryLines(v, ops, i, o, rt, u, d)| >= |stub|;
    }
  }

  /** `writeMethod(v)` writes nothing exactly when no operation has visibility `v`. */
  lemma {:induction false} MethodLinesEmptyIff(v: Visibility, ops: seq<Operation>, k: nat, o: Options, rt: Runtime, u: string, d: nat)
    requires k <= |ops|
    ensures MethodLines(v, ops, k, o, rt, u, d) == [] <==> OperationCount(ops, k, v) == 0
    decreases k
  {
    if k > 0 {
      MethodLinesEmptyIff(v, ops, k - 1, o, rt, u, d);
      MethodEntryLinesEmptyIff(v, ops, k - 1, o, rt, u, d);
      var prev := MethodLines(v, ops, k - 1, o, rt, u, d);
      var entry := MethodEntryLines(v, ops, k - 1, o, rt, u, d);
      assert MethodLines(v, ops, k, o, rt, u, d) == prev + entry;
      assert |prev + entry| == |prev| + |entry|;
    }
  }

  /** Before the end of the whole list, every stub written so far has been followed by an empty line. */
  lemma {:induction false} MethodLinesEndBlankBeforeLast(v: Visibility, ops: seq<Operation>, k: nat, o: Options, rt: Runtime, u: string, d: nat)
    requires k < |ops|
    requires OperationCount(ops, k, v) > 0
    ensures MethodLines(v, ops, k, o, rt, u, d) != []
    ensures MethodLines(v, ops, k, o, rt, u, d)[|MethodLines(v, ops, k, o, rt, u, d)| - 1] == ""
    decreases k
  {
    var prev := MethodLines(v, ops, k - 1, o, rt, u, d);
    var entry := MethodEntryLines(v, ops, k - 1, o, rt, u, d);
    if GetVisibility(ops[k - 1].visibility) == Some(v) {
      assert entry == StubLines(ops[k - 1], o, rt, u, d) + [""];
    } else {
      MethodLinesEndBlankBeforeLast(v, ops, k - 1, o, rt, u, d);
      assert prev + entry == prev;
    }
  }

  /**
   * The empty line after a stub depends on the position in the whole
   * operation list: a bucket's output ends with an empty line exactly when
   * the last operation of the class belongs to another visibility.
   */
  lemma MethodLinesTrailingBlank(v: Visibility, ops: seq<Operation>, o: Options, rt: Runtime, u: string, d: nat)
    requires OperationCount(ops, |ops|, v) > 0
    ensures MethodLines(v, ops, |ops|, o, rt, u, d) != []
    ensures var ls := MethodLines(v, ops, |ops|, o, rt, u, d);
            ls[|ls| - 1] == "" <==> GetVisibility(ops[|ops| - 1].visibility) != Some(v)
  {
    var k := |ops|;
    var ls := MethodLines(v, ops, k, o, rt, u, d);
    var prev := MethodLines(v, ops, k - 1, o, rt, u, d);
    var entry := MethodEntryLines(v, ops, k - 1, o, rt, u, d);
    assert ls == prev + entry;
    if GetVisibility(ops[k - 1].visibility) == Some(v) {
      var stub := StubLines(ops[k - 1], o, rt, u, d);
      StubLinesEnd(ops[k - 1], o, rt, u, d);
      assert entry == stub + [];
      assert ls[|ls| - 1] == stub[|stub| - 1];
    } else {
      assert entry == [];
      assert OperationCount(ops, k - 1, v) > 0;
      MethodLinesEndBlankBeforeLast(v, ops, k - 1, o, rt, u, d);
      assert ls == prev;
    }
  }

  // ----- sections -----

  /** A protected or private section appears exactly when its bucket has attributes or operations, and opens with its label. */
  lemma SectionPresence(v: Visibility, c: Classifier, o: Options, rt: Runtime, u: string, d: nat)
    ensures SectionLines(v, c, o, rt, u, d) != [] <==>
            AttributeCount(c.attributes, |c.attributes|, v) > 0 || OperationCount(c.operations, |c.operations|, v) > 0
    ensures SectionLines(v, c, o, rt, u, d) != [] ==> SectionLines(v, c, o, rt, u, d)[0] == LineAt(u, d + 1, VisibilityName(v))
  {
  }

  // ----- associations -----

  /** Every require line of `writeAssociation` is non-empty. */
  lemma {:induction false} AssociationRequiresNonEmpty(id: ElementId, assocs: seq<Association>, k: nat, inModule: bool, u: string, d: nat)
    requires k <= |assocs|
    ensures forall i | 0 <= i < |AssociationRequires(id, assocs, k, inModule, u, d)| :: AssociationRequires(id, assocs, k, inModule, u, d)[i] != ""
    decreases k
  {
    if k > 0 {
      AssociationRequiresNonEmpty(id, assocs, k - 1, inModule, u, d);
      var a := assocs[k - 1];
      LineAtNonEmpty(u, d, EndRequire(a.end2, inModule));
      LineAtNonEmpty(u, d, EndRequire(a.end1, inModule));
    }
  }

  /** `writeAssociation` writes one require line per name `getClassAssociation` yields. */
  lemma {:induction false} AssociationRequiresMatchNames(id: ElementId, assocs: seq<Association>, k: nat, inModule: bool, u: string, d: nat)
    requires k <= |assocs|
    ensures |AssociationRequires(id, assocs, k, inModule, u, d)| == |ClassAssociation(id, assocs, k)|
    decreases k
  {
    if k > 0 {
      AssociationRequiresMatchNames(id, assocs, k - 1, inModule, u, d);
    }
  }

  /**
   * A name comes out of `getClassAssociation` exactly when some association
   * has the element at one end and the other end navigable, and the name is
   * the file stem of that other end.
   */
  lemma {:induction false} ClassAssociationMembers(id: ElementId, assocs: seq<Association>, k: nat, n: string)
    requires k <= |assocs|
    ensures n in ClassAssociation(id, assocs, k) <==>
            exists j | 0 <= j < k ::
              (ReachesEnd2(id, assocs[j]) && n == CodeWriter.FileName(assocs[j].end2.referenceName))
              || (ReachesEnd1(id, assocs[j]) && n == CodeWriter.FileName(assocs[j].end1.referenceName))
    decreases k
  {
    if k > 0 {
      ClassAssociationMembers(id, assocs, k - 1, n);
    }
  }

  /**
   * The empty line after the requires is written whenever the class has any
   * association, navigable or not: it is the last line exactly then, and the
   * only line when no association reaches another element.
   */
  lemma AssociationBlankLine(id: ElementId, assocs: seq<Association>, inModule: bool, u: string, d: nat)
    ensures AssociationLines(id, assocs, inModule, u, d) == [] <==> |assocs| == 0
    ensures var ls := AssociationLines(id, assocs, inModule, u, d);
            ls != [] ==> (ls[|ls| - 1] == "" <==> |assocs| > 0)
    ensures |assocs| > 0 && ClassAssociation(id, assocs, |assocs|) == [] ==> AssociationLines(id, assocs, inModule, u, d) == [""]
  {
    var reqs := AssociationRequires(id, assocs, |assocs|, inModule, u, d);
    AssociationRequiresNonEmpty(id, assocs, |assocs|, inModule, u, d);
    AssociationRequiresMatchNames(id, assocs, |assocs|, inModule, u, d);
    if |assocs| == 0 {
      assert reqs == [];
    }
  }

  // ----- documentation -----

  /** Documentation is written exactly when it is switched on and the trimmed text is non-empty. */
  lemma DocumentationPresence(text: string, o: Options, rt: Runtime, u: string, d: nat)
    ensures DocumentationLines(text, o, rt, u, d) != [] <==> o.documentation && Trim(text) != ""
  {
    if o.documentation && Trim(text) != "" {
      var ls := Split(Trim(text), '\n');
      LineAtNonEmpty(u, d, "# " + ls[0]);
    }
  }

  /**
   * A multi-line comment keeps only its first line: the guard `lines > 1`
   * is false for an array of two or more lines, so one `# ` line is written
   * holding the text up to the first line break.
   */
  lemma MultiLineDocumentationFirstLineOnly(text: string, o: Options, rt: Runtime, u: string, d: nat)
    requires o.documentation && '\n' in Trim(text)
    ensures Split(Trim(text), '\n')[0] + "\n" <= Trim(text)
    ensures DocumentationLines(text, o, rt, u, d) == [LineAt(u, d, "# " + Split(Trim(text), '\n')[0])]
  {
    SplitManyIff(Trim(text), '\n');
    SplitFirstPiece(Trim(text), '\n');
  }

  /** A one-line comment the guard lets through is written whole after `# `. */
  lemma SingleLineDocumentation(text: string, o: Options, rt: Runtime, u: string, d: nat)
    requires o.documentation && Trim(text) != "" && '\n' !in Trim(text)
    requires !rt.numberExceedsOne(Trim(text))
    ensures DocumentationLines(text, o, rt, u, d) == [LineAt(u, d, "# " + Trim(text))]
  {
    SplitFreePrefix(Trim(text), "", '\n');
    assert Trim(text) + "" == Trim(text);
    assert Split(Trim(text), '\n') == [Trim(text)];
  }

  // ----- indentation -----

  /** With no tab and no positive space count, `getIndentString` gives the empty string and the writer falls back to two spaces. */
  lemma DefaultIndentWithoutSpaces(o: Options)
    requires !o.useTab && o.indentSpaces <= 0
    ensures IndentStringFor(o) == ""
    ensures EffectiveIndent(IndentStringFor(o)) == "  "
  {
  }

  // ----- class -----

  /** At most the first item of a list. */
  function First<T>(s: seq<T>): (r: seq<T>)
    ensures |r| <= 1 && r <= s
  {
    if s == [] then [] else s[..1]
  }

  /** Only the first superclass and the first interface matter: dropping the others changes nothing in the class text. */
  lemma OnlyFirstSuperClassAndInterface(c: Classifier, rel: Relationships, o: Options, rt: Runtime, u: string, d: nat)
    ensures ClassLines(c, rel.(superClasses := First(rel.superClasses), interfaces := First(rel.interfaces)), o, rt, u, d)
            == ClassLines(c, rel, o, rt, u, d)
  {
    var rel' := rel.(superClasses := First(rel.superClasses), interfaces := First(rel.interfaces));
    assert ClassPreambleLines(c, rel', o, rt, u, d) == ClassPreambleLines(c, rel, o, rt, u, d);
    assert IncludeLines(rel'.interfaces, u, d + 1) == IncludeLines(rel.interfaces, u, d + 1);
    assert ClassBodyLines(c, rel', o, rt, u, d) == ClassBodyLines(c, rel, o, rt, u, d);
  }

  /**
   * Without `to_s`, the final `end` of a class sits one level above the
   * class header (clamped at the left margin): the final `outdent` pops a
   * level the class never pushed. With `to_s` it lines up with the header.
   */
  lemma ClassEndDepthQuirk(c: Classifier, rel: Relationships, o: Options, rt: Runtime, u: string, d: nat)
    ensures var ls := ClassLines(c, rel, o, rt, u, d);
            var h := |ClassPreambleLines(c, rel, o, rt, u, d)| - 1;
            0 <= h < |ls| && ls[h] == LineAt(u, d, ClassHeader(c.name, rel.superClasses))
            && ls[|ls| - 1] == LineAt(u, if o.toStringMethod then d else if d > 0 then d - 1 else 0, "end")
  {
    var pre := ClassPreambleLines(c, rel, o, rt, u, d);
    var pb := pre + ClassBodyLines(c, rel, o, rt, u, d);
    var pbm := pb + MethodByVisibilityLines(c, o, rt, u, d);
    var x := pbm + (if o.toStringMethod then ToStringLines(u, d) else []);
    var e := [LineAt(u, ClassEndDepth(o, d), "end")];
    assert ClassLines(c, rel, o, rt, u, d) == x + e;
    var h := |pre| - 1;
    assert pre[h] == LineAt(u, d, ClassHeader(c.name, rel.superClasses));
    assert pb[h] == pre[h];
    assert pbm[h] == pb[h];
    assert x[h] == pbm[h];
  }

  /**
   * Inside a module, the module's `end` is always at the left margin, while
   * the class's own `end` is indented only when `to_s` was written.
   */
  lemma ClassEndsInModule(c: Classifier, rel: Relationships, moduleName: Option<string>, packageDocumentation: string,
                          o: Options, rt: Runtime, u: string)
    requires HasModule(moduleName)
    ensures var ls := ClassFileLines(c, rel, moduleName, packageDocumentation, o, rt, u);
            |ls| >= 2 && ls[|ls| - 1] == "end"
            && ls[|ls| - 2] == LineAt(u, if o.toStringMethod then 1 else 0, "end")
  {
    var cl := ClassLines(c, rel, o, rt, u, 1);
    assert cl[|cl| - 1] == LineAt(u, ClassEndDepth(o, 1), "end");
    assert Repeat(u, 0) == "";
  }

  /**
   * The skeleton of a class with nothing in it and every option off: the
   * header and the `end`, one level up.
   */
  lemma EmptyClassSkeleton(c: Classifier, o: Options, rt: Runtime, u: string, d: nat)
    requires c.attributes == [] && c.operations == []
    requires !o.documentation && !o.initializeMethod && !o.toStringMethod
    ensures ClassLines(c, Relationships([], [], []), o, rt, u, d)
            == [LineAt(u, d, "class " + c.name), LineAt(u, Outdented(d), "end")]
  {
    var rel := Relationships([], [], []);
    assert ClassPreambleLines(c, rel, o, rt, u, d) == [LineAt(u, d, "class " + c.name)] by {
      assert ClassHeader(c.name, []) == "class " + c.name + "";
      assert "class " + c.name + "" == "class " + c.name;
    }
    assert ClassBodyLines(c, rel, o, rt, u, d) == [];
    assert MethodByVisibilityLines(c, o, rt, u, d) == [];
  }
}
