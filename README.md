# Ruby code generator for UML classes, modelled in Dafny

This project models the part of the StarUML Ruby extension that turns one
UML class or interface into the text of a Ruby file. It has two halves.

- **The `CodeWriter` line buffer** (`code-generator-utils.js`). It holds a
  list of lines, an indent string and a stack of indentation levels, and has
  the file-stem transform `fileName`. It is modelled as the Dafny class
  `CodeGeneratorUtils.CodeWriter`, whose fields are sequences.
- **The rendering methods of `RubyCodeGenerator`** (`ruby-code-generator.js`).
  Each `write*` method becomes a Dafny method that appends to a `CodeWriter`
  and pushes and pops its indentation stack in the same order as the
  JavaScript. Each method is proved against a function in `RubyText`. That
  function gives the lines the method appends as a function of the writer's
  indent string `u` and the current depth `d`.
- **The all-inputs properties** (`RubyProperties`). These are lemmas about
  the `RubyText` functions:
  - how the counts split the attributes;
  - which attribute lands in which declaration;
  - the shape of the constructor and of the method stubs;
  - when a section, a require line or a blank line appears;
  - the indentation quirks of `writeClass`.

Files and modules:

- `wrappers.dfy` (`Wrappers`): `Option`.
- `js_builtins.dfy` (`JsBuiltins`): the JavaScript built-ins used, which are
  `join`, `splice`, `split`, `trim` and ASCII `toLowerCase`, with their
  lemmas.
- `code_generator_utils.dfy` (`CodeGeneratorUtils`): `CodeWriter`, `LineAt`
  and the `fileName` transform.
- `uml.dfy` (`Uml`): the model elements as values, and what the host
  repository answers about them.
- `ruby_text.dfy` (`RubyText`): what each rendering method writes.
- `ruby_code_generator.dfy` (`RubyCodeGenerator`): the generator's methods.
- `ruby_properties.dfy` (`RubyProperties`): the properties.

The quirks of the JavaScript are modelled as written:

- The protected attribute count includes statics.
- The blank line after a stub depends on the stub's position in the whole
  operation list.
- The documentation guard `lines > 1` compares an array with a number. For
  two or more lines it is false, so only the first line is written.
- `writeToStringMethod` indents twice and outdents once, so `writeClass`'s
  final `end` depends on whether `to_s` was written.
- `writeAssociation` writes its blank line whenever the class has any
  association, even a non-navigable one.

## Model

| member | source | states |
|---|---|---|
| CodeGeneratorUtils.CodeWriter.constructor | code-generator-utils.js:4-8 | starts with no lines and an empty stack; an empty indent string becomes two spaces |
| CodeGeneratorUtils.CodeWriter.Indent | code-generator-utils.js:10-12 | pushes exactly one copy of the indent string; lines unchanged; validity kept |
| CodeGeneratorUtils.CodeWriter.Outdent | code-generator-utils.js:14-16 | removes the last level; no change on an empty stack; lines unchanged |
| CodeGeneratorUtils.CodeWriter.WriteLine | code-generator-utils.js:18-24 | appends one line: the joined indentations plus the text, or `''` at any depth for empty text; earlier lines unchanged, count grows by one |
| CodeGeneratorUtils.CodeWriter.GetData | code-generator-utils.js:26-28 | the lines joined by newlines: n lines give n-1 separators, nothing after the last line, empty for no lines |
| CodeGeneratorUtils.CodeWriter.FileName | code-generator-utils.js:30-32 | the file stem never holds an ASCII capital |
| CodeGeneratorUtils.ReplaceLowerUpperInsertsUnderscores | code-generator-utils.js:31 | the regex scan equals the reference that inserts `_` at every lower-then-capital boundary |
| CodeGeneratorUtils.ReplaceLowerUpperNoCapitals | code-generator-utils.js:31 | the replacement leaves a string without capitals alone |
| CodeGeneratorUtils.FileNameIdempotent | code-generator-utils.js:30-32 | applying `fileName` twice equals applying it once |
| CodeGeneratorUtils.UnderscoreBetweenAppend | code-generator-utils.js:31 | without a boundary at the seam, the two halves are rewritten independently |
| CodeGeneratorUtils.UnderscoreBetweenNoBoundary | code-generator-utils.js:31 | a string without a boundary gets no underscore |
| CodeGeneratorUtils.UnderscoreBetweenAfterOne | code-generator-utils.js:31 | one step of the reference after a one-character head |
| CodeGeneratorUtils.UnderscoreBetweenAtSeam | code-generator-utils.js:31 | a boundary at the seam gets exactly one underscore |
| CodeGeneratorUtils.ReplaceLowerUpperTwoWords | code-generator-utils.js:31 | two boundary-free words with a boundary between them are joined by one `_` |
| CodeGeneratorUtils.ToLowerAsciiAroundUnderscore | code-generator-utils.js:31 | lower-casing keeps the underscore and lower-cases both sides |
| CodeGeneratorUtils.FileNameOfTwoWords | code-generator-utils.js:30-32 | the stem of a two-word camel-case name is both words lower-cased, joined by `_` |
| CodeGeneratorUtils.FileNameExample | code-generator-utils.js:30-32 | `CustomerOrder` becomes `customer_order` |
| CodeGeneratorUtils.IndentThenOutdent | code-generator-utils.js:10-16 | an indent followed by an outdent restores the stack exactly and leaves the lines and the indent string unchanged |
| JsBuiltins.ConcatAppend | code-generator-utils.js:20 | `join('')` distributes over concatenation of arrays |
| JsBuiltins.ConcatOfCopies | code-generator-utils.js:20 | joining a stack of n copies of the indent string gives n copies in a row |
| JsBuiltins.RepeatSpaces | ruby-code-generator.js:53-59 | n pushed spaces give a string of n spaces |
| JsBuiltins.JoinSnoc | ruby-code-generator.js:296-307 | joining one more item adds the separator and the item at the end |
| JsBuiltins.InterleaveSnoc | ruby-code-generator.js:299-302 | pushing an item and a separator extends the terms by exactly that pair |
| JsBuiltins.InterleaveDropLast | ruby-code-generator.js:305-307 | popping the last separator leaves the earlier pairs and the last item |
| JsBuiltins.PushPopJoin | ruby-code-generator.js:360-368 | push item and `, ` for each name, pop once, `join('')`: the names joined by `, `, no dangling separator |
| JsBuiltins.PrefixedPushPopJoin | ruby-code-generator.js:296-309 | the same with a leading term and the pop guarded by `length > 1` |
| JsBuiltins.JoinSplit | ruby-code-generator.js:276 | splitting at a character and joining with it gives the text back |
| JsBuiltins.SplitFreePrefix | ruby-code-generator.js:276 | a separator-free prefix extends the first piece of a split |
| JsBuiltins.SplitJoin | ruby-code-generator.js:276 | joining separator-free pieces and splitting again gives the pieces back |
| JsBuiltins.SplitManyIff | ruby-code-generator.js:276-277 | a split has two or more pieces exactly when the text holds a line break |
| JsBuiltins.SplitFirstPiece | ruby-code-generator.js:276 | the first piece followed by the separator is a prefix of the text |
| JsBuiltins.CountAppend | code-generator-utils.js:27 | character counts add over concatenation |
| JsBuiltins.JoinCount | code-generator-utils.js:27 | joining n strings with `\n` adds exactly n-1 line breaks |
| JsBuiltins.JoinEndsWithLast | code-generator-utils.js:27 | a join ends with its last item |
| JsBuiltins.TrimEmptyIff | ruby-code-generator.js:275 | `trim()` is empty exactly when every character is whitespace |
| JsBuiltins.ToLowerAsciiAppend | code-generator-utils.js:31 | lower-casing distributes over concatenation |
| RubyText.GetVisibility | ruby-code-generator.js:149-160 | public, protected and private map to their sections, every other kind to none, in both directions |
| RubyCodeGenerator.GetIndentString | ruby-code-generator.js:49-61 | a tab, or exactly `indentSpaces` spaces (none when not positive) |
| RubyCodeGenerator.CountAttributeByVisibility | ruby-code-generator.js:517-542 | the three buckets of the attribute count |
| RubyCodeGenerator.CountStaticAttribute | ruby-code-generator.js:548-559 | the number of static attributes |
| RubyCodeGenerator.CountMethodByVisibility | ruby-code-generator.js:565-590 | the three buckets of the operation count |
| RubyCodeGenerator.GetClassAssociation | ruby-code-generator.js:598-615 | the stems of the navigable far ends, in association order |
| RubyCodeGenerator.WriteAssociation | ruby-code-generator.js:228-264 | appends the require line of every reachable end, then a blank line when any association exists; stack unchanged |
| RubyCodeGenerator.WriteRequire | ruby-code-generator.js:236-246 | one `require_relative` line, inside the package directory, `../` in a module, or bare |
| RubyCodeGenerator.WriteDocumentation | ruby-code-generator.js:272-286 | appends nothing when off or blank, otherwise the comment lines the array-to-number guard selects |
| RubyCodeGenerator.InitializeHeader | ruby-code-generator.js:294-307 | `def initialize(` plus the instance attribute names joined by `, ` plus `)` |
| RubyCodeGenerator.WriteConstructor | ruby-code-generator.js:293-330 | appends nothing for an unnamed class, otherwise header, assignments, initializers and `end`; stack unchanged |
| RubyCodeGenerator.WriteFieldAssignments | ruby-code-generator.js:310-315 | one `@n = n` line per instance attribute, in order |
| RubyCodeGenerator.WriteAssociationInitializers | ruby-code-generator.js:317-323 | one `@x = X.new` line per associated member, in order |
| RubyCodeGenerator.WriteAttributeAccessor | ruby-code-generator.js:339-370 | appends the selected attributes' documentation, then the accessor line, then the reader line |
| RubyCodeGenerator.WriteAccessorDocumentation | ruby-code-generator.js:345-359 | the loop writes the documentation of each selected attribute and builds both term lists from the selected names |
| RubyCodeGenerator.AccessorTermsInterleave | ruby-code-generator.js:348-358 | the pushed terms are the symbols of the selected names, each followed by `, ` |
| RubyCodeGenerator.VisitAccessorAttribute | ruby-code-generator.js:346-358 | one pass of the loop: documentation and one pair of terms for a selected attribute, nothing otherwise |
| RubyCodeGenerator.WriteDeclaration | ruby-code-generator.js:361-369 | pops the last separator and writes `keyword :a, :b`, or nothing for an empty list |
| RubyCodeGenerator.SymbolsSnoc | ruby-code-generator.js:350-356 | one more name adds its symbol at the end |
| RubyCodeGenerator.WriteConstant | ruby-code-generator.js:377-389 | appends `name = default` per read-only static, plus `private_constant` when private |
| RubyCodeGenerator.WriteClassVariable | ruby-code-generator.js:396-405 | appends `@@name = default` per mutable static |
| RubyCodeGenerator.ParameterTermsBeforeLast | ruby-code-generator.js:427-434 | before the last parameter, the terms are each name followed by `, ` |
| RubyCodeGenerator.ParameterTermsShape | ruby-code-generator.js:427-434 | after the last parameter the final separator is `)` |
| RubyCodeGenerator.ParameterTermsJoin | ruby-code-generator.js:425-437 | the joined parameter terms are the names joined by `, ` followed by `)` |
| RubyCodeGenerator.StubHeader | ruby-code-generator.js:425-437 | `def name`, with `(p1, p2)` only when there are parameters |
| RubyCodeGenerator.WriteStub | ruby-code-generator.js:424-444 | appends documentation, header, the TODO line one level in, and `end`; stack unchanged |
| RubyCodeGenerator.WriteMethod | ruby-code-generator.js:414-451 | appends one stub per operation of the visibility, with a blank line after it unless it is the last operation of the class |
| RubyCodeGenerator.WriteSection | ruby-code-generator.js:474-510 | appends the protected or private section exactly when its bucket is non-empty; stack restored |
| RubyCodeGenerator.WriteSectionContent | ruby-code-generator.js:475-488 | the label, the accessors one level in with a blank line, then the stubs |
| RubyCodeGenerator.WriteSectionAttributes | ruby-code-generator.js:478-481 | the accessors and a blank line when the bucket has attributes |
| RubyCodeGenerator.WriteMethodBlock | ruby-code-generator.js:468-472 | the stubs one level in when the bucket has operations |
| RubyCodeGenerator.WriteMethodByVisibility | ruby-code-generator.js:459-511 | appends public stubs, the protected and the private section; stack as found |
| RubyCodeGenerator.WriteToStringMethod | ruby-code-generator.js:621-628 | appends `def to_s`, the body, `end`, and leaves one extra level on the stack |
| RubyCodeGenerator.WriteInterface | ruby-code-generator.js:636-645 | appends `module Name`, the methods by visibility and `end` |
| RubyCodeGenerator.ClassHeaderWords | ruby-code-generator.js:680-687 | the words joined by spaces are `class Name` or `class Name < S0` |
| RubyCodeGenerator.ClassHeaderLine | ruby-code-generator.js:680-687 | the header uses the first superclass only |
| RubyCodeGenerator.WriteSuperClassRequire | ruby-code-generator.js:657-663 | a require for the first superclass and a blank line, when there is one |
| RubyCodeGenerator.WriteInterfaceRequire | ruby-code-generator.js:665-677 | a require for the first interface, in its package directory when it has one, and a blank line |
| RubyCodeGenerator.WriteClassPreamble | ruby-code-generator.js:657-687 | the requires, the documentation and the header line |
| RubyCodeGenerator.WriteAssociationAccessor | ruby-code-generator.js:695-709 | one `attr_accessor` over the associated members and a blank line, when there are any |
| RubyCodeGenerator.SymbolTerms | ruby-code-generator.js:698-701 | the terms are each member's symbol followed by `, ` |
| RubyCodeGenerator.WriteClassAttributes | ruby-code-generator.js:711-724 | public accessors (blank line only without statics), then constants, class variables and a blank line when there are statics |
| RubyCodeGenerator.WriteInclude | ruby-code-generator.js:690-693 | `include` of the first interface and a blank line |
| RubyCodeGenerator.WriteInitialize | ruby-code-generator.js:726-729 | the constructor and a blank line when `initializeMethod` is on |
| RubyCodeGenerator.WriteClassBody | ruby-code-generator.js:688-729 | the include, association accessors, attributes and constructor, one level in; leaves the level pushed |
| RubyCodeGenerator.WriteClass | ruby-code-generator.js:653-740 | appends the class text; the stack is as found with `to_s`, one level shorter without it |
| RubyCodeGenerator.WriteModuleOpening | ruby-code-generator.js:117-121 | requires relative to the module, package documentation and `module M`, leaving one level pushed |
| RubyCodeGenerator.WriteClassFile | ruby-code-generator.js:116-129 | the whole file text, inside `module M ... end` when the package has a name; the writer ends valid with an empty stack, the unbalanced outdent absorbed by `splice` on an empty stack |
| RubyCodeGenerator.GenerateClass | ruby-code-generator.js:113-133 | no file for an annotation type; otherwise the path `basePath/<stem>.rb` and the lines joined by newlines |
| RubyCodeGenerator.GenerateInterface | ruby-code-generator.js:136-141 | the interface file's path and text |
| RubyProperties.AttributeCountBuckets | ruby-code-generator.js:517-542 | protected counts every protected attribute, statics included; public and private count instance ones only; the sum is at most the number of attributes |
| RubyProperties.StaticCountIsTally | ruby-code-generator.js:548-559 | the static count is the number of static attributes |
| RubyProperties.OperationCountPositiveIff | ruby-code-generator.js:565-590 | a bucket is non-zero exactly when some operation has that visibility |
| RubyProperties.OperationCountBound | ruby-code-generator.js:565-590 | the three buckets never exceed the number of operations |
| RubyProperties.AccessorNamesPartition | ruby-code-generator.js:339-358 | accessor and reader lists split the bucket between them; for protected the statics are in neither |
| RubyProperties.AccessorNamesMembers | ruby-code-generator.js:346-358 | a name is in a list exactly when an instance attribute of that visibility and read-only flag carries it |
| RubyProperties.AccessorDeclarationShape | ruby-code-generator.js:361-369 | a declaration exists exactly when its list is non-empty, and it ends with the last symbol |
| RubyProperties.StaticPartition | ruby-code-generator.js:377-405 | every static is either read-only or mutable |
| RubyProperties.ConstantLinesCount | ruby-code-generator.js:377-389 | one line per read-only static plus one per private read-only static |
| RubyProperties.ClassVariableLinesCount | ruby-code-generator.js:396-405 | one line per mutable static |
| RubyProperties.StaticWritersExclusive | ruby-code-generator.js:377-405 | an attribute is rendered as a constant exactly when read-only static, as a class variable exactly when mutable static |
| RubyProperties.PrivateConstantLines | ruby-code-generator.js:381-386 | a private constant is followed by `private_constant :name` |
| RubyProperties.InstanceNamesCount | ruby-code-generator.js:298-303 | the parameter list leaves out exactly the statics |
| RubyProperties.FieldAssignmentsFollowNames | ruby-code-generator.js:298-315 | the assignments follow the parameter list one for one, in order |
| RubyProperties.AssociationInitializersLines | ruby-code-generator.js:317-323 | one initializer per associated member, in order |
| RubyProperties.ConstructorShape | ruby-code-generator.js:293-330 | empty exactly for an unnamed class; otherwise header, assignments, initializers and `end`, at the stated positions |
| RubyProperties.ConstructorFramed | ruby-code-generator.js:293-330 | a named class's constructor is the header, the assignment lines, the initializer lines and `end`, each stated by its position |
| RubyProperties.LineAtNonEmpty | code-generator-utils.js:18-24 | a non-empty text gives a non-empty line |
| RubyProperties.StubLinesEnd | ruby-code-generator.js:424-444 | a stub has at least three lines and ends with a non-empty `end` |
| RubyProperties.MethodEntryLinesEmptyIff | ruby-code-generator.js:423-449 | one operation contributes nothing exactly when it has another visibility |
| RubyProperties.MethodLinesEmptyIff | ruby-code-generator.js:414-451 | `writeMethod` writes nothing exactly when no operation has the visibility |
| RubyProperties.MethodLinesEndBlankBeforeLast | ruby-code-generator.js:446-448 | before the end of the list, the last stub written is followed by a blank line |
| RubyProperties.MethodLinesTrailingBlank | ruby-code-generator.js:446-448 | a bucket ends with a blank line exactly when the class's last operation belongs to another visibility |
| RubyProperties.SectionPresence | ruby-code-generator.js:474-510 | a section appears exactly when its bucket has attributes or operations, and opens with its label |
| RubyProperties.AssociationRequiresNonEmpty | ruby-code-generator.js:228-258 | every require line is non-empty |
| RubyProperties.AssociationRequiresMatchNames | ruby-code-generator.js:228-258 | one require line per name `getClassAssociation` yields |
| RubyProperties.ClassAssociationMembers | ruby-code-generator.js:598-615 | a name is yielded exactly when an association reaches a navigable far end with that stem |
| RubyProperties.AssociationBlankLine | ruby-code-generator.js:260-263 | the blank line is written, and last, exactly when any association exists; it is the only line when none is navigable |
| RubyProperties.DocumentationPresence | ruby-code-generator.js:275 | documentation is written exactly when on and the trimmed text is non-empty |
| RubyProperties.MultiLineDocumentationFirstLineOnly | ruby-code-generator.js:276-284 | multi-line text writes one `# ` line holding the text up to the first line break |
| RubyProperties.SingleLineDocumentation | ruby-code-generator.js:276-284 | one line the guard lets through is written whole after `# ` |
| RubyProperties.DefaultIndentWithoutSpaces | code-generator-utils.js:6 | no tab and no positive space count gives `''`, which the writer turns into two spaces |
| RubyProperties.OnlyFirstSuperClassAndInterface | ruby-code-generator.js:657-693 | dropping all but the first superclass and interface leaves the class text unchanged |
| RubyProperties.ClassEndDepthQuirk | ruby-code-generator.js:734-739 | in the class text the header is at depth d and the last line is `end` at d with `to_s`, at d-1 (clamped at zero) without it |
| RubyProperties.ClassEndsInModule | ruby-code-generator.js:123-126 | inside a module, the module's `end` is at the margin and the class's `end` is indented only with `to_s` |
| RubyProperties.EmptyClassSkeleton | ruby-code-generator.js:653-740 | an empty class with every option off gives the header and an `end` one level up |

## Left out

- The package branch of `generate` (ruby-code-generator.js:89-109) and
  `deleteFolderRecursive` (ruby-code-generator.js:72-86). These create and
  delete folders and open host dialogs; they are file-system I/O.
- Writing the file. `GenerateClass` and `GenerateInterface` return the path
  and the text that `writeFileSync` would receive.
- The host repository queries: `getSuperClasses`, `getInterface`,
  `getAssociation`, `getPackageName` and `getNonReturnParameters`. Their
  answers are inputs: `Relationships`, the module name, the package paths of
  association ends and interfaces, and the parameter names.
- `instanceof` dispatch on element types. Classes and interfaces are
  rendered by separate entry points.
- main.js (command registration, dialogs and preference lookup),
  ruby-preferences.js (preference schema) and unit-test.js (no assertions).
  These are host glue.
- `toCamelCase` is called but not defined in any of the files, so it is a
  function value in `Runtime`.
- The numeric conversion behind the guard `lines > 1` is the predicate
  `numberExceedsOne`. It is consulted only for a one-item array, because an
  array of two or more strings converts to `NaN`.
- `getFileName`, which the generator calls, is the writer's `fileName`.
- CodeGeneratorUtils.CodeWriter.FileName: `toLowerCase` is modelled on ASCII
  letters only, because Unicode case mapping is not available.
- A missing package (a `null` path) would make `fileName` throw. Package
  paths are strings here, and the empty string stands for "no package".
- `useAttributeAccessor` is never consulted by the generator, so it is not
  an option here.
- Annotation-type classes: `GenerateClass` returns `None` for a class whose
  stereotype is `annotationType`, as `generate` writes no file for it
  (ruby-code-generator.js:113).
- Accessor order: the `attr_accessor` line is written before the
  `attr_reader` line (ruby-code-generator.js:361-369).
- RubyCodeGenerator.GetIndentString: the space count is an integer. A
  fractional preference, for which the source's loop writes the count
  rounded up, is not modelled; an undefined preference writes no spaces,
  as a count that is not positive does here.
- JavaScript strings are UTF-16 code-unit sequences and Dafny strings are
  sequences of characters. Nothing here depends on the difference.
