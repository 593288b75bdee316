# clone.NET: a Dafny model of the source generator and the runtime cloner

clone.NET makes deep copies of C# objects in two parts.

- **The generator** (`CloneGenerator`) is an incremental Roslyn source generator. For every
  class declaration marked `[Clone.Cloneable]` that is `partial` and has a declared symbol, it
  emits a `<Class>.g.cs` source. That source holds a parameterless `Clone()` method with one
  statement per field the class inherits or declares that is not ignored, and two for a field of
  Error kind. The field's type decides the statement: a plain copy, an empty `List` whose
  capacity is the source's `Count`, an array of the source's `Length` with default elements (no
  element is copied), or a `throw` for types it cannot handle (followed, for Error fields, by
  the plain copy). Fields marked `[Clone.CloneIgnore]` and override members are skipped.
- **The runtime** (`CloneCore`) provides `Cloner.Make<T>`. It compiles a cloning routine per
  runtime type, caches it, and runs it on each call. Building the routine fails when the type
  has no parameterless constructor, or when its `Clone` method is not an instance method taking
  one argument of the type. The parameterless `Clone()` the generator emits is such a method, so
  `Make` rejects a generated class (`GeneratedCloneIsRejected`).

The model has six modules.

| module | file | models |
|---|---|---|
| `Symbols` | symbols.dfy | the Roslyn symbols and syntax the generator reads, as plain values |
| `Helper` | helper.dfy | `GetAllMembers`: base-type members first, overrides filtered out |
| `Emission` | emission.dfy | `GetTypedConstantKind`, the statements chosen per field, and the lines each builder emits |
| `SyntaxBuilder` | syntax_builder.dfy | the builder tree, with text buffers that `Build` appends to |
| `IncerCloner` | incer_cloner.dfy | the provider and the source-output callback of `CloneIncrementalGenerator` |
| `Clone` | clone.dfy | `Cloner.Make<T>` and its runtime-type cache |

How each part is modelled:

- **Builders.** A builder's `StringBuilder` is the sequence of lines appended to it.
  `Emission.Text` joins those lines into the string (each line followed by `"\n"`).
  - `NamespaceBuilder` and `ClassBuilder` are classes: their buffers and child lists change in
    place.
  - A `FieldBuilder` can only be reached through its class builder's child list, so it is a
    value held in that list.
  - Each `Build` method is proved against a pure function of the state before the call:
    `ClassState.Output` or `NamespaceOutput`. For a freshly made tree, that function is proved
    equal to `RenderClass` / `RenderNamespace` (`FreshClassOutput`, `FreshNamespaceOutput`).
- **The callback.** `IncerCloner.GenerateSource` is proved equal to the pure `ExpectedSource`.
  The shape of the text, and where each field comes from, are lemmas about `ExpectedSource`.
- **The runtime.** `Cloner.Make` is proved against the pure cache step `Resolve`. Lemmas state
  the cache discipline, both for one step and along any sequence of calls (`Run`). A call that
  fails caches nothing, whether the check or the building of the routine failed.

## Model

| member | source | states |
|---|---|---|
| Helper.FilterMembers | src/CloneGenerator/Helper.cs:24-27 | the result keeps exactly the members the override filter lets through (every kept member is in the input and passes it, every input member that passes is kept), no member is added, and with `withoutOverride` false nothing is dropped |
| Helper.Ancestry | src/CloneGenerator/Helper.cs:10-12 | the chain of base types ends with the type itself |
| Helper.GetAllMembers | src/CloneGenerator/Helper.cs:7-29 | with the default `withoutOverride` no returned member is an override, and every returned member is declared somewhere along the base-type chain |
| Helper.FilterMembersAppend | src/CloneGenerator/Helper.cs:22-28 | filtering distributes over concatenation, so members keep their order |
| Helper.FilterMembersKeepsAll | src/CloneGenerator/Helper.cs:15-18 | members that all pass the filter come out unchanged |
| Helper.GetAllMembersIsFilteredChain | src/CloneGenerator/Helper.cs:9-28 | `GetAllMembers(t)` is the base-first concatenation of the own members of every type in the chain, with overrides removed |
| Helper.BaseMembersComeFirst | src/CloneGenerator/Helper.cs:10-28 | the members of the base type (taken with the default filter, whatever `withoutOverride` is) come before the type's own filtered members |
| Helper.OverridesOnlyAmongOwnMembers | src/CloneGenerator/Helper.cs:12-19 | with `withoutOverride` false an override can appear only among the type's own members, never among inherited ones, because the recursive call uses the default |
| Helper.AncestryFollowsBaseTypes | src/CloneGenerator/Helper.cs:10-12 | the chain starts at a type without a base type, and each type in it has the previous one as its base type |
| Helper.ChainMembersAlongAncestry | src/CloneGenerator/Helper.cs:9-28 | the unfiltered member walk is the concatenation of the own members of every type in the chain, base first |
| Helper.FlattenMembersOrigin | src/CloneGenerator/Helper.cs:22-28 | every member of a concatenation is an own member of one of the types |
| Helper.MembersComeFromAncestry | src/CloneGenerator/Helper.cs:7-29 | every member `GetAllMembers` yields is declared by the type or one of its base types |
| Emission.GetTypedConstantKind | src/CloneGenerator/SyntaxBuilder.cs:198-228 | the kind is Primitive exactly for the fourteen primitive special types; `GetTypedConstantKindCases` gives the other cases |
| Emission.GetTypedConstantKindCases | src/CloneGenerator/SyntaxBuilder.cs:198-228 | the kind is Primitive exactly for the fourteen listed special types; otherwise Array, Enum or Error exactly for those type kinds, and Type for every other type |
| Emission.PrimitiveSpecialTypesCount | src/CloneGenerator/SyntaxBuilder.cs:202-215 | fourteen distinct special types count as primitive |
| Emission.TextAppend | src/CloneGenerator/SyntaxBuilder.cs:27 | appending one buffer's lines after another's gives the concatenation of the two texts |
| Emission.IndentedOne | src/CloneGenerator/SyntaxBuilder.cs:171-179 | one statement becomes one line with the field indent in front |
| Emission.IndentedTwo | src/CloneGenerator/SyntaxBuilder.cs:147-150 | two statements become two lines, in order, each with the field indent in front |
| Emission.AssignIsNotThrow | src/CloneGenerator/SyntaxBuilder.cs:159 | an assignment statement assigns `obj.<name>` and is not a throw |
| Emission.ThrowIsNotAssign | src/CloneGenerator/SyntaxBuilder.cs:149 | a throw statement is a throw and assigns no field |
| Emission.FieldStatements | src/CloneGenerator/SyntaxBuilder.cs:144-179 | two statements for an Error field and one for every other kind; `FieldStatementsShape` gives which statement is a throw and which assigns the field |
| Emission.FieldStatementsShape | src/CloneGenerator/SyntaxBuilder.cs:144-179 | an Error field gets two statements (the error throw, then the fall-through copy), every other field gets one; the first statement throws exactly for Error fields and for Type fields whose original definition is not `List<T>`; the last one assigns the field exactly when it does not throw; Primitive, Enum and Error fields end with the plain copy |
| Emission.FieldsLinesCount | src/CloneGenerator/SyntaxBuilder.cs:90 | the fields emit one line each plus one more per Error field, and every line starts with the field indent (the class indent plus four spaces) |
| Emission.ClassIndent | src/CloneGenerator/SyntaxBuilder.cs:47 | a class is indented four spaces inside a namespace and not at all in the global namespace |
| Emission.FullName | src/CloneGenerator/SyntaxBuilder.cs:98-102 | the full name ends with the class name; it is the class name alone without a namespace and `<ns>.<name>` with one |
| Emission.RenderClassShape | src/CloneGenerator/SyntaxBuilder.cs:104-121 | a fresh class renders 8 lines plus its field lines: the modifiers-and-name header first, the `var obj = new <name>();` line fifth, the field lines in order between it and `return obj;`, and the closing brace last |
| Emission.RenderNamespaceShape | src/CloneGenerator/SyntaxBuilder.cs:52-71 | without a namespace the output is the classes alone; with one it is `namespace <ns>`, `{`, the classes, `}` |
| Emission.NamespaceBeginText | src/CloneGenerator/SyntaxBuilder.cs:52-61 | the namespace header text is `namespace <ns>\n{\n`, or empty without a namespace |
| Emission.NamespaceEndText | src/CloneGenerator/SyntaxBuilder.cs:63-71 | the namespace footer text is `}\n`, or empty without a namespace |
| Emission.RenderNamespaceText | src/CloneGenerator/SyntaxBuilder.cs:22-32 | the built text is the classes' text, wrapped in the namespace header and footer text when there is a namespace |
| SyntaxBuilder.FieldBuilder.CreateBegin | src/CloneGenerator/SyntaxBuilder.cs:135-187 | the field builder's buffer grows by exactly the field's lines for its kind, and nothing else changes |
| SyntaxBuilder.FieldBuilder.Build | src/CloneGenerator/SyntaxBuilder.cs:22-32 | a field builder, which has no children and an empty CreateEnd (194-196), returns its buffer followed by its field lines, and keeps that as its buffer |
| SyntaxBuilder.FreshFieldPending | src/CloneGenerator/SyntaxBuilder.cs:88-91 | a field builder with an empty buffer, as CreateField makes it, builds exactly its field lines |
| SyntaxBuilder.AppendFieldsFresh | src/CloneGenerator/SyntaxBuilder.cs:25-28 | appending the Build outputs of freshly created field builders appends their field lines in the order they were created |
| SyntaxBuilder.AppendFieldsSplit | src/CloneGenerator/SyntaxBuilder.cs:25-28 | the children's outputs are appended after whatever the buffer held before |
| SyntaxBuilder.ClassOutputGrows | src/CloneGenerator/SyntaxBuilder.cs:16-32 | a class builder's Build output strictly extends its old buffer by at least eight lines, so a second Build returns the first one's output followed by more |
| SyntaxBuilder.FreshClassOutput | src/CloneGenerator/SyntaxBuilder.cs:80-121 | the first Build of a class builder holding fresh field builders returns exactly the rendered class |
| SyntaxBuilder.ClassBuilder.constructor | src/CloneGenerator/SyntaxBuilder.cs:80-85 | a class builder starts with an empty buffer and no children |
| SyntaxBuilder.ClassBuilder.CreateField | src/CloneGenerator/SyntaxBuilder.cs:88-91 | exactly one field builder is appended, with an empty buffer and indented four more spaces than the class |
| SyntaxBuilder.ClassBuilder.CreateProperty | src/CloneGenerator/SyntaxBuilder.cs:93-96 | nothing changes |
| SyntaxBuilder.ClassBuilder.CreateBegin | src/CloneGenerator/SyntaxBuilder.cs:104-114 | the buffer grows by the five header lines of the Clone method |
| SyntaxBuilder.ClassBuilder.CreateEnd | src/CloneGenerator/SyntaxBuilder.cs:116-121 | the buffer grows by the three closing lines |
| SyntaxBuilder.ClassBuilder.BuildFields | src/CloneGenerator/SyntaxBuilder.cs:25-28 | each child's Build output is appended in order, and each child's own buffer becomes that output (the child left as its own Build leaves it) |
| SyntaxBuilder.ClassBuilder.Build | src/CloneGenerator/SyntaxBuilder.cs:22-32 | returns the class builder's Output (old buffer, header, children's outputs, closing lines), keeps it as the buffer, and leaves each child with its own output as its buffer; the builder's whole state becomes `AfterBuild` of the old one |
| SyntaxBuilder.ClassBuilder.GetFullName | src/CloneGenerator/SyntaxBuilder.cs:98-102 | the class name alone in the global namespace, `<ns>.<name>` inside a namespace; either way it ends with the class name |
| SyntaxBuilder.SecondBuildOutput | src/CloneGenerator/SyntaxBuilder.cs:22-32 | building a class builder twice returns the first output followed by the header, then for each field builder its earlier lines and its lines again, then the closing lines: the buffers are never cleared (27, 31), so every field's lines appear twice in the second half |
| SyntaxBuilder.AppendAllLength | src/CloneGenerator/SyntaxBuilder.cs:25-28 | parts of at least eight lines each (every class output) add at least eight lines apiece |
| SyntaxBuilder.AppendAllSplit | src/CloneGenerator/SyntaxBuilder.cs:25-28 | the children's outputs are appended after whatever the buffer held before, which is kept as it is |
| SyntaxBuilder.NamespaceOutputGrows | src/CloneGenerator/SyntaxBuilder.cs:16-32 | the namespace Build output extends the old buffer, strictly exactly when there is a namespace or at least one class |
| SyntaxBuilder.AppendClassesFresh | src/CloneGenerator/SyntaxBuilder.cs:25-28 | appending the outputs of fresh class builders appends their rendered classes in creation order |
| SyntaxBuilder.FreshNamespaceOutput | src/CloneGenerator/SyntaxBuilder.cs:22-71 | the first Build of a fresh namespace builder tree returns exactly the rendered namespace |
| SyntaxBuilder.NamespaceBuilder.constructor | src/CloneGenerator/SyntaxBuilder.cs:39-42 | a namespace builder starts with an empty buffer and no classes |
| SyntaxBuilder.NamespaceBuilder.CreateClass | src/CloneGenerator/SyntaxBuilder.cs:45-50 | exactly one new class builder is appended and returned, with the builder's namespace, an empty buffer and no fields; its indent is four spaces inside a namespace and empty otherwise |
| SyntaxBuilder.NamespaceBuilder.CreateBegin | src/CloneGenerator/SyntaxBuilder.cs:52-61 | the buffer grows by the namespace header, or not at all without a namespace |
| SyntaxBuilder.NamespaceBuilder.CreateEnd | src/CloneGenerator/SyntaxBuilder.cs:63-71 | the buffer grows by the closing brace, or not at all without a namespace |
| SyntaxBuilder.NamespaceBuilder.BuildClasses | src/CloneGenerator/SyntaxBuilder.cs:25-28 | each class builder's output is appended in order, and each class builder's state becomes `AfterBuild` of its state before the loop: its output as its buffer, every field builder built |
| SyntaxBuilder.NamespaceBuilder.Build | src/CloneGenerator/SyntaxBuilder.cs:22-32 | returns what the tree's state before the call determines (`Pending`), keeps it as the buffer, and leaves every class builder in `AfterBuild` of its old state |
| IncerCloner.CloneableClasses | src/CloneGenerator/IncerCloner.cs:12-14 | the provider yields no more declarations than it was given; `CloneableClassesExact` and `CloneableClassesAppend` say which, in what order |
| IncerCloner.CloneableClassesExact | src/CloneGenerator/IncerCloner.cs:12-14 | a declaration reaches the callback exactly when it is a class declaration carrying `Clone.CloneableAttribute` |
| IncerCloner.CloneableClassesAppend | src/CloneGenerator/IncerCloner.cs:12-14 | the provider keeps the declarations in order |
| IncerCloner.NormalizeNamespace | src/CloneGenerator/IncerCloner.cs:36-41 | an empty containing-namespace name becomes no namespace; any other name is kept |
| IncerCloner.SelectFields | src/CloneGenerator/IncerCloner.cs:46-62 | no more fields than members are selected; `SelectFieldsExact`, `SelectFieldsAppend` and `SelectFieldsCount` say which, in what order |
| IncerCloner.SelectFieldsAppend | src/CloneGenerator/IncerCloner.cs:46-68 | field selection keeps member order |
| IncerCloner.SelectFieldsExact | src/CloneGenerator/IncerCloner.cs:48-62 | every selected field comes from a field member without the ignore attribute, and every such member is selected |
| IncerCloner.SelectFieldsCount | src/CloneGenerator/IncerCloner.cs:46-68 | CreateField is called once per field member without the ignore attribute |
| IncerCloner.ExpectedSourceWhen | src/CloneGenerator/IncerCloner.cs:21-71 | a source is added exactly for a partial class with a declared symbol, and its hint name is the symbol's display name followed by `.g.cs` |
| IncerCloner.ExpectedSourceGlobal | src/CloneGenerator/IncerCloner.cs:36-71 | in the global namespace the text is the unindented rendered class |
| IncerCloner.ExpectedSourceNamespaced | src/CloneGenerator/IncerCloner.cs:36-71 | inside a namespace the text is `namespace <ns>\n{\n`, the class indented by four spaces, then `}\n` |
| IncerCloner.ExpectedFieldsOrigin | src/CloneGenerator/IncerCloner.cs:46-62 | every emitted field comes from a member of `GetAllMembers` that is a field, not ignored, not an override, and declared by the class or a base class |
| IncerCloner.AddMembers | src/CloneGenerator/IncerCloner.cs:46-68 | after the member loop the class builder holds one fresh field builder per selected member, in order; properties and other members add nothing |
| IncerCloner.NewBuilderTree | src/CloneGenerator/IncerCloner.cs:43-69 | the builders set up by the callback will build exactly the rendered namespace holding the class and its selected fields |
| IncerCloner.BuildClassSource | src/CloneGenerator/IncerCloner.cs:43-71 | the namespace builder's Build output is the rendered namespace holding the class and its selected fields |
| IncerCloner.GenerateSource | src/CloneGenerator/IncerCloner.cs:16-72 | the callback adds exactly `ExpectedSource`: nothing for a class that is not partial or has no symbol, otherwise one source with the expected name and text |
| Clone.FindCloneMethod | src/CloneCore/Clone.cs:25 | finds a method exactly when some method is named Clone and declared by the type itself, and then returns the first such method in reflection order |
| Clone.Resolve | src/CloneCore/Clone.cs:22-41 | only a cache miss can fail, and a failure leaves the cache as it was; `ResolveSucceeds`, `ResolveCacheEffect` and `ResolveKeepsValid` give the rest |
| Clone.ResolveSucceeds | src/CloneCore/Clone.cs:22-39 | a call gets a routine exactly when its runtime type is already cached, or passes the check for the static `T` and its expression tree can be built; on a miss it fails as not cloneable exactly when the check fails, then for want of a parameterless constructor exactly when there is none, then for a Clone method the call cannot take exactly when the method is static or does not take one argument of the type |
| Clone.ResolveHit | src/CloneCore/Clone.cs:22 | a cached runtime type reuses the stored routine and leaves the cache as it is, whatever the static type |
| Clone.ResolveCacheEffect | src/CloneCore/Clone.cs:22-41 | a rejected call leaves the cache unchanged; a successful one leaves the runtime type mapped to the routine it used; the key set grows by that type only |
| Clone.ResolveKeepsEntries | src/CloneCore/Clone.cs:22-41 | no cache entry is ever overwritten or removed |
| Clone.ResolveKeepsValid | src/CloneCore/Clone.cs:32-41 | every cached routine instantiates the type it is stored under and calls that type's own Clone method, which the tree can call; so the routine used for an object instantiates the object's own runtime type |
| Clone.GeneratedCloneIsRejected | src/CloneCore/Clone.cs:35-36 | a type shaped like a generated class (the interface, a parameterless constructor, and the parameterless `Clone()` of SyntaxBuilder.cs:111) fails when the tree is built and caches nothing |
| Clone.RunKeepsEntries | src/CloneCore/Clone.cs:11-41 | along any sequence of calls the cache only grows |
| Clone.RunCachedTypes | src/CloneCore/Clone.cs:22-41 | after a sequence of calls a type is cached exactly when it was cached before, or some call with that runtime type passed the check for its static type and its tree could be built |
| Clone.CheckDependsOnHistory | src/CloneCore/Clone.cs:20-24 | the check uses the static `T` but the cache is keyed by the runtime type, so an `MChild` passed as a `Child` is rejected as not cloneable on a fresh cache but accepted once an `MChild` passed as an `MChild` has been cached |
| Clone.Invoke | src/CloneCore/Clone.cs:32-39 | the compiled routine returns a freshly allocated instance of the routine's type |
| Clone.Cloner.constructor | src/CloneCore/Clone.cs:11 | the cache starts empty, which is trivially valid |
| Clone.Cloner.Make | src/CloneCore/Clone.cs:13-45 | a null argument returns null and leaves the cache unchanged; otherwise the cache becomes `Resolve`'s cache (unchanged on every failure), a type failing the check throws `<type> isn't cloneable object`, a tree that cannot be built fails with its reason, and a success returns a fresh object of the argument's runtime type that is not the argument itself |

## Left out

- Roslyn and reflection are plain values. Symbols, syntax nodes, attributes and reflection
  results are modelled as datatypes holding only the facts the code reads.
  - `Compilation`, `GetSemanticModel` and `GetDeclaredSymbol` are not modelled; the declared
    symbol is passed in as an `Option`.
  - The attribute-provider machinery of Roslyn is a filter over a sequence of nodes.
- Console output is left out: the `Console.WriteLine` calls in `FieldBuilder.CreateBegin` only
  write diagnostics.
- `StringBuilder` is a sequence of lines. `AppendLine` adds `"\n"`; the platform's
  `Environment.NewLine` is not modelled.
- The abstract `SyntaxBuilder` base class is not modelled as a shared type. Dafny traits are not
  used, so `Build` is written once per builder class.
  - `FieldBuilder` is a value held in its class builder's child list, because nothing else can
    reach it.
  - No child is ever added to a field builder, so it has no child list.
- The callback passes the class symbol to `CreateClass` (IncerCloner.cs:44), but `CreateClass`
  is declared over the class declaration (SyntaxBuilder.cs:45). The model passes the
  declaration, which is what `ClassBuilder` reads.
- `CreateField` is called with the field symbol (IncerCloner.cs:59) but declared over the field
  declaration (SyntaxBuilder.cs:88). The model passes one field's name and type.
- SyntaxBuilder.FieldBuilder.CreateBegin: only the first declarator of a field declaration is
  read (SyntaxBuilder.cs:139), so for `public int a, b;` only `a` gets a statement. The model
  takes one field per `CreateField` call and cannot express a declaration with several
  declarators.
- The generated `Clone()` takes no argument (SyntaxBuilder.cs:111), but the routine in
  `Cloner.Make` calls `Clone(target)` (Clone.cs:36). Each file keeps its own behaviour, and
  `GeneratedCloneIsRejected` shows what happens when the two meet.
- `Clone.Invoke` does not model what the user's `Clone` method does to the fresh target. That
  code is not part of this model; only the allocation and the returned object are.
  - The user's parameterless constructor and `Clone` method are taken not to throw. In the
    source the routine is cached (Clone.cs:41) before it runs (Clone.cs:44), so an exception
    from user code would leave `Make` with the type already cached; in the model every call
    that gets a routine returns a fresh instance.
- Expression trees and `Compile` are modelled only by when they fail. A compiled routine is
  the pair of its target type and the Clone method it calls.
  - Building the tree is modelled as failing for a type without a parameterless constructor
    (Clone.cs:35) and for a Clone method that is static or does not take exactly one argument
    the type converts to (Clone.cs:36). The failure is the `TreeFailed` outcome; the .NET
    exception type and message are not modelled.
  - Generic methods, open generic types, abstract types, `ref` parameters and parameters
    with defaults are not modelled; a type converts to its own name, its base types and its
    interfaces only. `Compile` itself is taken to succeed once the tree is built.
- The `(T)` cast on the result is not modelled; `ResolveKeepsValid` shows the cast is to the
  object's own runtime type.
- The static `Cache` dictionary is a field of a `Cloner` object. Its thread-safety is not
  modelled: it is a plain non-concurrent dictionary.
- A value-type `T` is not modelled: `Make` takes a possibly-null `Instance`.
- Types are identified by their full names. `typeof(IClone<T>)` is the name
  `Clone.IClone<T>`, and an exception message renders the type by its name.
