/** The source-output callback of CloneIncrementalGenerator (IncerCloner.cs): for one class
    declaration carrying Clone.CloneableAttribute it rejects a class that is not partial or has
    no declared symbol, turns an empty containing-namespace name into no namespace, walks
    GetAllMembers of the class, adds one field builder per field not marked
    Clone.CloneIgnoreAttribute, and emits one source named after the class symbol whose text is
    the namespace builder's Build output. */
module IncerCloner {
  import opened Symbols
  import opened Helper
  import opened Emission
  import opened SyntaxBuilder

  const CloneableAttribute := "Clone.CloneableAttribute"
  const CloneIgnoreAttribute := "Clone.CloneIgnoreAttribute"
  const PartialKeyword := "partial"

  /** A source handed to AddSource: its hint name and its text. */
  datatype GeneratedSource = GeneratedSource(hintName: string, text: string)

  /** The attribute-driven provider: the class declarations among `nodes` that carry
      Clone.CloneableAttribute, in order; other declarations are dropped by its predicate. */
  function CloneableClasses(nodes: seq<SyntaxNode>): (r: seq<ClassDecl>)
    ensures |r| <= |nodes|
  {
    if nodes == [] then []
    else
      var last := nodes[|nodes| - 1];
      CloneableClasses(nodes[..|nodes| - 1])
      + (if last.ClassDeclaration? && CloneableAttribute in last.decl.attributes then [last.decl] else [])
  }

  /** Exactly the class declarations carrying the attribute reach the callback. */
  lemma {:induction false} CloneableClassesExact(nodes: seq<SyntaxNode>, d: ClassDecl)
    ensures d in CloneableClasses(nodes) <==> ClassDeclaration(d) in nodes && CloneableAttribute in d.attributes
  {
    if nodes != [] {
      var init := nodes[..|nodes| - 1];
      CloneableClassesExact(init, d);
      assert nodes == init + [nodes[|nodes| - 1]];
    }
  }

  /** The provider keeps the order of the declarations. */
  lemma {:induction false} CloneableClassesAppend(a: seq<SyntaxNode>, b: seq<SyntaxNode>)
    ensures CloneableClasses(a + b) == CloneableClasses(a) + CloneableClasses(b)
    decreases |b|
  {
    if b == [] {
      assert a + b == a;
    } else {
      var b' := b[..|b| - 1];
      assert (a + b)[..|a + b| - 1] == a + b';
      CloneableClassesAppend(a, b');
    }
  }

  predicate IsPartial(decl: ClassDecl)
  {
    PartialKeyword in decl.modifiers
  }

  /** string.IsNullOrEmpty(ns) ? null : ns, for the Name of the containing namespace. */
  function NormalizeNamespace(name: string): (r: Option<string>)
    ensures r.None? <==> name == ""
    ensures r.Some? ==> r.value == name
  {
    if name == "" then None else Some(name)
  }

  /** Some attribute of the member renders as Clone.CloneIgnoreAttribute. */
  predicate IsIgnored(m: Member)
  {
    CloneIgnoreAttribute in m.attributes
  }

  /** The member reaches CreateField. */
  predicate Selected(m: Member)
  {
    m.kind.FieldSymbol? && !IsIgnored(m)
  }

  /** What the field builder of a selected member reads from it. */
  function InfoOf(m: Member): FieldInfo
    requires m.kind.FieldSymbol?
  {
    FieldInfo(m.name, m.kind.fieldType)
  }

  /** The fields CreateField is called with, in member order. */
  function SelectFields(ms: seq<Member>): (r: seq<FieldInfo>)
    ensures |r| <= |ms|
  {
    if ms == [] then []
    else
      var last := ms[|ms| - 1];
      SelectFields(ms[..|ms| - 1]) + (if Selected(last) then [InfoOf(last)] else [])
  }

  lemma {:induction false} SelectFieldsAppend(a: seq<Member>, b: seq<Member>)
    ensures SelectFields(a + b) == SelectFields(a) + SelectFields(b)
    decreases |b|
  {
    if b == [] {
      assert a + b == a;
    } else {
      var b' := b[..|b| - 1];
      assert (a + b)[..|a + b| - 1] == a + b';
      SelectFieldsAppend(a, b');
    }
  }

  /** Every field handed to CreateField comes from a field member without the ignore
      attribute, and every such member hands its field over. */
  lemma {:induction false} SelectFieldsExact(ms: seq<Member>)
    ensures forall f | f in SelectFields(ms) :: exists m | m in ms :: Selected(m) && f == InfoOf(m)
    ensures forall m | m in ms && Selected(m) :: InfoOf(m) in SelectFields(ms)
  {
    if ms != [] {
      var init := ms[..|ms| - 1];
      SelectFieldsExact(init);
      assert ms == init + [ms[|ms| - 1]];
    }
  }

  /** The indices of the selected members among `ms`. */
  function SelectedIndices(ms: seq<Member>): set<int>
  {
    set k | 0 <= k < |ms| && Selected(ms[k])
  }

  /** Appending one member adds its index exactly when it is selected. */
  lemma SelectedIndicesSnoc(ms: seq<Member>)
    requires ms != []
    ensures |SelectedIndices(ms)|
         == |SelectedIndices(ms[..|ms| - 1])| + (if Selected(ms[|ms| - 1]) then 1 else 0)
  {
    var n := |ms| - 1;
    var before := SelectedIndices(ms[..n]);
    assert forall k | 0 <= k < n :: ms[..n][k] == ms[k];
    assert n !in before;
    if Selected(ms[n]) {
      assert SelectedIndices(ms) == before + {n};
    } else {
      assert SelectedIndices(ms) == before;
    }
  }

  /** One CreateField call per selected member: the count of non-ignored fields. */
  lemma {:induction false} SelectFieldsCount(ms: seq<Member>)
    ensures |SelectFields(ms)| == |SelectedIndices(ms)|
  {
    if ms != [] {
      SelectFieldsCount(ms[..|ms| - 1]);
      SelectedIndicesSnoc(ms);
    }
  }

  /** The plan the callback gives its only class builder. */
  function PlanOf(decl: ClassDecl, symbol: ClassSymbol): ClassPlan
  {
    ClassPlan(decl, SelectFields(GetAllMembers(symbol.namedType)))
  }

  /** The source the callback adds for one cloneable class declaration, if any. */
  function ExpectedSource(decl: ClassDecl, symbol: Option<ClassSymbol>): Option<GeneratedSource>
  {
    if !IsPartial(decl) || symbol.None? then None
    else
      var ns := NormalizeNamespace(symbol.value.containingNamespace);
      Some(GeneratedSource(symbol.value.display + ".g.cs",
                           Text(RenderNamespace(ns, [PlanOf(decl, symbol.value)]))))
  }

  lemma SingleClassLines(ns: Option<string>, plan: ClassPlan)
    ensures ClassesLines(ns, [plan]) == RenderClass(ClassIndent(ns), plan)
  {
    assert [plan][..0] == [];
    AppendEmpty(RenderClass(ClassIndent(ns), plan));
  }

  /** A source is added exactly for a partial class with a declared symbol, and it is named
      after the symbol. */
  lemma ExpectedSourceWhen(decl: ClassDecl, symbol: Option<ClassSymbol>)
    ensures ExpectedSource(decl, symbol).Some? <==> IsPartial(decl) && symbol.Some?
    ensures ExpectedSource(decl, symbol).Some? ==>
      ExpectedSource(decl, symbol).value.hintName == symbol.value.display + ".g.cs"
  {
  }

  /** In the global namespace the text is the class alone, unindented. */
  lemma ExpectedSourceGlobal(decl: ClassDecl, symbol: ClassSymbol)
    requires IsPartial(decl) && symbol.containingNamespace == ""
    ensures ExpectedSource(decl, Some(symbol)).value.text == Text(RenderClass("", PlanOf(decl, symbol)))
  {
    var plan := PlanOf(decl, symbol);
    RenderNamespaceText(None, [plan]);
    SingleClassLines(None, plan);
  }

  /** Otherwise the text is `namespace N`, `{`, the class indented by four spaces, `}`. */
  lemma ExpectedSourceNamespaced(decl: ClassDecl, symbol: ClassSymbol)
    requires IsPartial(decl) && symbol.containingNamespace != ""
    ensures var n := symbol.containingNamespace;
      ExpectedSource(decl, Some(symbol)).value.text
      == "namespace " + n + "\n{\n" + Text(RenderClass("    ", PlanOf(decl, symbol))) + "}\n"
  {
    var ns := Some(symbol.containingNamespace);
    var plan := PlanOf(decl, symbol);
    RenderNamespaceText(ns, [plan]);
    SingleClassLines(ns, plan);
  }

  /** The fields of the emitted class are the selected members of GetAllMembers: none is
      ignored, none is an override, and each is declared by the class or an ancestor. */
  lemma ExpectedFieldsOrigin(decl: ClassDecl, symbol: ClassSymbol, f: FieldInfo)
    requires f in PlanOf(decl, symbol).fields
    ensures exists m | m in GetAllMembers(symbol.namedType) ::
      Selected(m) && !m.isOverride && f == InfoOf(m)
      && exists a | a in Ancestry(symbol.namedType) :: m in a.members
  {
    var ms := GetAllMembers(symbol.namedType);
    SelectFieldsExact(ms);
    var m :| m in ms && Selected(m) && f == InfoOf(m);
    MembersComeFromAncestry(symbol.namedType, true, m);
  }

  /** The member loop: CreateField for each selected member, CreateProperty for each
      property, nothing for other kinds. */
  method AddMembers(cb: ClassBuilder, ms: seq<Member>)
    requires cb.fields == []
    modifies cb`fields
    ensures FreshFields(cb.fields, cb.indent + "    ", SelectFields(ms))
  {
    var i := 0;
    while i < |ms|
      invariant 0 <= i <= |ms|
      invariant FreshFields(cb.fields, cb.indent + "    ", SelectFields(ms[..i]))
    {
      var m := ms[i];
      assert ms[..i + 1][..i] == ms[..i];
      match m.kind {
        case FieldSymbol(fieldType) =>
          if !IsIgnored(m) {
            cb.CreateField(FieldInfo(m.name, fieldType));
          }
        case PropertySymbol =>
          cb.CreateProperty(m);
        case _ =>
      }
      i := i + 1;
    }
    assert ms[..i] == ms;
  }

  /** A namespace builder with an empty buffer and one fresh class builder will build the
      rendered namespace of that one class. */
  lemma OneClassPending(nb: NamespaceBuilder, plan: ClassPlan)
    requires nb.sb == [] && |nb.classes| == 1
    requires nb.classes[0].indent == ClassIndent(nb.ns) && FreshClass(nb.classes[0].State(), plan)
    ensures nb.Pending() == RenderNamespace(nb.ns, [plan])
  {
    var st := nb.classes[0].State();
    FreshNamespaceOutput(nb.ns, [st], [plan]);
    assert Snapshot(nb.classes) == [st];
  }

  /** The builders the callback sets up for one class: a namespace builder with one class
      builder holding one fresh field builder per selected member; nothing built yet. */
  method NewBuilderTree(ns: Option<string>, decl: ClassDecl, members: seq<Member>) returns (nb: NamespaceBuilder)
    ensures fresh(nb) && nb.Valid() && fresh(nb.classes)
    ensures nb.Pending() == RenderNamespace(ns, [ClassPlan(decl, SelectFields(members))])
  {
    nb := new NamespaceBuilder(ns);
    var classBuilder := nb.CreateClass(decl);
    AddMembers(classBuilder, members);
    OneClassPending(nb, ClassPlan(decl, SelectFields(members)));
  }

  /** The text the callback hands to AddSource: the Build output of its builder tree, which is
      the rendered namespace holding the class and its selected fields. */
  method BuildClassSource(ns: Option<string>, decl: ClassDecl, members: seq<Member>) returns (lines: seq<string>)
    ensures lines == RenderNamespace(ns, [ClassPlan(decl, SelectFields(members))])
  {
    var nb := NewBuilderTree(ns, decl, members);
    lines := nb.Build();
  }

  /** The callback for one class declaration and its declared symbol (None when
      GetDeclaredSymbol returns null). */
  method GenerateSource(decl: ClassDecl, symbol: Option<ClassSymbol>) returns (output: Option<GeneratedSource>)
    ensures output == ExpectedSource(decl, symbol)
  {
    if !(PartialKeyword in decl.modifiers) {
      return None;
    }
    if symbol.None? {
      return None;
    }
    var clazz := symbol.value;
    var ns: Option<string> := Some(clazz.containingNamespace);
    if ns.value == "" {
      ns := None;
    }
    var lines := BuildClassSource(ns, decl, GetAllMembers(clazz.namedType));
    output := Some(GeneratedSource(clazz.display + ".g.cs", Text(lines)));
  }
}
