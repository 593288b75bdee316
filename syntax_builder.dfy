/** The builder tree of SyntaxBuilder.cs: a NamespaceBuilder holds ClassBuilders, a ClassBuilder
    holds FieldBuilders. Every builder owns a buffer `sb` that only ever grows; Build appends the
    builder's begin lines, then the Build output of each child in the order the children were
    added, then its end lines, and returns the whole buffer. The buffer is never cleared, so a
    second Build returns the first one's output followed by more.

    A buffer is the sequence of lines appended to it (Emission.Text gives the string). A field
    builder is reachable only through its class builder's child list, so it is a value there;
    class builders are shared between the namespace builder and the caller of CreateClass, so
    they are objects. */
module SyntaxBuilder {
  import opened Symbols
  import opened Emission

  /** A FieldBuilder: the field it emits, its indent and its own text buffer. */
  datatype FieldBuilder = FieldBuilder(field: FieldInfo, indent: string, sb: seq<string>)
  {
    /** FieldBuilder.CreateBegin: appends the field's statements, chosen by the kind of its type. */
    method CreateBegin() returns (b: FieldBuilder)
      ensures b == this.(sb := sb + FieldLines(indent, field))
    {
      var t := field.fieldType;
      var kind := GetTypedConstantKind(t);
      var pad := indent + "    ";
      var out := sb;
      if kind == Error {
        out := out + [pad + Throw("error type " + t.display + " " + field.name)];
      }
      if kind == Type {
        if t.originalDefinition == ListDefinition {
          out := out + [pad + Assign(field.name, "new (" + field.name + ".Count)")];
        } else {
          out := out + [pad + Throw("unhandled field " + t.display + " " + field.name)];
        }
      } else if kind == Array {
        out := out + [pad + Assign(field.name, "new " + t.kind.element.display + "[" + field.name + ".Length]")];
      } else {
        out := out + [pad + Assign(field.name, field.name)];
      }
      var stmts := FieldStatements(field);
      if kind == Error {
        IndentedTwo(pad, stmts);
      } else {
        IndentedOne(pad, stmts);
      }
      b := this.(sb := out);
    }

    /** What the next Build returns. */
    function Pending(): seq<string>
    {
      sb + FieldLines(indent, field)
    }

    /** SyntaxBuilder.Build for a field builder, which never has children. */
    method Build() returns (b: FieldBuilder, r: seq<string>)
      ensures r == Pending() && b == this.(sb := r)
    {
      b := CreateBegin();
      r := b.sb;
    }
  }

  /** The Build outputs of the field builders `fs`, in order. */
  function FieldOutputs(fs: seq<FieldBuilder>): (r: seq<seq<string>>)
    ensures |r| == |fs|
  {
    if fs == [] then [] else FieldOutputs(fs[..|fs| - 1]) + [fs[|fs| - 1].Pending()]
  }

  lemma {:induction false} FieldOutputsAt(fs: seq<FieldBuilder>, k: nat)
    requires k < |fs|
    ensures FieldOutputs(fs)[k] == fs[k].Pending()
  {
    if k < |fs| - 1 {
      FieldOutputsAt(fs[..|fs| - 1], k);
    }
  }

  /** The text `acc` followed by the Build outputs of the first `n` field builders of `fs`. */
  function AppendFields(acc: seq<string>, fs: seq<FieldBuilder>, n: nat): seq<string>
    requires n <= |fs|
  {
    AppendAll(acc, FieldOutputs(fs), n)
  }

  /** The field builders after each has been built once: every buffer has grown by its own
      Build output. */
  function BuiltFields(fs: seq<FieldBuilder>): (r: seq<FieldBuilder>)
    ensures |r| == |fs|
  {
    seq(|fs|, k requires 0 <= k < |fs| => fs[k].(sb := fs[k].Pending()))
  }

  /** The `k`th built field builder is the `k`th one with its Build output appended. */
  lemma {:induction false} BuiltFieldsAt(fs: seq<FieldBuilder>, k: nat)
    requires k < |fs|
    ensures BuiltFields(fs)[k] == fs[k].(sb := fs[k].Pending())
  {
  }

  /** The field builders CreateField makes for `infos`, at `indent`, none built yet. */
  predicate FreshFields(fs: seq<FieldBuilder>, indent: string, infos: seq<FieldInfo>)
  {
    |fs| == |infos| && forall k | 0 <= k < |fs| :: fs[k] == FieldBuilder(infos[k], indent, [])
  }

  lemma FreshFieldPending(b: FieldBuilder)
    requires b.sb == []
    ensures b.Pending() == FieldLines(b.indent, b.field)
  {
  }

  lemma FieldsLinesSnoc(indent: string, infos: seq<FieldInfo>, n: nat)
    requires 0 < n <= |infos|
    ensures FieldsLines(indent, infos[..n]) == FieldsLines(indent, infos[..n - 1]) + FieldLines(indent, infos[n - 1])
  {
    assert infos[..n][..n - 1] == infos[..n - 1];
  }

  lemma AppendFieldsFreshStep(acc: seq<string>, fs: seq<FieldBuilder>, indent: string, infos: seq<FieldInfo>, n: nat)
    requires 0 < n <= |fs| && n <= |infos| && fs[n - 1] == FieldBuilder(infos[n - 1], indent, [])
    requires AppendFields(acc, fs, n - 1) == acc + FieldsLines(indent, infos[..n - 1])
    ensures AppendFields(acc, fs, n) == acc + FieldsLines(indent, infos[..n])
  {
    FieldOutputsAt(fs, n - 1);
    FieldsLinesSnoc(indent, infos, n);
    FreshFieldPending(fs[n - 1]);
    AppendAssoc(acc, FieldsLines(indent, infos[..n - 1]), FieldLines(indent, infos[n - 1]));
  }

  /** Building the first `n` fresh field builders appends exactly their fields' lines. */
  lemma {:induction false} AppendFieldsFresh(acc: seq<string>, fs: seq<FieldBuilder>, indent: string, infos: seq<FieldInfo>, n: nat)
    requires FreshFields(fs, indent, infos) && n <= |fs|
    ensures AppendFields(acc, fs, n) == acc + FieldsLines(indent, infos[..n])
  {
    if n == 0 {
      assert infos[..0] == [];
      AppendEmpty(acc);
    } else {
      AppendFieldsFresh(acc, fs, indent, infos, n - 1);
      AppendFieldsFreshStep(acc, fs, indent, infos, n);
    }
  }

  /** The field outputs are appended after `acc`, which is kept as it is. */
  lemma {:induction false} AppendFieldsSplit(acc: seq<string>, fs: seq<FieldBuilder>, n: nat)
    requires n <= |fs|
    ensures AppendFields(acc, fs, n) == acc + AppendFields([], fs, n)
  {
    AppendAllSplit(acc, FieldOutputs(fs), n);
  }

  /** The state of a class builder: its buffer and its children, with its fixed header data. */
  datatype ClassState = ClassState(sb: seq<string>, indent: string, decl: ClassDecl, fields: seq<FieldBuilder>)
  {
    /** What Build returns from this state. */
    function Output(): seq<string>
    {
      AppendFields(sb + ClassBegin(indent, decl), fields, |fields|) + ClassEnd(indent)
    }

    /** The state Build leaves: the output kept as the buffer, every field builder built. */
    function AfterBuild(): ClassState
    {
      this.(sb := Output(), fields := BuiltFields(fields))
    }
  }

  /** A class builder as CreateClass and then CreateField for each of `plan.fields` leave it. */
  predicate FreshClass(st: ClassState, plan: ClassPlan)
  {
    st.sb == [] && st.decl == plan.decl && FreshFields(st.fields, st.indent + "    ", plan.fields)
  }

  /** A class builder's Build output extends its buffer by at least the eight begin and end
      lines, so a second Build returns more than the first. */
  lemma ClassOutputGrows(st: ClassState)
    ensures st.sb < st.Output() && |st.Output()| >= |st.sb| + 8
  {
    var head := ClassBegin(st.indent, st.decl);
    var rest := AppendFields([], st.fields, |st.fields|);
    AppendFieldsSplit(st.sb + head, st.fields, |st.fields|);
    AppendAssoc(st.sb, head, rest);
    AppendAssoc(st.sb, head + rest, ClassEnd(st.indent));
    PrefixOfAppend(st.sb, head + rest + ClassEnd(st.indent));
  }

  /** A second Build returns the first one's output followed by a whole new rendering in which
      every field builder appends its old buffer and its lines again. */
  lemma SecondBuildOutput(st: ClassState)
    ensures st.AfterBuild().Output()
         == st.Output() + ClassBegin(st.indent, st.decl)
            + AppendFields([], BuiltFields(st.fields), |st.fields|) + ClassEnd(st.indent)
  {
    var a := st.AfterBuild();
    var head := ClassBegin(st.indent, st.decl);
    var rest := AppendFields([], a.fields, |a.fields|);
    AppendFieldsSplit(a.sb + head, a.fields, |a.fields|);
    AppendAssoc(a.sb, head, rest);
  }

  /** The first Build of a fresh class builder returns exactly the rendered class. */
  lemma FreshClassOutput(st: ClassState, plan: ClassPlan)
    requires FreshClass(st, plan)
    ensures st.Output() == RenderClass(st.indent, plan)
  {
    var head := ClassBegin(st.indent, st.decl);
    AppendEmpty(head);
    AppendFieldsFresh(head, st.fields, st.indent + "    ", plan.fields, |st.fields|);
    assert plan.fields[..|st.fields|] == plan.fields;
  }

  class ClassBuilder {
    const decl: ClassDecl
    const ns: Option<string>
    const indent: string
    /** The position of this builder in its namespace builder's child list. */
    ghost const slot: nat
    var sb: seq<string>
    var fields: seq<FieldBuilder>

    constructor (decl: ClassDecl, ns: Option<string>, indent: string, ghost slot: nat)
      ensures this.decl == decl && this.ns == ns && this.indent == indent && this.slot == slot
      ensures sb == [] && fields == []
    {
      this.decl := decl;
      this.ns := ns;
      this.indent := indent;
      this.slot := slot;
      sb := [];
      fields := [];
    }

    ghost function State(): ClassState
      reads this
    {
      ClassState(sb, indent, decl, fields)
    }

    /** ClassBuilder.CreateField: adds one field builder, indented four spaces past the class. */
    method CreateField(field: FieldInfo)
      modifies this`fields
      ensures fields == old(fields) + [FieldBuilder(field, indent + "    ", [])]
    {
      fields := fields + [FieldBuilder(field, indent + "    ", [])];
    }

    /** ClassBuilder.GetFullName: the class name, qualified by the namespace when there is one. */
    function GetFullName(): (r: string)
      ensures ns.None? ==> r == decl.identifier
      ensures ns.Some? ==> r == ns.value + "." + decl.identifier
      ensures |r| >= |decl.identifier| && r[|r| - |decl.identifier|..] == decl.identifier
    {
      FullName(ns, decl.identifier)
    }

    /** ClassBuilder.CreateProperty: properties are not handled, so nothing changes. */
    method CreateProperty(property: Member)
      ensures unchanged(this)
    {
    }

    method CreateBegin()
      modifies this`sb
      ensures sb == old(sb) + ClassBegin(indent, decl)
    {
      var name := decl.identifier;
      var modifiers := Join(" ", decl.modifiers);
      sb := sb + [indent + modifiers + " class " + name];
      sb := sb + [indent + "{"];
      sb := sb + [indent + "    public " + name + " Clone()"];
      sb := sb + [indent + "    {"];
      sb := sb + [indent + "        var obj = new " + name + "();"];
    }

    method CreateEnd()
      modifies this`sb
      ensures sb == old(sb) + ClassEnd(indent)
    {
      sb := sb + [indent + "        return obj;"];
      sb := sb + [indent + "    }"];
      sb := sb + [indent + "}"];
    }

    /** One step of the loop of SyntaxBuilder.Build: the `i`th field builder is built, its
        output appended, and the field builders after it are untouched. */
    method BuildField(i: nat, ghost fs: seq<FieldBuilder>, ghost built: seq<FieldBuilder>, ghost prefix: seq<string>)
      requires i < |fields| == |fs| == |built|
      requires sb == AppendFields(prefix, fs, i)
      requires built[i] == fs[i].(sb := fs[i].Pending())
      requires forall k | 0 <= k < i :: fields[k] == built[k]
      requires forall k | i <= k < |fields| :: fields[k] == fs[k]
      modifies this`sb, this`fields
      ensures |fields| == |fs|
      ensures sb == AppendFields(prefix, fs, i + 1)
      ensures forall k | 0 <= k <= i :: fields[k] == built[k]
      ensures forall k | i < k < |fields| :: fields[k] == fs[k]
    {
      FieldOutputsAt(fs, i);
      var b, s := fields[i].Build();
      fields := fields[i := b];
      sb := sb + s;
    }

    /** The loop of SyntaxBuilder.Build: appends each field builder's Build output in the
        order the fields were added; each field builder's buffer grows by its own output. */
    method BuildFields()
      modifies this`sb, this`fields
      ensures sb == AppendFields(old(sb), old(fields), |old(fields)|)
      ensures fields == BuiltFields(old(fields))
    {
      ghost var fs := fields;
      ghost var built := BuiltFields(fs);
      ghost var prefix := sb;
      var i := 0;
      while i < |fields|
        invariant 0 <= i <= |fields| == |fs| == |built|
        invariant sb == AppendFields(prefix, fs, i)
        invariant forall k | 0 <= k < i :: fields[k] == built[k]
        invariant forall k | i <= k < |fields| :: fields[k] == fs[k]
      {
        BuiltFieldsAt(fs, i);
        BuildField(i, fs, built, prefix);
        i := i + 1;
      }
      assert fields == built;
    }

    /** SyntaxBuilder.Build for a class builder: begin lines, each field's Build output in
        order, end lines; the whole buffer is returned. */
    method Build() returns (r: seq<string>)
      modifies this`sb, this`fields
      ensures r == old(State()).Output()
      ensures State() == old(State()).AfterBuild()
    {
      CreateBegin();
      BuildFields();
      CreateEnd();
      r := sb;
    }
  }

  /** The states of the class builders in `cs`, in order. */
  ghost function Snapshot(cs: seq<ClassBuilder>): (r: seq<ClassState>)
    reads cs
    ensures |r| == |cs| && forall k | 0 <= k < |cs| :: r[k] == cs[k].State()
  {
    if cs == [] then [] else Snapshot(cs[..|cs| - 1]) + [cs[|cs| - 1].State()]
  }

  /** The text `acc` followed by the first `n` of `parts`, in order. */
  function AppendAll<T>(acc: seq<T>, parts: seq<seq<T>>, n: nat): seq<T>
    requires n <= |parts|
  {
    if n == 0 then acc else AppendAll(acc, parts, n - 1) + parts[n - 1]
  }

  /** The parts are appended after `acc`, which is kept as it is. */
  lemma {:induction false} AppendAllSplit<T>(acc: seq<T>, parts: seq<seq<T>>, n: nat)
    requires n <= |parts|
    ensures AppendAll(acc, parts, n) == acc + AppendAll([], parts, n)
  {
    if n == 0 {
      AppendEmpty(acc);
    } else {
      AppendAllSplit(acc, parts, n - 1);
      AppendAssoc(acc, AppendAll([], parts, n - 1), parts[n - 1]);
    }
  }

  /** Parts of at least eight elements each add at least eight elements apiece. */
  lemma {:induction false} AppendAllLength<T>(acc: seq<T>, parts: seq<seq<T>>, n: nat)
    requires n <= |parts| && forall k | 0 <= k < |parts| :: |parts[k]| >= 8
    ensures |AppendAll(acc, parts, n)| >= |acc| + 8 * n
  {
    if n > 0 {
      AppendAllLength(acc, parts, n - 1);
    }
  }

  /** The Build outputs of the class builders in states `ss`, in order. */
  function Outputs(ss: seq<ClassState>): (r: seq<seq<string>>)
    ensures |r| == |ss|
  {
    if ss == [] then [] else Outputs(ss[..|ss| - 1]) + [ss[|ss| - 1].Output()]
  }

  lemma {:induction false} OutputsAt(ss: seq<ClassState>, k: nat)
    requires k < |ss|
    ensures Outputs(ss)[k] == ss[k].Output()
  {
    if k < |ss| - 1 {
      OutputsAt(ss[..|ss| - 1], k);
    }
  }

  /** The states Build leaves the class builders in `ss` in. */
  function AfterBuildAll(ss: seq<ClassState>): (r: seq<ClassState>)
    ensures |r| == |ss|
  {
    if ss == [] then [] else AfterBuildAll(ss[..|ss| - 1]) + [ss[|ss| - 1].AfterBuild()]
  }

  lemma {:induction false} AfterBuildAllAt(ss: seq<ClassState>, k: nat)
    requires k < |ss|
    ensures AfterBuildAll(ss)[k] == ss[k].AfterBuild()
  {
    if k < |ss| - 1 {
      AfterBuildAllAt(ss[..|ss| - 1], k);
    }
  }

  /** Every class builder's output and final state, for all of `ss` at once. */
  lemma {:induction false} OutputsAndStates(ss: seq<ClassState>)
    ensures forall k {:trigger ss[k].Output()} | 0 <= k < |ss| :: Outputs(ss)[k] == ss[k].Output()
    ensures forall k {:trigger ss[k].AfterBuild()} | 0 <= k < |ss| :: AfterBuildAll(ss)[k] == ss[k].AfterBuild()
  {
    forall k | 0 <= k < |ss|
      ensures Outputs(ss)[k] == ss[k].Output() && AfterBuildAll(ss)[k] == ss[k].AfterBuild()
    {
      OutputsAt(ss, k);
      AfterBuildAllAt(ss, k);
    }
  }

  /** What a namespace builder's Build returns from buffer `sb` with children in states `ss`. */
  function NamespaceOutput(sb: seq<string>, ns: Option<string>, ss: seq<ClassState>): seq<string>
  {
    AppendAll(sb + NamespaceBegin(ns), Outputs(ss), |ss|) + NamespaceEnd(ns)
  }

  /** A namespace builder's Build output extends its buffer, strictly exactly when there is a
      namespace wrapper or at least one class: with neither, Build returns the buffer as it is. */
  lemma NamespaceOutputGrows(sb: seq<string>, ns: Option<string>, ss: seq<ClassState>)
    ensures sb <= NamespaceOutput(sb, ns, ss)
    ensures sb < NamespaceOutput(sb, ns, ss) <==> ns.Some? || ss != []
  {
    var head := NamespaceBegin(ns);
    var outs := Outputs(ss);
    var rest := AppendAll([], outs, |ss|);
    forall k | 0 <= k < |outs|
      ensures |outs[k]| >= 8
    {
      OutputsAt(ss, k);
      ClassOutputGrows(ss[k]);
    }
    AppendAllSplit(sb + head, outs, |ss|);
    AppendAllLength([], outs, |ss|);
    AppendAssoc(sb, head, rest);
    AppendAssoc(sb, head + rest, NamespaceEnd(ns));
    PrefixOfAppend(sb, head + rest + NamespaceEnd(ns));
  }

  /** Class builders as CreateClass and CreateField leave them for `plans`, in order. */
  predicate FreshClasses(ss: seq<ClassState>, ns: Option<string>, plans: seq<ClassPlan>)
  {
    |ss| == |plans| && forall k | 0 <= k < |ss| :: ss[k].indent == ClassIndent(ns) && FreshClass(ss[k], plans[k])
  }

  lemma ClassesLinesSnoc(ns: Option<string>, plans: seq<ClassPlan>, n: nat)
    requires 0 < n <= |plans|
    ensures ClassesLines(ns, plans[..n]) == ClassesLines(ns, plans[..n - 1]) + RenderClass(ClassIndent(ns), plans[n - 1])
  {
    assert plans[..n][..n - 1] == plans[..n - 1];
  }

  lemma AppendClassesFreshStep(acc: seq<string>, outs: seq<seq<string>>, ns: Option<string>, plans: seq<ClassPlan>, n: nat)
    requires 0 < n <= |outs| && n <= |plans|
    requires outs[n - 1] == RenderClass(ClassIndent(ns), plans[n - 1])
    requires AppendAll(acc, outs, n - 1) == acc + ClassesLines(ns, plans[..n - 1])
    ensures AppendAll(acc, outs, n) == acc + ClassesLines(ns, plans[..n])
  {
    ClassesLinesSnoc(ns, plans, n);
    AppendAssoc(acc, ClassesLines(ns, plans[..n - 1]), RenderClass(ClassIndent(ns), plans[n - 1]));
  }

  /** Outputs that are the rendered classes of `plans` are appended as the classes' lines. */
  lemma {:induction false} AppendClassesFresh(acc: seq<string>, outs: seq<seq<string>>, ns: Option<string>, plans: seq<ClassPlan>, n: nat)
    requires |outs| == |plans| && n <= |outs|
    requires forall k | 0 <= k < |outs| :: outs[k] == RenderClass(ClassIndent(ns), plans[k])
    ensures AppendAll(acc, outs, n) == acc + ClassesLines(ns, plans[..n])
  {
    if n == 0 {
      assert plans[..0] == [];
      AppendEmpty(acc);
    } else {
      AppendClassesFresh(acc, outs, ns, plans, n - 1);
      AppendClassesFreshStep(acc, outs, ns, plans, n);
    }
  }

  /** The first Build of a fresh builder tree returns exactly the rendered namespace. */
  lemma FreshNamespaceOutput(ns: Option<string>, ss: seq<ClassState>, plans: seq<ClassPlan>)
    requires FreshClasses(ss, ns, plans)
    ensures NamespaceOutput([], ns, ss) == RenderNamespace(ns, plans)
  {
    var outs := Outputs(ss);
    forall k | 0 <= k < |outs|
      ensures outs[k] == RenderClass(ClassIndent(ns), plans[k])
    {
      OutputsAt(ss, k);
      FreshClassOutput(ss[k], plans[k]);
    }
    AppendClassesFresh(NamespaceBegin(ns), outs, ns, plans, |ss|);
    assert plans[..|ss|] == plans;
    assert [] + NamespaceBegin(ns) == NamespaceBegin(ns);
  }

  class NamespaceBuilder {
    const ns: Option<string>
    var sb: seq<string>
    var classes: seq<ClassBuilder>

    constructor (ns: Option<string>)
      ensures this.ns == ns && sb == [] && classes == [] && Valid()
    {
      this.ns := ns;
      sb := [];
      classes := [];
    }

    /** Every child records its own position, so no class builder is a child twice. */
    ghost predicate Valid()
      reads this`classes
    {
      forall k | 0 <= k < |classes| :: classes[k].slot == k
    }

    /** What the next Build returns. */
    ghost function Pending(): seq<string>
      reads this, classes
    {
      NamespaceOutput(sb, ns, Snapshot(classes))
    }

    /** NamespaceBuilder.CreateClass: appends exactly one fresh class builder and returns it;
        its indent is four spaces inside a namespace and empty otherwise. */
    method CreateClass(decl: ClassDecl) returns (c: ClassBuilder)
      requires Valid()
      modifies this`classes
      ensures Valid()
      ensures classes == old(classes) + [c]
      ensures fresh(c) && c.decl == decl && c.ns == ns && c.indent == ClassIndent(ns)
      ensures c.sb == [] && c.fields == []
    {
      c := new ClassBuilder(decl, ns, if ns.None? then "" else "    ", |classes|);
      classes := classes + [c];
    }

    method CreateBegin()
      modifies this`sb
      ensures sb == old(sb) + NamespaceBegin(ns)
    {
      if ns.None? {
        return;
      }
      sb := sb + ["namespace " + ns.value];
      sb := sb + ["{"];
    }

    method CreateEnd()
      modifies this`sb
      ensures sb == old(sb) + NamespaceEnd(ns)
    {
      if ns.None? {
        return;
      }
      sb := sb + ["}"];
    }

    /** One step of the loop of SyntaxBuilder.Build: the `i`th class builder's output is
        appended and its field builders are built; the builders before it stay in the states
        `after` records and those after it in the states `snap` records. `outs` and `after` hold
        the output and the final state of each class builder. */
    method BuildClass(cs: seq<ClassBuilder>, i: nat, ghost snap: seq<ClassState>, ghost after: seq<ClassState>,
                      ghost outs: seq<seq<string>>, ghost prefix: seq<string>)
      requires i < |cs| == |snap| == |after| == |outs|
      requires forall k {:trigger snap[k].Output()} | 0 <= k < |snap| :: outs[k] == snap[k].Output()
      requires forall k {:trigger snap[k].AfterBuild()} | 0 <= k < |snap| :: after[k] == snap[k].AfterBuild()
      requires forall k | 0 <= k < |cs| :: cs[k].slot == k
      requires forall k | 0 <= k < i :: cs[k].State() == after[k]
      requires forall k | i <= k < |cs| :: cs[k].State() == snap[k]
      requires sb == AppendAll(prefix, outs, i)
      modifies this`sb, cs[i]
      ensures sb == AppendAll(prefix, outs, i + 1)
      ensures forall k | 0 <= k < i + 1 :: cs[k].State() == after[k]
      ensures forall k | i + 1 <= k < |cs| :: cs[k].State() == snap[k]
    {
      assert outs[i] == snap[i].Output() && after[i] == snap[i].AfterBuild();
      var s := cs[i].Build();
      assert cs[i].State() == after[i];
      sb := sb + s;
    }

    /** The loop of SyntaxBuilder.Build: appends each class builder's Build output in the
        order the classes were created, and builds each class builder's field builders. The
        class builders start in the states `snap`; `outs` and `after` hold the output and the
        final state of each of them. */
    method BuildClasses(ghost snap: seq<ClassState>, ghost outs: seq<seq<string>>, ghost after: seq<ClassState>)
      requires Valid() && |snap| == |classes| == |outs| == |after|
      requires forall k {:trigger snap[k].Output()} | 0 <= k < |snap| :: outs[k] == snap[k].Output()
      requires forall k {:trigger snap[k].AfterBuild()} | 0 <= k < |snap| :: after[k] == snap[k].AfterBuild()
      requires forall k | 0 <= k < |classes| :: classes[k].State() == snap[k]
      modifies this`sb, classes
      ensures sb == AppendAll(old(sb), outs, |outs|)
      ensures forall k | 0 <= k < |classes| :: classes[k].State() == after[k]
    {
      var cs := classes;
      ghost var prefix := sb;
      var i := 0;
      while i < |cs|
        invariant 0 <= i <= |cs| == |snap| == |after| == |outs| && classes == cs
        invariant forall k | 0 <= k < |cs| :: cs[k].slot == k
        invariant forall k | 0 <= k < i :: cs[k].State() == after[k]
        invariant forall k | i <= k < |cs| :: cs[k].State() == snap[k]
        invariant sb == AppendAll(prefix, outs, i)
      {
        BuildClass(cs, i, snap, after, outs, prefix);
        i := i + 1;
      }
    }

    /** SyntaxBuilder.Build for a namespace builder: begin lines, each class's Build output in
        order, end lines; the whole buffer is returned, and every class builder is left as its
        own Build leaves it. */
    method Build() returns (r: seq<string>)
      requires Valid()
      modifies this`sb, classes
      ensures r == old(Pending()) && sb == r
      ensures forall k | 0 <= k < |classes| :: classes[k].State() == old(classes[k].State()).AfterBuild()
    {
      ghost var snap := Snapshot(classes);
      ghost var expected := NamespaceOutput(sb, ns, snap);
      assert Pending() == expected;
      OutputsAndStates(snap);
      CreateBegin();
      BuildClasses(snap, Outputs(snap), AfterBuildAll(snap));
      CreateEnd();
      r := sb;
    }
  }
}
