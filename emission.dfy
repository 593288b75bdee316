/** The text the builders of SyntaxBuilder.cs emit, as pure functions: the type classifier
    (GetTypedConstantKind), the statements a field contributes, the begin and end lines of the
    class and namespace builders, and the lines a freshly built builder tree produces.

    Every write the builders make to a StringBuilder is either AppendLine(line) or Append of
    another builder's complete output, so a buffer is kept as the sequence of lines appended to
    it; the string it holds is `Text` of that sequence. */
module Emission {
  import opened Symbols

  /** Roslyn's TypedConstantKind. */
  datatype TypedConstantKind = Error | Primitive | Enum | Type | Array

  /** The fourteen special types GetTypedConstantKind calls primitive. */
  const PrimitiveSpecialTypes: set<SpecialType> :=
    {SystemBoolean, SystemSByte, SystemInt16, SystemInt32, SystemInt64,
     SystemByte, SystemUInt16, SystemUInt32, SystemUInt64,
     SystemSingle, SystemDouble, SystemChar, SystemString, SystemObject}

  /** FieldBuilder.GetTypedConstantKind: a total classification of a type symbol. The special
      type is consulted first; only a non-primitive type is classified by its type kind. */
  function GetTypedConstantKind(t: TypeDesc): (r: TypedConstantKind)
    ensures r == Primitive <==> t.special in PrimitiveSpecialTypes
  {
    match t.special
    case SystemBoolean | SystemSByte | SystemInt16 | SystemInt32 | SystemInt64
       | SystemByte | SystemUInt16 | SystemUInt32 | SystemUInt64
       | SystemSingle | SystemDouble | SystemChar | SystemString | SystemObject =>
      Primitive
    case _ =>
      match t.kind
      case ArrayType(_) => Array
      case EnumType => Enum
      case ErrorType => Error
      case _ => Type
  }

  /** The classification in terms of the special type and the type kind, stated case by case;
      Dafny proves it from the definition. */
  lemma GetTypedConstantKindCases(t: TypeDesc)
    ensures var k := GetTypedConstantKind(t);
      && (k == Primitive <==> t.special in PrimitiveSpecialTypes)
      && (k == Array <==> t.special !in PrimitiveSpecialTypes && t.kind.ArrayType?)
      && (k == Enum <==> t.special !in PrimitiveSpecialTypes && t.kind == EnumType)
      && (k == Error <==> t.special !in PrimitiveSpecialTypes && t.kind == ErrorType)
      && (k == Type <==>
          t.special !in PrimitiveSpecialTypes && !t.kind.ArrayType? && t.kind != EnumType && t.kind != ErrorType)
  {
  }

  lemma PrimitiveSpecialTypesCount()
    ensures |PrimitiveSpecialTypes| == 14
  {
  }

  // ---------------------------------------------------------------------------------------
  // Text

  /** The string a StringBuilder holds after AppendLine(l) for each l of `lines`, in order. */
  function Text(lines: seq<string>): string
  {
    if lines == [] then "" else Text(lines[..|lines| - 1]) + lines[|lines| - 1] + "\n"
  }

  /** Appending lines appends their text: Append(other.ToString()) keeps the buffer exact. */
  lemma {:induction false} TextAppend(a: seq<string>, b: seq<string>)
    ensures Text(a + b) == Text(a) + Text(b)
    decreases |b|
  {
    if b == [] {
      assert a + b == a;
    } else {
      var b' := b[..|b| - 1];
      assert (a + b)[..|a + b| - 1] == a + b';
      TextAppend(a, b');
    }
  }

  /** Concatenation is associative; stated once for any element type so that the line
      sequences built here need not be compared line by line. */
  lemma AppendAssoc<T>(a: seq<T>, b: seq<T>, c: seq<T>)
    ensures (a + b) + c == a + (b + c)
  {
  }

  lemma AppendEmpty<T>(a: seq<T>)
    ensures a + [] == a && [] + a == a
  {
  }

  lemma PrefixOfAppend<T>(a: seq<T>, b: seq<T>)
    ensures a <= a + b && |a + b| == |a| + |b|
  {
  }

  /** string.Join(sep, ss). */
  function Join(sep: string, ss: seq<string>): string
  {
    if ss == [] then ""
    else if |ss| == 1 then ss[0]
    else Join(sep, ss[..|ss| - 1]) + sep + ss[|ss| - 1]
  }

  /** Each statement of `stmts` preceded by `prefix`. */
  function Indented(prefix: string, stmts: seq<string>): seq<string>
  {
    if stmts == [] then [] else Indented(prefix, stmts[..|stmts| - 1]) + [prefix + stmts[|stmts| - 1]]
  }

  lemma IndentedOne(prefix: string, stmts: seq<string>)
    requires |stmts| == 1
    ensures Indented(prefix, stmts) == [prefix + stmts[0]]
  {
    assert stmts[..0] == [];
  }

  lemma IndentedTwo(prefix: string, stmts: seq<string>)
    requires |stmts| == 2
    ensures Indented(prefix, stmts) == [prefix + stmts[0], prefix + stmts[1]]
  {
    IndentedOne(prefix, stmts[..1]);
  }

  // ---------------------------------------------------------------------------------------
  // FieldBuilder

  /** OriginalDefinition display of System.Collections.Generic.List<T>. */
  const ListDefinition := "System.Collections.Generic.List<T>"

  function Assign(name: string, rhs: string): string
  {
    "obj." + name + " = " + rhs + ";"
  }

  function Throw(message: string): string
  {
    "throw new Exception(\"" + message + "\");"
  }

  predicate IsThrow(stmt: string)
  {
    |stmt| >= 6 && stmt[..6] == "throw "
  }

  /** The statement assigns field `name` of the clone `obj`. */
  predicate AssignsField(stmt: string, name: string)
  {
    var head := "obj." + name + " = ";
    |stmt| >= |head| && stmt[..|head|] == head
  }

  lemma AssignIsNotThrow(name: string, rhs: string)
    ensures !IsThrow(Assign(name, rhs)) && AssignsField(Assign(name, rhs), name)
  {
    var a := Assign(name, rhs);
    if |a| >= 6 { assert a[0] == 'o' && a[..6][0] == a[0]; }
    var head := "obj." + name + " = ";
    assert a == head + (rhs + ";");
  }

  lemma ThrowIsNotAssign(message: string, name: string)
    ensures IsThrow(Throw(message)) && !AssignsField(Throw(message), name)
  {
    var t := Throw(message);
    assert t == "throw " + ("new Exception(\"" + message + "\");");
    var head := "obj." + name + " = ";
    if |t| >= |head| { assert t[..|head|][0] == 't' && head[0] == 'o'; }
  }

  /** The statements FieldBuilder.CreateBegin emits for one field, chosen by its kind.
      An Error type gets the throw statement and then, falling through to the final else,
      the direct assignment as well. */
  function FieldStatements(f: FieldInfo): (r: seq<string>)
    ensures |r| == (if GetTypedConstantKind(f.fieldType) == Error then 2 else 1)
  {
    var t := f.fieldType;
    var assignSelf := Assign(f.name, f.name);
    var newList := Assign(f.name, "new (" + f.name + ".Count)");
    var unhandled := "unhandled field " + t.display + " " + f.name;
    var errorType := "error type " + t.display + " " + f.name;
    match GetTypedConstantKind(t)
    case Error =>
      [Throw(errorType), assignSelf]
    case Type =>
      if t.originalDefinition == ListDefinition then [newList] else [Throw(unhandled)]
    case Array =>
      [Assign(f.name, "new " + t.kind.element.display + "[" + f.name + ".Length]")]
    case Primitive => [assignSelf]
    case Enum => [assignSelf]
  }

  /** One statement per field, two for a field of an Error type; the first is a throw exactly
      when the type is an Error type or an unhandled non-list Type; the last assigns the field
      unless the type is an unhandled Type, and assigns it to itself for a primitive, enum or
      Error type. */
  lemma FieldStatementsShape(f: FieldInfo)
    ensures var r := FieldStatements(f);
      && |r| == (if GetTypedConstantKind(f.fieldType) == Error then 2 else 1)
      && (IsThrow(r[0]) <==>
          GetTypedConstantKind(f.fieldType) == Error ||
          (GetTypedConstantKind(f.fieldType) == Type && f.fieldType.originalDefinition != ListDefinition))
      && (AssignsField(r[|r| - 1], f.name) <==>
          !(GetTypedConstantKind(f.fieldType) == Type && f.fieldType.originalDefinition != ListDefinition))
      && (GetTypedConstantKind(f.fieldType) in {Primitive, Enum, Error} ==>
          r[|r| - 1] == Assign(f.name, f.name))
  {
    var t := f.fieldType;
    AssignIsNotThrow(f.name, f.name);
    AssignIsNotThrow(f.name, "new (" + f.name + ".Count)");
    if t.kind.ArrayType? {
      AssignIsNotThrow(f.name, "new " + t.kind.element.display + "[" + f.name + ".Length]");
    }
    ThrowIsNotAssign("unhandled field " + t.display + " " + f.name, f.name);
    ThrowIsNotAssign("error type " + t.display + " " + f.name, f.name);
  }

  /** The lines a FieldBuilder with indent `indent` appends to its buffer per Build. */
  function FieldLines(indent: string, f: FieldInfo): seq<string>
  {
    Indented(indent + "    ", FieldStatements(f))
  }

  /** The lines of a sequence of fresh FieldBuilders, in order. */
  function FieldsLines(indent: string, fs: seq<FieldInfo>): seq<string>
  {
    if fs == [] then [] else FieldsLines(indent, fs[..|fs| - 1]) + FieldLines(indent, fs[|fs| - 1])
  }

  /** How many of `fs` have an Error type. */
  function ErrorFields(fs: seq<FieldInfo>): nat
  {
    if fs == [] then 0
    else ErrorFields(fs[..|fs| - 1]) + (if GetTypedConstantKind(fs[|fs| - 1].fieldType) == Error then 1 else 0)
  }

  /** One line per field, plus one more for each field of an Error type; every line is
      indented four spaces past `indent`. */
  lemma {:induction false} FieldsLinesCount(indent: string, fs: seq<FieldInfo>)
    ensures |FieldsLines(indent, fs)| == |fs| + ErrorFields(fs)
    ensures forall k | 0 <= k < |FieldsLines(indent, fs)| ::
      |FieldsLines(indent, fs)[k]| >= |indent| + 4 && FieldsLines(indent, fs)[k][..|indent| + 4] == indent + "    "
  {
    if fs != [] {
      var init := fs[..|fs| - 1];
      var f := fs[|fs| - 1];
      FieldsLinesCount(indent, init);
      FieldStatementsShape(f);
      var stmts := FieldStatements(f);
      var pad := indent + "    ";
      if GetTypedConstantKind(f.fieldType) == Error {
        IndentedTwo(pad, stmts);
      } else {
        IndentedOne(pad, stmts);
      }
      var last := FieldLines(indent, f);
      forall k | 0 <= k < |last|
        ensures |last[k]| >= |indent| + 4 && last[k][..|indent| + 4] == pad
      {
        assert last[k] == pad + stmts[k];
      }
    }
  }

  // ---------------------------------------------------------------------------------------
  // ClassBuilder and NamespaceBuilder

  /** NamespaceBuilder.CreateClass: a class is indented by four spaces inside a namespace. */
  function ClassIndent(ns: Option<string>): (r: string)
    ensures ns.Some? <==> r == "    "
    ensures ns.None? <==> r == ""
  {
    if ns.None? then "" else "    "
  }

  /** ClassBuilder.GetFullName. */
  function FullName(ns: Option<string>, identifier: string): (r: string)
    ensures |r| >= |identifier| && r[|r| - |identifier|..] == identifier
    ensures ns.None? ==> r == identifier
    ensures ns.Some? ==>
      |r| == |ns.value| + 1 + |identifier| && r[..|ns.value|] == ns.value && r[|ns.value|] == '.'
  {
    match ns
    case None => identifier
    case Some(n) => n + "." + identifier
  }

  /** ClassBuilder.CreateBegin: the class header and the opening of its Clone() method. */
  function ClassBegin(indent: string, decl: ClassDecl): seq<string>
  {
    [indent + Join(" ", decl.modifiers) + " class " + decl.identifier,
     indent + "{",
     indent + "    public " + decl.identifier + " Clone()",
     indent + "    {",
     indent + "        var obj = new " + decl.identifier + "();"]
  }

  /** ClassBuilder.CreateEnd: returns the clone and closes the method and the class. */
  function ClassEnd(indent: string): seq<string>
  {
    [indent + "        return obj;", indent + "    }", indent + "}"]
  }

  /** NamespaceBuilder.CreateBegin (its own indent is always empty). */
  function NamespaceBegin(ns: Option<string>): seq<string>
  {
    match ns
    case None => []
    case Some(n) => ["namespace " + n, "{"]
  }

  /** NamespaceBuilder.CreateEnd. */
  function NamespaceEnd(ns: Option<string>): seq<string>
  {
    match ns
    case None => []
    case Some(_) => ["}"]
  }

  /** A class builder's declaration and the fields added to it, in order. */
  datatype ClassPlan = ClassPlan(decl: ClassDecl, fields: seq<FieldInfo>)

  /** The lines one Build produces on a fresh ClassBuilder at `indent`. */
  function RenderClass(indent: string, plan: ClassPlan): seq<string>
  {
    ClassBegin(indent, plan.decl) + FieldsLines(indent + "    ", plan.fields) + ClassEnd(indent)
  }

  /** The lines of a sequence of fresh ClassBuilders created by one NamespaceBuilder. */
  function ClassesLines(ns: Option<string>, plans: seq<ClassPlan>): seq<string>
  {
    if plans == [] then []
    else ClassesLines(ns, plans[..|plans| - 1]) + RenderClass(ClassIndent(ns), plans[|plans| - 1])
  }

  /** The lines one Build produces on a fresh NamespaceBuilder. */
  function RenderNamespace(ns: Option<string>, plans: seq<ClassPlan>): seq<string>
  {
    NamespaceBegin(ns) + ClassesLines(ns, plans) + NamespaceEnd(ns)
  }

  /** A class is its header line and the opening of Clone(), the field lines, then the
      return and the two closing braces. */
  lemma RenderClassShape(indent: string, plan: ClassPlan)
    ensures var r := RenderClass(indent, plan);
      && |r| == 8 + |plan.fields| + ErrorFields(plan.fields)
      && r[0] == indent + Join(" ", plan.decl.modifiers) + " class " + plan.decl.identifier
      && r[4] == indent + "        var obj = new " + plan.decl.identifier + "();"
      && r[5..|r| - 3] == FieldsLines(indent + "    ", plan.fields)
      && r[|r| - 3] == indent + "        return obj;"
      && r[|r| - 1] == indent + "}"
  {
    FieldsLinesCount(indent + "    ", plan.fields);
    var r := RenderClass(indent, plan);
    var mid := FieldsLines(indent + "    ", plan.fields);
    assert r == ClassBegin(indent, plan.decl) + mid + ClassEnd(indent);
    assert r[5..|r| - 3] == mid;
  }

  /** Without a namespace the output is exactly the classes' lines; with one, it is wrapped
      in a `namespace` line and a `{` line before and a `}` line after. */
  lemma RenderNamespaceShape(ns: Option<string>, plans: seq<ClassPlan>)
    ensures var r := RenderNamespace(ns, plans);
      && (ns.None? ==> r == ClassesLines(ns, plans))
      && (ns.Some? ==>
            |r| == |ClassesLines(ns, plans)| + 3
            && r[0] == "namespace " + ns.value && r[1] == "{"
            && r[2..|r| - 1] == ClassesLines(ns, plans)
            && r[|r| - 1] == "}")
  {
    var r := RenderNamespace(ns, plans);
    var mid := ClassesLines(ns, plans);
    if ns.None? {
      assert r == [] + mid + [];
    } else {
      assert r == ["namespace " + ns.value, "{"] + mid + ["}"];
      assert r[2..|r| - 1] == mid;
    }
  }

  lemma NamespaceBeginText(ns: Option<string>)
    ensures Text(NamespaceBegin(ns)) == if ns.Some? then "namespace " + ns.value + "\n{\n" else ""
  {
    if ns.Some? {
      var b := NamespaceBegin(ns);
      var head := "namespace " + ns.value;
      assert b[..1][..0] == [];
      assert b[..1] == [head];
      assert Text(b[..1]) == head + "\n";
      assert Text(b) == head + "\n" + "{" + "\n";
      assert head + "\n" + "{" + "\n" == head + "\n{\n";
    }
  }

  lemma NamespaceEndText(ns: Option<string>)
    ensures Text(NamespaceEnd(ns)) == if ns.Some? then "}\n" else ""
  {
    if ns.Some? {
      assert NamespaceEnd(ns)[..0] == [];
    }
  }

  /** The same as text: the namespace wrapper is the only text around the classes. */
  lemma RenderNamespaceText(ns: Option<string>, plans: seq<ClassPlan>)
    ensures Text(RenderNamespace(ns, plans)) ==
      (if ns.Some? then "namespace " + ns.value + "\n{\n" else "")
      + Text(ClassesLines(ns, plans))
      + (if ns.Some? then "}\n" else "")
  {
    var mid := ClassesLines(ns, plans);
    TextAppend(NamespaceBegin(ns) + mid, NamespaceEnd(ns));
    TextAppend(NamespaceBegin(ns), mid);
    NamespaceBeginText(ns);
    NamespaceEndText(ns);
  }
}
