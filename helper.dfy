/** Member enumeration over a class and its base-type chain (Helper.GetAllMembers). */
module Helper {
  import opened Symbols

  /** The condition both loops of GetAllMembers use to decide whether a member is yielded. */
  predicate Yielded(m: Member, withoutOverride: bool)
  {
    !withoutOverride || !m.isOverride
  }

  /** One loop of GetAllMembers: the members of `ms` that pass the filter, in order. */
  function FilterMembers(ms: seq<Member>, withoutOverride: bool): (r: seq<Member>)
    ensures |r| <= |ms|
    ensures forall m | m in r :: m in ms && Yielded(m, withoutOverride)
    ensures forall m | m in ms && Yielded(m, withoutOverride) :: m in r
    ensures !withoutOverride ==> r == ms
  {
    if ms == [] then []
    else (if Yielded(ms[0], withoutOverride) then [ms[0]] else []) + FilterMembers(ms[1..], withoutOverride)
  }

  /** The type's ancestors, root first, ending with the type itself. */
  function Ancestry(t: NamedType): (r: seq<NamedType>)
    ensures |r| >= 1 && r[|r| - 1] == t
  {
    match t.baseType
    case None => [t]
    case Some(b) => Ancestry(b) + [t]
  }

  /** Every member declared along the chain, root type first, each type's in GetMembers order. */
  function ChainMembers(t: NamedType): seq<Member>
  {
    match t.baseType
    case None => t.members
    case Some(b) => ChainMembers(b) + t.members
  }

  /** The members of a sequence of types, concatenated in order. */
  function FlattenMembers(ts: seq<NamedType>): seq<Member>
  {
    if ts == [] then [] else FlattenMembers(ts[..|ts| - 1]) + ts[|ts| - 1].members
  }

  /** Helper.GetAllMembers: the base type's members first (obtained with the default
      filter), then the type's own members, each passed through the override filter. */
  function GetAllMembers(t: NamedType, withoutOverride: bool := true): (r: seq<Member>)
    ensures withoutOverride ==> forall m | m in r :: !m.isOverride
    ensures forall m | m in r :: m in ChainMembers(t)
    decreases t
  {
    var inherited :=
      match t.baseType
      case None => []
      case Some(b) => FilterMembers(GetAllMembers(b), withoutOverride);
    inherited + FilterMembers(t.members, withoutOverride)
  }

  lemma {:induction false} FilterMembersAppend(a: seq<Member>, b: seq<Member>, w: bool)
    ensures FilterMembers(a + b, w) == FilterMembers(a, w) + FilterMembers(b, w)
  {
    if a == [] {
      assert a + b == b;
    } else {
      assert (a + b)[0] == a[0];
      assert (a + b)[1..] == a[1..] + b;
      FilterMembersAppend(a[1..], b, w);
    }
  }

  /** Filtering a sequence whose members all pass the filter leaves it unchanged. */
  lemma {:induction false} FilterMembersKeepsAll(a: seq<Member>, w: bool)
    requires forall m | m in a :: Yielded(m, w)
    ensures FilterMembers(a, w) == a
  {
    if a != [] {
      assert a[0] in a;
      assert forall m | m in a[1..] :: m in a;
      FilterMembersKeepsAll(a[1..], w);
    }
  }

  /** With the default argument, GetAllMembers is the override filter applied to every
      member of the chain, root type first. */
  lemma {:induction false} GetAllMembersIsFilteredChain(t: NamedType)
    ensures GetAllMembers(t) == FilterMembers(ChainMembers(t), true)
    decreases t
  {
    match t.baseType
    case None =>
    case Some(b) =>
      GetAllMembersIsFilteredChain(b);
      FilterMembersKeepsAll(GetAllMembers(b), true);
      FilterMembersAppend(ChainMembers(b), t.members, true);
  }

  /** Everything yielded from the base type comes first: the result for the type starts with
      the whole default-argument result for its base, and the rest is the type's own members. */
  lemma {:induction false} BaseMembersComeFirst(t: NamedType, withoutOverride: bool)
    requires t.baseType.Some?
    ensures GetAllMembers(t, withoutOverride)
         == GetAllMembers(t.baseType.value) + FilterMembers(t.members, withoutOverride)
  {
    var b := t.baseType.value;
    if withoutOverride {
      FilterMembersKeepsAll(GetAllMembers(b), true);
    }
  }

  /** With `withoutOverride = false` only the type's own members may be overrides: the
      recursive call uses the default argument, so the inherited part is still filtered. */
  lemma {:induction false} OverridesOnlyAmongOwnMembers(t: NamedType)
    ensures var r := GetAllMembers(t, false);
            var own := |t.members|;
            |r| >= own && r[|r| - own..] == t.members &&
            forall i | 0 <= i < |r| - own :: !r[i].isOverride
  {
    var r := GetAllMembers(t, false);
    match t.baseType
    case None =>
    case Some(b) =>
      var inherited := GetAllMembers(b);
      assert r == inherited + t.members;
      forall i | 0 <= i < |r| - |t.members|
        ensures !r[i].isOverride
      {
        assert r[i] == inherited[i];
        assert inherited[i] in inherited;
      }
  }

  /** The ancestry is exactly the base-type links: it starts at a type with no base type and
      each entry is the base type of the next. Its length is the depth of the recursion. */
  lemma {:induction false} AncestryFollowsBaseTypes(t: NamedType)
    ensures var a := Ancestry(t);
            a[0].baseType.None? &&
            forall i | 0 < i < |a| :: a[i].baseType == Some(a[i - 1])
    decreases t
  {
    match t.baseType
    case None =>
    case Some(b) =>
      AncestryFollowsBaseTypes(b);
      var ab := Ancestry(b);
      var a := Ancestry(t);
      assert a == ab + [t];
      forall i | 0 < i < |a|
        ensures a[i].baseType == Some(a[i - 1])
      {
        if i == |a| - 1 {
          assert a[i] == t && a[i - 1] == ab[|ab| - 1] == b;
        } else {
          assert a[i] == ab[i] && a[i - 1] == ab[i - 1];
        }
      }
  }

  /** The chain's members are the members of each ancestor, in ancestry order. */
  lemma {:induction false} ChainMembersAlongAncestry(t: NamedType)
    ensures ChainMembers(t) == FlattenMembers(Ancestry(t))
    decreases t
  {
    match t.baseType
    case None =>
      assert Ancestry(t)[..0] == [];
    case Some(b) =>
      ChainMembersAlongAncestry(b);
      assert (Ancestry(b) + [t])[..|Ancestry(b)|] == Ancestry(b);
  }

  lemma {:induction false} FlattenMembersOrigin(ts: seq<NamedType>, m: Member)
    requires m in FlattenMembers(ts)
    ensures exists a | a in ts :: m in a.members
  {
    var init := ts[..|ts| - 1];
    if m in FlattenMembers(init) {
      FlattenMembersOrigin(init, m);
      var a :| a in init && m in a.members;
      assert a in ts;
    } else {
      assert ts[|ts| - 1] in ts;
    }
  }

  /** Every yielded member is declared by the type itself or by one of its ancestors. */
  lemma MembersComeFromAncestry(t: NamedType, withoutOverride: bool, m: Member)
    requires m in GetAllMembers(t, withoutOverride)
    ensures exists a | a in Ancestry(t) :: m in a.members
  {
    ChainMembersAlongAncestry(t);
    FlattenMembersOrigin(Ancestry(t), m);
  }
}
