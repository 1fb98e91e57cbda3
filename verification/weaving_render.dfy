/**
 * The fields and methods each member of the `visitEnd` plan stands for,
 * and the label discipline of every method body the weaver adds.
 */
module WeavingRender {
  import opened Asm
  import opened WeavingNames
  import opened WeavingDetails
  import opened WeavingCode
  import opened WeavingMembers
  import opened WeavingPlan


  /** The fields a member adds; `jaxbOnPath` says whether JAXB is on the class path. */
  function MemberFields(cd: ClassDetails, jaxbOnPath: bool, m: Member): seq<FieldDecl> {
    match m
    case ForAttribute(HolderVariable, a) => [ValueHolderField(a, jaxbOnPath)]
    case ForClass(EntityVariables) => EntityFields()
    case ForClass(ListenerVariable) => [ListenerField()]
    case ForClass(FetchGroupVariables) => FetchGroupFields(cd, jaxbOnPath)
    case ForClass(RestVariables) => RestFields()
    case _ => []
  }

  /** The methods a member adds. */
  function MemberMethods(cd: ClassDetails, m: Member): seq<MethodDecl> {
    match m
    case ForClass(PostCloneHook) => [PostCloneMethod(cd)]
    case ForClass(ShallowClone) => [ShallowCloneMethod()]
    case ForClass(EntityAccessors) => EntityMethods(cd)
    case ForClass(FactoryMethods) => PersistenceNewMethods(cd)
    case ForClass(GenericAccessors) => GenericAccessMethods(cd)
    case ForAttribute(HolderInitializer, a) => [InitializerMethod(cd, a)]
    case ForAttribute(HolderGetter, a) => [HolderGetterMethod(cd, a)]
    case ForAttribute(HolderSetter, a) => [HolderSetterMethod(cd, a)]
    case ForAttribute(FieldGetter, a) => [FieldGetterMethod(cd, a)]
    case ForAttribute(FieldSetter, a) => [FieldSetterMethod(cd, a)]
    case ForClass(ListenerReader) => [ListenerGetter(cd)]
    case ForClass(ListenerWriter) => [ListenerSetter(cd)]
    case ForClass(PropertyChangeNotifier) => [PropertyChangeMethod(cd)]
    case ForClass(FetchGroupAccessors) => FetchGroupMethods(cd)
    case ForClass(RestAccessors) => RestMethods(cd)
    case _ => []
  }

  /** `f` applied to each element of `xs`, the results joined in order. */
  function Concat<A, T>(xs: seq<A>, f: A -> seq<T>): seq<T> {
    if xs == [] then [] else Concat(xs[..|xs| - 1], f) + f(xs[|xs| - 1])
  }

  /** Joining the results of one more element. */
  lemma ConcatSnoc<A, T>(xs: seq<A>, x: A, f: A -> seq<T>)
    ensures Concat(xs + [x], f) == Concat(xs, f) + f(x)
  {
    assert (xs + [x])[..|xs|] == xs;
  }

  /** Joining the results of two sequences in a row. */
  lemma {:induction false} ConcatAppend<A, T>(xs: seq<A>, ys: seq<A>, f: A -> seq<T>)
    ensures Concat(xs + ys, f) == Concat(xs, f) + Concat(ys, f)
    decreases |ys|
  {
    if ys == [] {
      assert xs + ys == xs;
    } else {
      var init := ys[..|ys| - 1];
      assert (xs + ys)[..|xs + ys| - 1] == xs + init;
      ConcatAppend(xs, init, f);
    }
  }

  /** The fields a list of members adds, in order. */
  function PlanFields(cd: ClassDetails, jaxbOnPath: bool, plan: seq<Member>): seq<FieldDecl> {
    Concat(plan, m => MemberFields(cd, jaxbOnPath, m))
  }

  /** The methods a list of members adds, in order. */
  function PlanMethods(cd: ClassDetails, plan: seq<Member>): seq<MethodDecl> {
    Concat(plan, m => MemberMethods(cd, m))
  }

  /** Adding one more member adds its fields and methods after those already added. */
  lemma PlanSnoc(cd: ClassDetails, jaxbOnPath: bool, plan: seq<Member>, m: Member)
    ensures PlanFields(cd, jaxbOnPath, plan + [m]) == PlanFields(cd, jaxbOnPath, plan) + MemberFields(cd, jaxbOnPath, m)
    ensures PlanMethods(cd, plan + [m]) == PlanMethods(cd, plan) + MemberMethods(cd, m)
  {
    ConcatSnoc(plan, m, m => MemberFields(cd, jaxbOnPath, m));
    ConcatSnoc(plan, m, m => MemberMethods(cd, m));
  }

  /** The members of two lists in a row add the fields and methods of the first, then those of the second. */
  lemma PlanAppend(cd: ClassDetails, jaxbOnPath: bool, p: seq<Member>, q: seq<Member>)
    ensures PlanFields(cd, jaxbOnPath, p + q) == PlanFields(cd, jaxbOnPath, p) + PlanFields(cd, jaxbOnPath, q)
    ensures PlanMethods(cd, p + q) == PlanMethods(cd, p) + PlanMethods(cd, q)
  {
    ConcatAppend(p, q, m => MemberFields(cd, jaxbOnPath, m));
    ConcatAppend(p, q, m => MemberMethods(cd, m));
  }

  // ---------------------------------------------------------------- every woven body resolves its labels

  /** Concatenated straight-line code is straight-line code. */
  lemma StraightJoin(a: seq<Instr>, b: seq<Instr>)
    requires Straight(a) && Straight(b)
    ensures Straight(a + b)
  {
    forall i | 0 <= i < |a + b| ensures !(a + b)[i].JumpInsn? && !(a + b)[i].LabelMark? {
      if i >= |a| { assert (a + b)[i] == b[i - |a|]; }
    }
  }

  /** Neither field-access accessor branches. */
  lemma FieldAccessStraight(cd: ClassDetails, a: AttributeDetails)
    ensures Straight(FieldGetterCode(cd, a)) && Straight(FieldSetterCode(cd, a))
  {
    var ret := [VarInsn(ALOAD, 0), FieldInsn(GETFIELD, cd.className, a.attributeName, a.referenceClassType.descriptor),
                Insn(ReturnOf(a.referenceClassType.sort))];
    StraightJoin(FetchCheck(cd, a, CHECK_FETCHED), HolderSync(cd, a));
    StraightJoin(FetchCheck(cd, a, CHECK_FETCHED) + HolderSync(cd, a), ret);
    var notice := if cd.shouldWeaveChangeTracking then ChangeNotice(cd, a) else [];
    assert Straight(notice);
    StraightJoin(FetchCheck(cd, a, CHECK_FETCHED_FOR_SET), HolderSync(cd, a));
    StraightJoin(FetchCheck(cd, a, CHECK_FETCHED_FOR_SET) + HolderSync(cd, a), notice);
    StraightJoin(SetterPrologue(cd, a), StoreArgument(cd, a));
    StraightJoin(SetterPrologue(cd, a) + StoreArgument(cd, a), SetterEpilogue(cd, a));
  }

  /** A reader and a writer pair resolve trivially. */
  lemma AccessorsResolved(owner: string, getName: string, setName: string, field: string, desc: string, ret: Opcode, load: Opcode)
    ensures LabelsResolved(FieldReader(owner, getName, field, desc, ret).code)
    ensures LabelsResolved(FieldWriter(owner, setName, field, desc, load).code)
  {
    AccessorPair(owner, getName, setName, field, desc, ret, load);
    StraightResolved(FieldReader(owner, getName, field, desc, ret).code);
    StraightResolved(FieldWriter(owner, setName, field, desc, load).code);
  }

  /** The factory method and the factory constructor are straight-line code. */
  lemma FactoryMethodsResolved(cd: ClassDetails)
    ensures forall md :: md in PersistenceNewMethods(cd) ==> LabelsResolved(md.code)
  {
    forall md | md in PersistenceNewMethods(cd) ensures LabelsResolved(md.code) {
      StraightResolved(md.code);
    }
  }

  /** Every method an entity, factory or generic-access member adds resolves its labels. */
  lemma InternalMethodsResolved(cd: ClassDetails, c: ClassMember)
    requires Internal(c)
    ensures forall md :: md in MemberMethods(cd, ForClass(c)) ==> LabelsResolved(md.code)
  {
    var n := cd.className;
    match c
    case PostCloneHook => PostCloneResolved(cd);
    case ShallowClone => StraightResolved(ShallowCloneMethod().code);
    case EntityVariables =>
    case EntityAccessors =>
      AccessorsResolved(n, "_persistence_getId", "_persistence_setId", PRIMARY_KEY_FIELD, OBJECT_SIGNATURE, ARETURN, ALOAD);
      AccessorsResolved(n, "_persistence_getCacheKey", "_persistence_setCacheKey", CACHE_KEY_FIELD, CACHEKEY_SIGNATURE, ARETURN, ALOAD);
    case FactoryMethods =>
      assert MemberMethods(cd, ForClass(c)) == PersistenceNewMethods(cd);
      FactoryMethodsResolved(cd);
    case GenericAccessors =>
      GenericAccessResolved(cd, false);
      GenericAccessResolved(cd, true);
  }

  /** Every method a change-tracking member adds resolves its labels. */
  lemma TrackingMethodsResolved(cd: ClassDetails, c: ClassMember)
    requires Tracking(c)
    ensures forall md :: md in MemberMethods(cd, ForClass(c)) ==> LabelsResolved(md.code)
  {
    match c
    case ListenerVariable =>
    case ListenerReader =>
      assert MemberMethods(cd, ForClass(c)) == [ListenerGetter(cd)];
      ListenerAccessorsResolved(cd);
    case ListenerWriter =>
      assert MemberMethods(cd, ForClass(c)) == [ListenerSetter(cd)];
      ListenerAccessorsResolved(cd);
    case PropertyChangeNotifier =>
      assert MemberMethods(cd, ForClass(c)) == [PropertyChangeMethod(cd)];
      PropertyChangeGuarded(cd);
  }

  /** The listener getter and setter resolve trivially. */
  lemma ListenerAccessorsResolved(cd: ClassDetails)
    ensures LabelsResolved(ListenerGetter(cd).code) && LabelsResolved(ListenerSetter(cd).code)
  {
    AccessorsResolved(cd.className, "_persistence_getPropertyChangeListener", "_persistence_setPropertyChangeListener",
      LISTENER_FIELD, PCL_SIGNATURE, ARETURN, ALOAD);
  }

  /** Every method the fetch-group accessors member adds resolves its labels. */
  lemma FetchGroupMethodsResolved(cd: ClassDetails)
    ensures forall md :: md in FetchGroupMethods(cd) ==> LabelsResolved(md.code)
  {
    var n := cd.className;
    AccessorsResolved(n, "_persistence_getSession", "_persistence_setSession", SESSION_FIELD, SESSION_SIGNATURE, ARETURN, ALOAD);
    AccessorsResolved(n, "_persistence_getFetchGroup", "_persistence_setFetchGroup", FETCHGROUP_FIELD, FETCHGROUP_SIGNATURE, ARETURN, ALOAD);
    AccessorsResolved(n, "_persistence_shouldRefreshFetchGroup", "_persistence_setShouldRefreshFetchGroup",
      REFRESH_FIELD, PBOOLEAN_SIGNATURE, IRETURN, ILOAD);
    StraightResolved([Insn(RETURN)]);
    IsAttributeFetchedAnswers(cd);
    CheckFetchedGuarded(cd, "processUnfetchedAttribute");
    CheckFetchedGuarded(cd, "processUnfetchedAttributeForSet");
  }

  /** Every method the REST accessors member adds resolves its labels. */
  lemma RestMethodsResolved(cd: ClassDetails)
    ensures forall md :: md in RestMethods(cd) ==> LabelsResolved(md.code)
  {
    var n := cd.className;
    AccessorsResolved(n, "_persistence_getRelationships", "_persistence_setRelationships", RELATIONSHIPS_FIELD, LIST_SIGNATURE, ARETURN, ALOAD);
    AccessorsResolved(n, "_persistence_getHref", "_persistence_setHref", HREF_FIELD, LINK_SIGNATURE, ARETURN, ALOAD);
    AccessorsResolved(n, "_persistence_getLinks", "_persistence_setLinks", LINKS_FIELD, ITEM_LINKS_SIGNATURE, ARETURN, ALOAD);
  }

  /** Every method a per-attribute member adds resolves its labels. */
  lemma AttributeMethodsResolved(cd: ClassDetails, kind: AttributeMember, a: AttributeDetails)
    ensures forall md :: md in MemberMethods(cd, ForAttribute(kind, a)) ==> LabelsResolved(md.code)
  {
    match kind
    case HolderVariable =>
    case HolderInitializer => InitializerResolved(cd, a);
    case HolderGetter => HolderGetterResolved(cd, a);
    case HolderSetter => HolderSetterResolved(cd, a);
    case FieldGetter =>
      FieldAccessStraight(cd, a);
      StraightResolved(FieldGetterCode(cd, a));
    case FieldSetter =>
      FieldAccessStraight(cd, a);
      StraightResolved(FieldSetterCode(cd, a));
  }

  /** Every method a member adds resolves its labels. */
  lemma MemberMethodsResolved(cd: ClassDetails, m: Member)
    ensures forall md :: md in MemberMethods(cd, m) ==> LabelsResolved(md.code)
  {
    match m
    case ForAttribute(kind, a) => AttributeMethodsResolved(cd, kind, a);
    case ForClass(c) =>
      if Internal(c) {
        InternalMethodsResolved(cd, c);
      } else if Tracking(c) {
        TrackingMethodsResolved(cd, c);
      } else if c.FetchGroupAccessors? {
        FetchGroupMethodsResolved(cd);
      } else if c.RestAccessors? {
        RestMethodsResolved(cd);
      }
  }

  /**
   * Every method a list of members adds resolves its labels: all jumps go
   * forward to a label placed exactly once. With `Plan` this covers every
   * method `visitEnd` adds.
   */
  lemma {:induction false} PlanResolved(cd: ClassDetails, plan: seq<Member>)
    ensures forall md :: md in PlanMethods(cd, plan) ==> LabelsResolved(md.code)
    decreases |plan|
  {
    if plan != [] {
      var init, last := plan[..|plan| - 1], plan[|plan| - 1];
      assert plan == init + [last];
      PlanResolved(cd, init);
      MemberMethodsResolved(cd, last);
      PlanSnoc(cd, false, init, last);
    }
  }
}
