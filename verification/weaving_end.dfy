/**
 * The fields and methods `ClassWeaver.visitEnd` sends to the class writer,
 * block by block as its body adds them, and their agreement with the plan
 * of members and what each member stands for.
 */
module WeavingEnd {
  import opened Asm
  import opened WeavingDetails
  import opened WeavingCode
  import opened WeavingMembers
  import opened WeavingPlan
  import opened WeavingRender

  // ---------------------------------------------------------------- the blocks of visitEnd

  /** The members of a root in the internal block: the entity fields, for an entity. */
  function RootBlockFields(cd: ClassDetails): seq<FieldDecl> {
    if cd.IsRoot() && !cd.isEmbedable then EntityFields() else []
  }

  /** The members of a root in the internal block: the shallow clone, then the entity accessors of an entity. */
  function RootBlockMethods(cd: ClassDetails): seq<MethodDecl> {
    if cd.IsRoot() then [ShallowCloneMethod()] + (if !cd.isEmbedable then EntityMethods(cd) else []) else []
  }

  /** The internal block: the fields of a root. */
  function InternalFields(cd: ClassDetails): seq<FieldDecl> {
    if cd.shouldWeaveInternal then RootBlockFields(cd) else []
  }

  /** The internal block: the post-clone hook, the members of a root, the factory and the dispatchers. */
  function InternalMethods(cd: ClassDetails): seq<MethodDecl> {
    if !cd.shouldWeaveInternal then []
    else [PostCloneMethod(cd)] + RootBlockMethods(cd) + (PersistenceNewMethods(cd) + GenericAccessMethods(cd))
  }

  /** One attribute of the loop: the value-holder field of a lazy attribute declared in the class. */
  function AttributeFields(cd: ClassDetails, jaxbOnPath: bool, a: AttributeDetails): seq<FieldDecl> {
    if a.IsLocal() && a.weaveValueHolders then [ValueHolderField(a, jaxbOnPath)] else []
  }

  /** One attribute of the loop: the value-holder methods, then the field-access accessors. */
  function AttributeMethods(cd: ClassDetails, a: AttributeDetails): seq<MethodDecl> {
    if !a.IsLocal() then []
    else
      (if a.weaveValueHolders then [InitializerMethod(cd, a), HolderGetterMethod(cd, a), HolderSetterMethod(cd, a)] else [])
      + (if WeavesFieldAccess(cd, a) then [FieldGetterMethod(cd, a), FieldSetterMethod(cd, a)] else [])
  }

  /** The fields of the attribute loop, in attribute-map order. */
  function AttributesFields(cd: ClassDetails, jaxbOnPath: bool, attrs: seq<AttributeDetails>): seq<FieldDecl> {
    if attrs == [] then []
    else AttributesFields(cd, jaxbOnPath, attrs[..|attrs| - 1]) + AttributeFields(cd, jaxbOnPath, attrs[|attrs| - 1])
  }

  /** The methods of the attribute loop, in attribute-map order. */
  function AttributesMethods(cd: ClassDetails, attrs: seq<AttributeDetails>): seq<MethodDecl> {
    if attrs == [] then []
    else AttributesMethods(cd, attrs[..|attrs| - 1]) + AttributeMethods(cd, attrs[|attrs| - 1])
  }

  /** Some attribute declared in the class is lazy: the loop sets `weavedLazy`. */
  predicate HasLazy(attrs: seq<AttributeDetails>) {
    attrs != [] && (HasLazy(attrs[..|attrs| - 1]) || (attrs[|attrs| - 1].IsLocal() && attrs[|attrs| - 1].weaveValueHolders))
  }

  /** Some attribute declared in the class gets the field-access accessors: the loop sets `attributeAccess`. */
  predicate HasAccess(cd: ClassDetails, attrs: seq<AttributeDetails>) {
    attrs != [] && (HasAccess(cd, attrs[..|attrs| - 1]) || (attrs[|attrs| - 1].IsLocal() && WeavesFieldAccess(cd, attrs[|attrs| - 1])))
  }

  /** The loop's flags say whether some attribute is of the kind. */
  lemma {:induction false} FlagsMean(cd: ClassDetails, attrs: seq<AttributeDetails>)
    ensures HasLazy(attrs) <==> exists a :: a in attrs && a.IsLocal() && a.weaveValueHolders
    ensures HasAccess(cd, attrs) <==> exists a :: a in attrs && a.IsLocal() && WeavesFieldAccess(cd, a)
    decreases |attrs|
  {
    if attrs != [] {
      var init, last := attrs[..|attrs| - 1], attrs[|attrs| - 1];
      assert attrs == init + [last];
      FlagsMean(cd, init);
    }
  }

  /** A value-holder field is declared exactly when the loop sets `weavedLazy`. */
  lemma {:induction false} LazyDeclaresHolders(cd: ClassDetails, jaxbOnPath: bool, attrs: seq<AttributeDetails>)
    ensures HasLazy(attrs) <==> AttributesFields(cd, jaxbOnPath, attrs) != []
    decreases |attrs|
  {
    if attrs != [] {
      LazyDeclaresHolders(cd, jaxbOnPath, attrs[..|attrs| - 1]);
    }
  }

  /** Appending in two steps appends the two parts. */
  lemma AppendAssoc<T>(a: seq<T>, b: seq<T>, c: seq<T>)
    ensures a + b + c == a + (b + c)
  {
  }

  /** One more turn of the attribute loop. */
  lemma AttributesPrefix(cd: ClassDetails, jaxbOnPath: bool, attrs: seq<AttributeDetails>, i: nat)
    requires i < |attrs|
    ensures AttributesFields(cd, jaxbOnPath, attrs[..i + 1]) == AttributesFields(cd, jaxbOnPath, attrs[..i]) + AttributeFields(cd, jaxbOnPath, attrs[i])
    ensures AttributesMethods(cd, attrs[..i + 1]) == AttributesMethods(cd, attrs[..i]) + AttributeMethods(cd, attrs[i])
    ensures HasLazy(attrs[..i + 1]) == (HasLazy(attrs[..i]) || (attrs[i].IsLocal() && attrs[i].weaveValueHolders))
    ensures HasAccess(cd, attrs[..i + 1]) == (HasAccess(cd, attrs[..i]) || (attrs[i].IsLocal() && WeavesFieldAccess(cd, attrs[i])))
  {
    assert attrs[..i + 1][..i] == attrs[..i];
    assert attrs[..i + 1] == attrs[..i] + [attrs[i]];
  }

  /** Whether the listener members are added: change tracking, and no superclass that tracks already. */
  predicate AddsListener(cd: ClassDetails) {
    cd.shouldWeaveChangeTracking && (cd.IsRoot() || !cd.doesSuperclassWeaveChangeTracking)
  }

  /** The change-tracking block. */
  function TrackingFields(cd: ClassDetails): seq<FieldDecl> {
    if AddsListener(cd) then [ListenerField()] else []
  }

  function TrackingMethods(cd: ClassDetails): seq<MethodDecl> {
    if AddsListener(cd) then [ListenerGetter(cd), ListenerSetter(cd), PropertyChangeMethod(cd)] else []
  }

  /** The fetch-group block, at the root only. */
  function GroupFields(cd: ClassDetails, jaxbOnPath: bool): seq<FieldDecl> {
    if cd.shouldWeaveFetchGroups && cd.IsRoot() then FetchGroupFields(cd, jaxbOnPath) else []
  }

  function GroupMethods(cd: ClassDetails): seq<MethodDecl> {
    if cd.shouldWeaveFetchGroups && cd.IsRoot() then FetchGroupMethods(cd) else []
  }

  /** The REST block, at the root only and outside the already-woven guard. */
  function RestBlockFields(cd: ClassDetails): seq<FieldDecl> {
    if cd.shouldWeaveREST && cd.IsRoot() then RestFields() else []
  }

  function RestBlockMethods(cd: ClassDetails): seq<MethodDecl> {
    if cd.shouldWeaveREST && cd.IsRoot() then RestMethods(cd) else []
  }

  /** The fields `visitEnd` declares for a class not woven yet, before the REST block. */
  function GuardedFields(cd: ClassDetails, jaxbOnPath: bool): seq<FieldDecl> {
    InternalFields(cd) + AttributesFields(cd, jaxbOnPath, cd.attributes) + TrackingFields(cd) + GroupFields(cd, jaxbOnPath)
  }

  /** The methods `visitEnd` declares for a class not woven yet, before the REST block. */
  function GuardedMethods(cd: ClassDetails): seq<MethodDecl> {
    InternalMethods(cd) + AttributesMethods(cd, cd.attributes) + TrackingMethods(cd) + GroupMethods(cd)
  }

  /** Everything `visitEnd` declares as fields, in order. */
  function EndFields(cd: ClassDetails, alreadyWeaved: bool, jaxbOnPath: bool): seq<FieldDecl> {
    (if alreadyWeaved then [] else GuardedFields(cd, jaxbOnPath)) + RestBlockFields(cd)
  }

  /** Everything `visitEnd` declares as methods, in order. */
  function EndMethods(cd: ClassDetails, alreadyWeaved: bool): seq<MethodDecl> {
    (if alreadyWeaved then [] else GuardedMethods(cd)) + RestBlockMethods(cd)
  }

  // ---------------------------------------------------------------- agreement with the plan

  /** A single member adds its own fields and methods. */
  lemma PlanOne(cd: ClassDetails, jaxbOnPath: bool, m: Member)
    ensures PlanFields(cd, jaxbOnPath, [m]) == MemberFields(cd, jaxbOnPath, m)
    ensures PlanMethods(cd, [m]) == MemberMethods(cd, m)
  {
    PlanSnoc(cd, jaxbOnPath, [], m);
  }

  /** Two members add the fields and methods of the first, then those of the second. */
  lemma PlanTwo(cd: ClassDetails, jaxbOnPath: bool, m: Member, n: Member)
    ensures PlanFields(cd, jaxbOnPath, [m, n]) == MemberFields(cd, jaxbOnPath, m) + MemberFields(cd, jaxbOnPath, n)
    ensures PlanMethods(cd, [m, n]) == MemberMethods(cd, m) + MemberMethods(cd, n)
  {
    PlanOne(cd, jaxbOnPath, m);
    PlanSnoc(cd, jaxbOnPath, [m], n);
    assert [m] + [n] == [m, n];
  }

  /** The entity members of a root entity. */
  lemma EntityRendered(cd: ClassDetails, jaxbOnPath: bool)
    ensures PlanFields(cd, jaxbOnPath, [ForClass(EntityVariables), ForClass(EntityAccessors)]) == EntityFields()
    ensures PlanMethods(cd, [ForClass(EntityVariables), ForClass(EntityAccessors)]) == EntityMethods(cd)
  {
    PlanTwo(cd, jaxbOnPath, ForClass(EntityVariables), ForClass(EntityAccessors));
    assert EntityFields() + [] == EntityFields();
    assert [] + EntityMethods(cd) == EntityMethods(cd);
  }

  /** The clone and entity members of a root. */
  lemma RootRendered(cd: ClassDetails, jaxbOnPath: bool)
    ensures var root := [ForClass(ShallowClone)] + (if !cd.isEmbedable then [ForClass(EntityVariables), ForClass(EntityAccessors)] else []);
      && PlanFields(cd, jaxbOnPath, root) == (if !cd.isEmbedable then EntityFields() else [])
      && PlanMethods(cd, root) == [ShallowCloneMethod()] + (if !cd.isEmbedable then EntityMethods(cd) else [])
  {
    var entity := if !cd.isEmbedable then [ForClass(EntityVariables), ForClass(EntityAccessors)] else [];
    PlanOne(cd, jaxbOnPath, ForClass(ShallowClone));
    PlanAppend(cd, jaxbOnPath, [ForClass(ShallowClone)], entity);
    if !cd.isEmbedable {
      EntityRendered(cd, jaxbOnPath);
      assert [] + EntityFields() == EntityFields();
    } else {
      assert [ForClass(ShallowClone)] + entity == [ForClass(ShallowClone)];
    }
  }

  /** The members of an internal root. */
  function RootMembers(cd: ClassDetails): seq<Member> {
    if cd.IsRoot()
    then [ForClass(ShallowClone)] + (if !cd.isEmbedable then [ForClass(EntityVariables), ForClass(EntityAccessors)] else [])
    else []
  }

  /** The post-clone hook, then the root members. */
  lemma HeadRendered(cd: ClassDetails, jaxbOnPath: bool)
    ensures PlanFields(cd, jaxbOnPath, [ForClass(PostCloneHook)] + RootMembers(cd)) == RootBlockFields(cd)
    ensures PlanMethods(cd, [ForClass(PostCloneHook)] + RootMembers(cd)) == [PostCloneMethod(cd)] + RootBlockMethods(cd)
  {
    PlanOne(cd, jaxbOnPath, ForClass(PostCloneHook));
    PlanAppend(cd, jaxbOnPath, [ForClass(PostCloneHook)], RootMembers(cd));
    if cd.IsRoot() {
      RootRendered(cd, jaxbOnPath);
    } else {
      assert [ForClass(PostCloneHook)] + RootMembers(cd) == [ForClass(PostCloneHook)];
    }
  }

  /** The factory and the generic dispatchers. */
  lemma TailRendered(cd: ClassDetails, jaxbOnPath: bool)
    ensures PlanFields(cd, jaxbOnPath, [ForClass(FactoryMethods), ForClass(GenericAccessors)]) == []
    ensures PlanMethods(cd, [ForClass(FactoryMethods), ForClass(GenericAccessors)]) == PersistenceNewMethods(cd) + GenericAccessMethods(cd)
  {
    PlanTwo(cd, jaxbOnPath, ForClass(FactoryMethods), ForClass(GenericAccessors));
  }

  /** The internal part of the plan adds the internal block. */
  lemma InternalRendered(cd: ClassDetails, jaxbOnPath: bool)
    ensures PlanFields(cd, jaxbOnPath, InternalPlan(cd)) == InternalFields(cd)
    ensures PlanMethods(cd, InternalPlan(cd)) == InternalMethods(cd)
  {
    if cd.shouldWeaveInternal {
      var head, tail := [ForClass(PostCloneHook)] + RootMembers(cd), [ForClass(FactoryMethods), ForClass(GenericAccessors)];
      assert InternalPlan(cd) == head + tail;
      HeadRendered(cd, jaxbOnPath);
      TailRendered(cd, jaxbOnPath);
      PlanAppend(cd, jaxbOnPath, head, tail);
    }
  }

  /** The four value-holder members of a lazy attribute. */
  lemma HolderRendered(cd: ClassDetails, jaxbOnPath: bool, a: AttributeDetails)
    ensures var holder := [ForAttribute(HolderVariable, a), ForAttribute(HolderInitializer, a),
                           ForAttribute(HolderGetter, a), ForAttribute(HolderSetter, a)];
      && PlanFields(cd, jaxbOnPath, holder) == [ValueHolderField(a, jaxbOnPath)]
      && PlanMethods(cd, holder) == [InitializerMethod(cd, a), HolderGetterMethod(cd, a), HolderSetterMethod(cd, a)]
  {
    var p, q := [ForAttribute(HolderVariable, a), ForAttribute(HolderInitializer, a)], [ForAttribute(HolderGetter, a), ForAttribute(HolderSetter, a)];
    PlanTwo(cd, jaxbOnPath, ForAttribute(HolderVariable, a), ForAttribute(HolderInitializer, a));
    PlanTwo(cd, jaxbOnPath, ForAttribute(HolderGetter, a), ForAttribute(HolderSetter, a));
    PlanAppend(cd, jaxbOnPath, p, q);
    assert p + q == [ForAttribute(HolderVariable, a), ForAttribute(HolderInitializer, a),
                     ForAttribute(HolderGetter, a), ForAttribute(HolderSetter, a)];
  }

  /** The field-access getter and setter of an attribute. */
  lemma AccessRendered(cd: ClassDetails, jaxbOnPath: bool, a: AttributeDetails)
    ensures PlanFields(cd, jaxbOnPath, [ForAttribute(FieldGetter, a), ForAttribute(FieldSetter, a)]) == []
    ensures PlanMethods(cd, [ForAttribute(FieldGetter, a), ForAttribute(FieldSetter, a)]) == [FieldGetterMethod(cd, a), FieldSetterMethod(cd, a)]
  {
    PlanTwo(cd, jaxbOnPath, ForAttribute(FieldGetter, a), ForAttribute(FieldSetter, a));
  }

  /** The members of one attribute add what one turn of the attribute loop adds. */
  lemma AttributeRendered(cd: ClassDetails, jaxbOnPath: bool, a: AttributeDetails)
    ensures PlanFields(cd, jaxbOnPath, AttributeMembers(cd, a)) == AttributeFields(cd, jaxbOnPath, a)
    ensures PlanMethods(cd, AttributeMembers(cd, a)) == AttributeMethods(cd, a)
  {
    if a.IsLocal() {
      var holder := if a.weaveValueHolders
        then [ForAttribute(HolderVariable, a), ForAttribute(HolderInitializer, a), ForAttribute(HolderGetter, a), ForAttribute(HolderSetter, a)]
        else [];
      var access := if WeavesFieldAccess(cd, a) then [ForAttribute(FieldGetter, a), ForAttribute(FieldSetter, a)] else [];
      HolderRendered(cd, jaxbOnPath, a);
      AccessRendered(cd, jaxbOnPath, a);
      PlanAppend(cd, jaxbOnPath, holder, access);
      PlanAppend(cd, jaxbOnPath, [], []);
    }
  }

  /** The members of the attributes add what the whole attribute loop adds. */
  lemma {:induction false} AttributesRendered(cd: ClassDetails, jaxbOnPath: bool, attrs: seq<AttributeDetails>)
    ensures PlanFields(cd, jaxbOnPath, AttributesPlan(cd, attrs)) == AttributesFields(cd, jaxbOnPath, attrs)
    ensures PlanMethods(cd, AttributesPlan(cd, attrs)) == AttributesMethods(cd, attrs)
    decreases |attrs|
  {
    if attrs == [] {
      PlanAppend(cd, jaxbOnPath, [], []);
    } else {
      var init, last := attrs[..|attrs| - 1], attrs[|attrs| - 1];
      AttributesRendered(cd, jaxbOnPath, init);
      AttributeRendered(cd, jaxbOnPath, last);
      PlanAppend(cd, jaxbOnPath, AttributesPlan(cd, init), AttributeMembers(cd, last));
    }
  }

  /** The listener members add the change-tracking block. */
  lemma TrackingRendered(cd: ClassDetails, jaxbOnPath: bool)
    ensures PlanFields(cd, jaxbOnPath, ChangeTrackingPlan(cd)) == TrackingFields(cd)
    ensures PlanMethods(cd, ChangeTrackingPlan(cd)) == TrackingMethods(cd)
  {
    if AddsListener(cd) {
      var p, q := [ForClass(ListenerVariable), ForClass(ListenerReader)], [ForClass(ListenerWriter), ForClass(PropertyChangeNotifier)];
      assert ChangeTrackingPlan(cd) == p + q;
      PlanTwo(cd, jaxbOnPath, ForClass(ListenerVariable), ForClass(ListenerReader));
      PlanTwo(cd, jaxbOnPath, ForClass(ListenerWriter), ForClass(PropertyChangeNotifier));
      PlanAppend(cd, jaxbOnPath, p, q);
    } else {
      PlanAppend(cd, jaxbOnPath, [], []);
    }
  }

  /** The empty sequence is a unit of concatenation. */
  lemma EmptyUnit<T>(s: seq<T>)
    ensures s + [] == s && [] + s == s
  {
  }

  /** The fetch-group members add the fetch-group block. */
  lemma GroupRendered(cd: ClassDetails, jaxbOnPath: bool)
    ensures PlanFields(cd, jaxbOnPath, FetchGroupPlan(cd)) == GroupFields(cd, jaxbOnPath)
    ensures PlanMethods(cd, FetchGroupPlan(cd)) == GroupMethods(cd)
  {
    if cd.shouldWeaveFetchGroups && cd.IsRoot() {
      PlanTwo(cd, jaxbOnPath, ForClass(FetchGroupVariables), ForClass(FetchGroupAccessors));
      EmptyUnit(FetchGroupFields(cd, jaxbOnPath));
      EmptyUnit(FetchGroupMethods(cd));
    } else {
      PlanAppend(cd, jaxbOnPath, [], []);
    }
  }

  /** The REST members add the REST block. */
  lemma RestRendered(cd: ClassDetails, jaxbOnPath: bool)
    ensures PlanFields(cd, jaxbOnPath, RestPlan(cd)) == RestBlockFields(cd)
    ensures PlanMethods(cd, RestPlan(cd)) == RestBlockMethods(cd)
  {
    if cd.shouldWeaveREST && cd.IsRoot() {
      PlanTwo(cd, jaxbOnPath, ForClass(RestVariables), ForClass(RestAccessors));
      assert RestFields() + [] == RestFields();
      assert [] + RestMethods(cd) == RestMethods(cd);
    } else {
      PlanAppend(cd, jaxbOnPath, [], []);
    }
  }

  /** The woven part of the plan adds the blocks under the already-woven guard. */
  lemma GuardedRendered(cd: ClassDetails, jaxbOnPath: bool)
    ensures var p := InternalPlan(cd) + AttributesPlan(cd, cd.attributes) + ChangeTrackingPlan(cd) + FetchGroupPlan(cd);
      PlanFields(cd, jaxbOnPath, p) == GuardedFields(cd, jaxbOnPath) && PlanMethods(cd, p) == GuardedMethods(cd)
  {
    var i, t, g := InternalPlan(cd), AttributesPlan(cd, cd.attributes), ChangeTrackingPlan(cd);
    InternalRendered(cd, jaxbOnPath);
    AttributesRendered(cd, jaxbOnPath, cd.attributes);
    TrackingRendered(cd, jaxbOnPath);
    GroupRendered(cd, jaxbOnPath);
    PlanAppend(cd, jaxbOnPath, i, t);
    PlanAppend(cd, jaxbOnPath, i + t, g);
    PlanAppend(cd, jaxbOnPath, i + t + g, FetchGroupPlan(cd));
  }

  /**
   * What `visitEnd` declares is exactly what the members of the plan stand
   * for, in the plan's order.
   */
  lemma EndRendered(cd: ClassDetails, alreadyWeaved: bool, jaxbOnPath: bool)
    ensures EndFields(cd, alreadyWeaved, jaxbOnPath) == PlanFields(cd, jaxbOnPath, Plan(cd, alreadyWeaved))
    ensures EndMethods(cd, alreadyWeaved) == PlanMethods(cd, Plan(cd, alreadyWeaved))
  {
    var guarded := if alreadyWeaved then [] else InternalPlan(cd) + AttributesPlan(cd, cd.attributes) + ChangeTrackingPlan(cd) + FetchGroupPlan(cd);
    if !alreadyWeaved {
      GuardedRendered(cd, jaxbOnPath);
    } else {
      PlanAppend(cd, jaxbOnPath, [], []);
    }
    RestRendered(cd, jaxbOnPath);
    PlanAppend(cd, jaxbOnPath, guarded, RestPlan(cd));
  }

  /** Every method `visitEnd` declares branches only to labels its code marks. */
  lemma EndResolved(cd: ClassDetails, alreadyWeaved: bool)
    ensures forall md :: md in EndMethods(cd, alreadyWeaved) ==> LabelsResolved(md.code)
  {
    EndRendered(cd, alreadyWeaved, false);
    PlanResolved(cd, Plan(cd, alreadyWeaved));
  }
}
