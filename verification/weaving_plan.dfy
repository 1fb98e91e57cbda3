/**
 * What `ClassWeaver.visitEnd` adds to a class: the members it synthesises,
 * in the order it adds them, and under which conditions.
 */
module WeavingPlan {
  import opened WeavingDetails

  /** The `add*` calls `visitEnd` makes at most once per class. */
  datatype ClassMember =
    | PostCloneHook            // addPersistencePostClone
    | ShallowClone             // addShallowClone
    | EntityVariables          // addPersistenceEntityVariables
    | EntityAccessors          // addPersistenceEntityMethods
    | FactoryMethods           // addPersistenceNew
    | GenericAccessors         // addPersistenceGetSet
    | ListenerVariable         // addPropertyChangeListener
    | ListenerReader           // addGetPropertyChangeListener
    | ListenerWriter           // addSetPropertyChangeListener
    | PropertyChangeNotifier   // addPropertyChange
    | FetchGroupVariables      // addFetchGroupVariables
    | FetchGroupAccessors      // addFetchGroupMethods
    | RestVariables            // addPersistenceRestVariables
    | RestAccessors            // addPersistenceRestMethods

  /** The `add*` calls `visitEnd` makes per attribute. */
  datatype AttributeMember =
    | HolderVariable           // addValueHolder
    | HolderInitializer        // addInitializerForValueHolder
    | HolderGetter             // addGetterMethodForValueHolder
    | HolderSetter             // addSetterMethodForValueHolder
    | FieldGetter              // addGetterMethodForFieldAccess
    | FieldSetter              // addSetterMethodForFieldAccess
  {
    /** One of the four value-holder members. */
    predicate OfHolder() {
      HolderVariable? || HolderInitializer? || HolderGetter? || HolderSetter?
    }
  }

  /** One `add*` call of `visitEnd`, with the attribute it is made for. */
  datatype Member = ForClass(c: ClassMember) | ForAttribute(kind: AttributeMember, a: AttributeDetails)

  /** Whether the field-access getter and setter are woven for an attribute declared in the class. */
  predicate WeavesFieldAccess(cd: ClassDetails, a: AttributeDetails) {
    (cd.shouldWeaveChangeTracking || cd.shouldWeaveFetchGroups || a.weaveValueHolders) && a.hasField
  }

  /**
   * When `visitEnd` adds a per-attribute member, as a table: only for an
   * attribute declared in the class; the holder members for a lazy
   * attribute, the field-access accessors when change tracking, fetch
   * groups or laziness apply and the attribute has a field.
   */
  predicate AttributeWoven(cd: ClassDetails, kind: AttributeMember, a: AttributeDetails) {
    a.IsLocal() && (if kind.OfHolder() then a.weaveValueHolders else WeavesFieldAccess(cd, a))
  }

  /**
   * When `visitEnd` adds a per-class member, as a table. The REST members
   * are the only ones a class that was woven already still gets.
   */
  predicate ClassWoven(cd: ClassDetails, alreadyWeaved: bool, c: ClassMember) {
    var w, root := !alreadyWeaved, cd.IsRoot();
    match c
    case PostCloneHook => w && cd.shouldWeaveInternal
    case ShallowClone => w && cd.shouldWeaveInternal && root
    case EntityVariables => w && cd.shouldWeaveInternal && root && !cd.isEmbedable
    case EntityAccessors => w && cd.shouldWeaveInternal && root && !cd.isEmbedable
    case FactoryMethods => w && cd.shouldWeaveInternal
    case GenericAccessors => w && cd.shouldWeaveInternal
    case ListenerVariable => w && cd.shouldWeaveChangeTracking && (root || !cd.doesSuperclassWeaveChangeTracking)
    case ListenerReader => w && cd.shouldWeaveChangeTracking && (root || !cd.doesSuperclassWeaveChangeTracking)
    case ListenerWriter => w && cd.shouldWeaveChangeTracking && (root || !cd.doesSuperclassWeaveChangeTracking)
    case PropertyChangeNotifier => w && cd.shouldWeaveChangeTracking && (root || !cd.doesSuperclassWeaveChangeTracking)
    case FetchGroupVariables => w && cd.shouldWeaveFetchGroups && root
    case FetchGroupAccessors => w && cd.shouldWeaveFetchGroups && root
    case RestVariables => cd.shouldWeaveREST && root
    case RestAccessors => cd.shouldWeaveREST && root
  }

  /** The members added for one attribute, in the order `visitEnd` adds them. */
  function AttributeMembers(cd: ClassDetails, a: AttributeDetails): seq<Member> {
    if !a.IsLocal() then []
    else
      (if a.weaveValueHolders
       then [ForAttribute(HolderVariable, a), ForAttribute(HolderInitializer, a),
             ForAttribute(HolderGetter, a), ForAttribute(HolderSetter, a)]
       else [])
      + (if WeavesFieldAccess(cd, a) then [ForAttribute(FieldGetter, a), ForAttribute(FieldSetter, a)] else [])
  }

  /** The members added for the attributes, in attribute-map order. */
  function AttributesPlan(cd: ClassDetails, attrs: seq<AttributeDetails>): seq<Member> {
    if attrs == [] then [] else AttributesPlan(cd, attrs[..|attrs| - 1]) + AttributeMembers(cd, attrs[|attrs| - 1])
  }

  /** The internal members: clone hooks, entity members, the factory and the generic dispatchers. */
  function InternalPlan(cd: ClassDetails): seq<Member> {
    if !cd.shouldWeaveInternal then []
    else
      [ForClass(PostCloneHook)]
      + (if cd.IsRoot()
         then [ForClass(ShallowClone)] + (if !cd.isEmbedable then [ForClass(EntityVariables), ForClass(EntityAccessors)] else [])
         else [])
      + [ForClass(FactoryMethods), ForClass(GenericAccessors)]
  }

  /** The listener members, which only the topmost change-tracking class of a hierarchy gets. */
  function ChangeTrackingPlan(cd: ClassDetails): seq<Member> {
    if cd.shouldWeaveChangeTracking && (cd.IsRoot() || !cd.doesSuperclassWeaveChangeTracking) then
      [ForClass(ListenerVariable), ForClass(ListenerReader), ForClass(ListenerWriter), ForClass(PropertyChangeNotifier)]
    else []
  }

  /** The fetch-group members, at the root only. */
  function FetchGroupPlan(cd: ClassDetails): seq<Member> {
    if cd.shouldWeaveFetchGroups && cd.IsRoot() then [ForClass(FetchGroupVariables), ForClass(FetchGroupAccessors)] else []
  }

  /** The REST members, at the root only. */
  function RestPlan(cd: ClassDetails): seq<Member> {
    if cd.shouldWeaveREST && cd.IsRoot() then [ForClass(RestVariables), ForClass(RestAccessors)] else []
  }

  /**
   * Everything `visitEnd` adds, in order, for a class with descriptor `cd`
   * (as the scan of `visit` left it); the REST members are not covered by
   * the already-woven guard.
   */
  function Plan(cd: ClassDetails, alreadyWeaved: bool): seq<Member> {
    (if alreadyWeaved then []
     else InternalPlan(cd) + AttributesPlan(cd, cd.attributes) + ChangeTrackingPlan(cd) + FetchGroupPlan(cd))
    + RestPlan(cd)
  }

  /** The members of one attribute are those of its table row, for that attribute only. */
  lemma AttributeMembersOf(cd: ClassDetails, b: AttributeDetails, m: Member)
    ensures m in AttributeMembers(cd, b) <==> m.ForAttribute? && m.a == b && AttributeWoven(cd, m.kind, b)
  {
  }

  /** A member is in the plan of the attributes exactly when its attribute is one of them and its row holds. */
  lemma {:induction false} AttributesPlanMembers(cd: ClassDetails, attrs: seq<AttributeDetails>, m: Member)
    ensures m in AttributesPlan(cd, attrs) <==> m.ForAttribute? && m.a in attrs && AttributeWoven(cd, m.kind, m.a)
    decreases |attrs|
  {
    if attrs != [] {
      var init, last := attrs[..|attrs| - 1], attrs[|attrs| - 1];
      assert attrs == init + [last];
      AttributesPlanMembers(cd, init, m);
      AttributeMembersOf(cd, last, m);
    }
  }

  /**
   * `visitEnd` adds a per-attribute member exactly for the attributes of
   * the class whose table row holds, and none to a class woven already.
   */
  lemma PlanAttributeMembers(cd: ClassDetails, alreadyWeaved: bool, kind: AttributeMember, a: AttributeDetails)
    ensures ForAttribute(kind, a) in Plan(cd, alreadyWeaved) <==>
      !alreadyWeaved && a in cd.attributes && AttributeWoven(cd, kind, a)
  {
    var m := ForAttribute(kind, a);
    PlanParts(cd, alreadyWeaved, m);
    assert m !in InternalPlan(cd) && m !in ChangeTrackingPlan(cd) && m !in FetchGroupPlan(cd) && m !in RestPlan(cd);
    AttributesPlanMembers(cd, cd.attributes, m);
  }

  /** A member is in the plan when it is in one of its parts. */
  lemma PlanParts(cd: ClassDetails, alreadyWeaved: bool, m: Member)
    ensures m in Plan(cd, alreadyWeaved) <==>
      (!alreadyWeaved && (m in InternalPlan(cd) || m in AttributesPlan(cd, cd.attributes) || m in ChangeTrackingPlan(cd) || m in FetchGroupPlan(cd)))
      || m in RestPlan(cd)
  {
  }

  /** Which part of the plan a per-class member belongs to. */
  predicate Internal(c: ClassMember) {
    c.PostCloneHook? || c.ShallowClone? || c.EntityVariables? || c.EntityAccessors? || c.FactoryMethods? || c.GenericAccessors?
  }

  predicate Tracking(c: ClassMember) {
    c.ListenerVariable? || c.ListenerReader? || c.ListenerWriter? || c.PropertyChangeNotifier?
  }

  /** A per-class member is never added for an attribute. */
  lemma PlanClassParts(cd: ClassDetails, alreadyWeaved: bool, c: ClassMember)
    ensures ForClass(c) in Plan(cd, alreadyWeaved) <==>
      (!alreadyWeaved && (ForClass(c) in InternalPlan(cd) || ForClass(c) in ChangeTrackingPlan(cd) || ForClass(c) in FetchGroupPlan(cd)))
      || ForClass(c) in RestPlan(cd)
  {
    AttributesPlanMembers(cd, cd.attributes, ForClass(c));
  }

  /** The internal rows of the table. */
  lemma PlanInternalMembers(cd: ClassDetails, alreadyWeaved: bool, c: ClassMember)
    requires Internal(c)
    ensures ForClass(c) in Plan(cd, alreadyWeaved) <==> ClassWoven(cd, alreadyWeaved, c)
  {
    PlanClassParts(cd, alreadyWeaved, c);
  }

  /** The change-tracking rows of the table. */
  lemma PlanTrackingMembers(cd: ClassDetails, alreadyWeaved: bool, c: ClassMember)
    requires Tracking(c)
    ensures ForClass(c) in Plan(cd, alreadyWeaved) <==> ClassWoven(cd, alreadyWeaved, c)
  {
    PlanClassParts(cd, alreadyWeaved, c);
  }

  /** The fetch-group and REST rows of the table. */
  lemma PlanRootMembers(cd: ClassDetails, alreadyWeaved: bool, c: ClassMember)
    requires !Internal(c) && !Tracking(c)
    ensures ForClass(c) in Plan(cd, alreadyWeaved) <==> ClassWoven(cd, alreadyWeaved, c)
  {
    PlanClassParts(cd, alreadyWeaved, c);
  }

  /** `visitEnd` adds a per-class member exactly when its table row holds. */
  lemma PlanClassMembers(cd: ClassDetails, alreadyWeaved: bool, c: ClassMember)
    ensures ForClass(c) in Plan(cd, alreadyWeaved) <==> ClassWoven(cd, alreadyWeaved, c)
  {
    if Internal(c) {
      PlanInternalMembers(cd, alreadyWeaved, c);
    } else if Tracking(c) {
      PlanTrackingMembers(cd, alreadyWeaved, c);
    } else {
      PlanRootMembers(cd, alreadyWeaved, c);
    }
  }
}
