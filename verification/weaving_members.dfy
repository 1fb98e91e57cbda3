/**
 * The class-level members the class weaver synthesises: change-tracking
 * listener support, the post-clone and shallow-clone hooks, the factory
 * `_persistence_new` with its constructor, the generic get/set dispatchers,
 * and the fields and accessors of the PersistenceEntity, FetchGroupTracker
 * and REST support interfaces.
 */
module WeavingMembers {
  import opened JavaLang
  import opened Asm
  import opened WeavingNames
  import opened WeavingDetails
  import opened WeavingCode

  /** `public <desc> <name>() { return this.<field>; }`. */
  function FieldReader(owner: string, name: string, field: string, desc: string, ret: Opcode): MethodDecl {
    MethodDecl(Public, name, "()" + desc, [VarInsn(ALOAD, 0), FieldInsn(GETFIELD, owner, field, desc), Insn(ret)])
  }

  /** `public void <name>(<desc> x) { this.<field> = x; }`. */
  function FieldWriter(owner: string, name: string, field: string, desc: string, load: Opcode): MethodDecl {
    MethodDecl(Public, name, "(" + desc + ")V",
      [VarInsn(ALOAD, 0), VarInsn(load, 1), FieldInsn(PUTFIELD, owner, field, desc), Insn(RETURN)])
  }

  /**
   * An accessor pair: the reader returns the very field the writer stores
   * its argument into, and the reader's result type is the writer's
   * parameter type. Neither body branches.
   */
  lemma AccessorPair(owner: string, getName: string, setName: string, field: string, desc: string, ret: Opcode, load: Opcode)
    ensures var g, s := FieldReader(owner, getName, field, desc, ret), FieldWriter(owner, setName, field, desc, load);
      && g.code[1] == FieldInsn(GETFIELD, owner, field, desc)
      && s.code[2] == FieldInsn(PUTFIELD, owner, field, desc)
      && s.code[1] == VarInsn(load, 1)
      && g.desc == "()" + desc && s.desc == "(" + desc + ")V"
      && Straight(g.code) && Straight(s.code)
  {
    var g, s := FieldReader(owner, getName, field, desc, ret), FieldWriter(owner, setName, field, desc, load);
    assert forall i :: 0 <= i < |g.code| ==> g.code[i] in {VarInsn(ALOAD, 0), FieldInsn(GETFIELD, owner, field, desc), Insn(ret)};
    assert forall i :: 0 <= i < |s.code| ==> s.code[i] in {VarInsn(ALOAD, 0), VarInsn(load, 1), FieldInsn(PUTFIELD, owner, field, desc), Insn(RETURN)};
  }

  // ---------------------------------------------------------------- change tracking

  /** `addPropertyChangeListener`: the transient `_persistence_listener` field. */
  function ListenerField(): FieldDecl {
    FieldDecl(ProtectedTransient, LISTENER_FIELD, PCL_SIGNATURE, [])
  }

  /** `addGetPropertyChangeListener`. */
  function ListenerGetter(cd: ClassDetails): MethodDecl {
    FieldReader(cd.className, "_persistence_getPropertyChangeListener", LISTENER_FIELD, PCL_SIGNATURE, ARETURN)
  }

  /** `addSetPropertyChangeListener`. */
  function ListenerSetter(cd: ClassDetails): MethodDecl {
    FieldWriter(cd.className, "_persistence_setPropertyChangeListener", LISTENER_FIELD, PCL_SIGNATURE, ALOAD)
  }

  /** `_persistence_listener.propertyChange(...)`. */
  function ListenerCall(): Instr {
    MethodInsn(INVOKEINTERFACE, PCL, "propertyChange", "(" + PCE_SIGNATURE + ")V", true)
  }

  /** The tests and the notification of `_persistence_propertyChange`, jumping to label 0 to skip. */
  function PropertyChangeTests(cd: ClassDetails): seq<Instr> {
    [VarInsn(ALOAD, 0), FieldInsn(GETFIELD, cd.className, LISTENER_FIELD, PCL_SIGNATURE), JumpInsn(IFNULL, 0)]
    + [VarInsn(ALOAD, 2), VarInsn(ALOAD, 3), JumpInsn(IF_ACMPEQ, 0)]
    + [VarInsn(ALOAD, 0), FieldInsn(GETFIELD, cd.className, LISTENER_FIELD, PCL_SIGNATURE), TypeInsn(NEW, PCE), Insn(DUP)]
    + [VarInsn(ALOAD, 0), VarInsn(ALOAD, 1), VarInsn(ALOAD, 2), VarInsn(ALOAD, 3)]
    + [MethodInsn(INVOKESPECIAL, PCE, INIT, PCE_INIT_DESC, false), ListenerCall()]
  }

  /**
   * The body of `_persistence_propertyChange(name, old, new)`: when a
   * listener is set and the two values are different objects, send it a
   * `PropertyChangeEvent(this, name, old, new)`.
   */
  function PropertyChangeCode(cd: ClassDetails): seq<Instr> {
    PropertyChangeTests(cd) + [LabelMark(0)] + [Insn(RETURN)]
  }

  /** `addPropertyChange`. */
  function PropertyChangeMethod(cd: ClassDetails): MethodDecl {
    MethodDecl(Public, PROPERTY_CHANGE, PROPERTY_CHANGE_DESC, PropertyChangeCode(cd))
  }

  /**
   * A null listener and identical values both jump past the notification;
   * the event is built from `this` and the three arguments in order.
   */
  lemma PropertyChangeGuarded(cd: ClassDetails)
    ensures var code := PropertyChangeCode(cd);
      && LabelsResolved(code) && Marks(code) == {0}
      && Before(code, JumpInsn(IFNULL, 0), ListenerCall()) && Before(code, JumpInsn(IF_ACMPEQ, 0), ListenerCall())
      && Before(code, ListenerCall(), LabelMark(0))
      && code[10..15] == [VarInsn(ALOAD, 0), VarInsn(ALOAD, 1), VarInsn(ALOAD, 2), VarInsn(ALOAD, 3),
                          MethodInsn(INVOKESPECIAL, PCE, INIT, PCE_INIT_DESC, false)]
  {
    var code := PropertyChangeCode(cd);
    StraightResolved([Insn(RETURN)]);
    MarkResolved(PropertyChangeTests(cd), 0, [Insn(RETURN)]);
    assert code[2] == JumpInsn(IFNULL, 0) && code[5] == JumpInsn(IF_ACMPEQ, 0);
    assert code[15] == ListenerCall() && code[16] == LabelMark(0);
  }

  // ---------------------------------------------------------------- cloning

  /** Every field store in `code` writes a field of descriptor `desc`. */
  predicate StoresOnly(code: seq<Instr>, desc: string) {
    forall x :: x in code && x.FieldInsn? && x.op == PUTFIELD ==> x.desc == desc
  }

  /** `code` makes no `invokespecial` call. */
  predicate NoSpecialCall(code: seq<Instr>) {
    forall x :: x in code && x.MethodInsn? ==> x.op != INVOKESPECIAL
  }

  /** `this.<holder> = (WAVHI) this.<holder>.clone();`. */
  function CloneHolder(cd: ClassDetails, a: AttributeDetails): seq<Instr> {
    [VarInsn(ALOAD, 0)] + LoadHolder(cd, a)
    + [HolderCall("clone", OBJECT_RESULT_DESC), TypeInsn(CHECKCAST, VHI),
       FieldInsn(PUTFIELD, cd.className, HolderField(a.attributeName), VHI_SIGNATURE)]
  }

  /** `if (this.<holder> != null) <clone it>`, skipping to `l`. */
  function CloneBlock(cd: ClassDetails, a: AttributeDetails, l: Label): seq<Instr> {
    (LoadHolder(cd, a) + [JumpInsn(IFNULL, l)]) + CloneHolder(cd, a) + [LabelMark(l)]
  }

  /** The clone blocks of `lazy`, the k-th using label k. */
  function CloneBlocks(cd: ClassDetails, lazy: seq<AttributeDetails>): (bs: seq<seq<Instr>>)
    ensures |bs| == |lazy|
    ensures forall k :: 0 <= k < |lazy| ==> bs[k] == CloneBlock(cd, lazy[k], k)
  {
    seq(|lazy|, k requires 0 <= k < |lazy| => CloneBlock(cd, lazy[k], k))
  }

  /** Adding one more lazy attribute appends its clone block, with the next label. */
  lemma CloneBlocksSnoc(cd: ClassDetails, lazy: seq<AttributeDetails>, a: AttributeDetails)
    ensures CloneBlocks(cd, lazy + [a]) == CloneBlocks(cd, lazy) + [CloneBlock(cd, a, |lazy|)]
  {
  }

  /** `this.<field> = null;`. */
  function ClearField(cd: ClassDetails, field: string, desc: string): seq<Instr> {
    [VarInsn(ALOAD, 0), Insn(ACONST_NULL), FieldInsn(PUTFIELD, cd.className, field, desc)]
  }

  /** The references a clone must not share with its original. */
  function PostCloneClears(cd: ClassDetails): seq<Instr> {
    (if cd.shouldWeaveChangeTracking then ClearField(cd, LISTENER_FIELD, PCL_SIGNATURE) else [])
    + (if cd.shouldWeaveFetchGroups then ClearField(cd, FETCHGROUP_FIELD, FETCHGROUP_SIGNATURE) + ClearField(cd, SESSION_FIELD, SESSION_SIGNATURE) else [])
    + (if !cd.isEmbedable then ClearField(cd, PRIMARY_KEY_FIELD, OBJECT_SIGNATURE) else [])
  }

  /** `super._persistence_post_clone()`, only when the superclass is woven with internal members. */
  function SuperPostClone(cd: ClassDetails): seq<Instr> {
    if cd.SuperWeavesInternal() then
      [VarInsn(ALOAD, 0), MethodInsn(INVOKESPECIAL, cd.superClassName, POST_CLONE, OBJECT_RESULT_DESC, false)]
    else []
  }

  /** The holder clones of the post-clone hook: one per lazy attribute, when value holders are woven. */
  function PostCloneHolders(cd: ClassDetails): seq<Instr> {
    if cd.shouldWeaveValueHolders then Flatten(CloneBlocks(cd, Lazy(cd.attributes))) else []
  }

  /**
   * The body of `_persistence_post_clone`: the superclass hook, a clone of
   * every non-null value holder (all lazy attributes of the map, inherited
   * ones included), the cleared references, and `return this`.
   */
  function PostCloneCode(cd: ClassDetails): seq<Instr> {
    SuperPostClone(cd) + PostCloneHolders(cd) + PostCloneClears(cd) + [VarInsn(ALOAD, 0), Insn(ARETURN)]
  }

  /** `addPersistencePostClone`. */
  function PostCloneMethod(cd: ClassDetails): MethodDecl {
    MethodDecl(Public, POST_CLONE, OBJECT_RESULT_DESC, PostCloneCode(cd))
  }

  /** One clone block resolves its own label. */
  lemma CloneBlockResolved(cd: ClassDetails, a: AttributeDetails, l: Label)
    ensures LabelsResolved(CloneBlock(cd, a, l)) && Marks(CloneBlock(cd, a, l)) == {l}
  {
    var body := CloneHolder(cd, a);
    assert Straight(body) by {
      forall i | 0 <= i < |body| ensures !body[i].JumpInsn? && !body[i].LabelMark? {
        assert body[i].VarInsn? || body[i].FieldInsn? || body[i].MethodInsn? || body[i].TypeInsn?;
      }
    }
    GuardedResolved(LoadHolder(cd, a) + [JumpInsn(IFNULL, l)], body, l);
  }

  /** One clone block stores only into its holder field, does store into it, and makes no `invokespecial` call. */
  lemma CloneBlockStores(cd: ClassDetails, a: AttributeDetails, l: Label)
    ensures var b := CloneBlock(cd, a, l);
      && StoresOnly(b, VHI_SIGNATURE) && NoSpecialCall(b)
      && FieldInsn(PUTFIELD, cd.className, HolderField(a.attributeName), VHI_SIGNATURE) in b
  {
    var b := CloneBlock(cd, a, l);
    forall i | 0 <= i < |b| ensures (b[i].FieldInsn? && b[i].op == PUTFIELD ==> b[i].desc == VHI_SIGNATURE) && (b[i].MethodInsn? ==> b[i].op != INVOKESPECIAL) {
      assert i == 8 || !(b[i].FieldInsn? && b[i].op == PUTFIELD);
    }
    assert b[8] == FieldInsn(PUTFIELD, cd.className, HolderField(a.attributeName), VHI_SIGNATURE);
  }

  /**
   * The holder clones resolve every jump and place labels 0 to |lazy|-1
   * once each; when value holders are woven, every lazy attribute's holder
   * field is written; nothing but holder fields is, and no `invokespecial`
   * call is made.
   */
  lemma PostCloneHoldersResolved(cd: ClassDetails)
    ensures var h := PostCloneHolders(cd);
      && LabelsResolved(h) && StoresOnly(h, VHI_SIGNATURE) && NoSpecialCall(h)
      && (cd.shouldWeaveValueHolders ==> forall a :: a in cd.attributes && a.weaveValueHolders ==>
            FieldInsn(PUTFIELD, cd.className, HolderField(a.attributeName), VHI_SIGNATURE) in h)
  {
    if cd.shouldWeaveValueHolders {
      CloneBlocksResolved(cd, Lazy(cd.attributes));
      CloneBlocksStore(cd, Lazy(cd.attributes));
    }
  }

  /** The clone blocks of `lazy`, laid out, resolve every jump. */
  lemma CloneBlocksResolved(cd: ClassDetails, lazy: seq<AttributeDetails>)
    ensures LabelsResolved(Flatten(CloneBlocks(cd, lazy)))
  {
    var bs := CloneBlocks(cd, lazy);
    forall k | 0 <= k < |bs| ensures LabelsResolved(bs[k]) && Marks(bs[k]) == {k} {
      CloneBlockResolved(cd, lazy[k], k);
    }
    FlattenResolved(bs);
  }

  /** The clone blocks of `lazy`, laid out, write every holder of `lazy`, only holders, and make no `invokespecial` call. */
  lemma CloneBlocksStore(cd: ClassDetails, lazy: seq<AttributeDetails>)
    ensures var h := Flatten(CloneBlocks(cd, lazy));
      && StoresOnly(h, VHI_SIGNATURE) && NoSpecialCall(h)
      && forall a :: a in lazy ==> FieldInsn(PUTFIELD, cd.className, HolderField(a.attributeName), VHI_SIGNATURE) in h
  {
    var bs := CloneBlocks(cd, lazy);
    forall k | 0 <= k < |bs|
      ensures StoresOnly(bs[k], VHI_SIGNATURE) && NoSpecialCall(bs[k])
      ensures FieldInsn(PUTFIELD, cd.className, HolderField(lazy[k].attributeName), VHI_SIGNATURE) in bs[k]
    {
      CloneBlockStores(cd, lazy[k], k);
    }
    FlattenMembers(bs);
    forall a | a in lazy ensures FieldInsn(PUTFIELD, cd.className, HolderField(a.attributeName), VHI_SIGNATURE) in Flatten(bs) {
      var k :| 0 <= k < |lazy| && lazy[k] == a;
      assert FieldInsn(PUTFIELD, cd.className, HolderField(a.attributeName), VHI_SIGNATURE) in bs[k];
    }
  }

  /** What follows the holder clones: the cleared references and `return this`. */
  function PostCloneTail(cd: ClassDetails): seq<Instr> {
    PostCloneClears(cd) + [VarInsn(ALOAD, 0), Insn(ARETURN)]
  }

  /** The start and the end of the post-clone hook do not branch, and the end makes no `invokespecial` call. */
  lemma PostCloneTailPlain(cd: ClassDetails)
    ensures Straight(SuperPostClone(cd))
    ensures Straight(PostCloneTail(cd)) && NoSpecialCall(PostCloneTail(cd))
  {
    var c := PostCloneTail(cd);
    forall i | 0 <= i < |c| ensures !c[i].JumpInsn? && !c[i].LabelMark? && !c[i].MethodInsn? {
      assert c[i].VarInsn? || c[i].Insn? || c[i].FieldInsn?;
    }
  }

  /** Every jump of the post-clone hook reaches a label placed once, later in the body. */
  lemma PostCloneResolved(cd: ClassDetails)
    ensures LabelsResolved(PostCloneCode(cd))
  {
    PostCloneHoldersResolved(cd);
    PostCloneTailPlain(cd);
    ResolvedBetween(SuperPostClone(cd), PostCloneHolders(cd), PostCloneTail(cd));
    assert SuperPostClone(cd) + PostCloneHolders(cd) + PostCloneTail(cd) == PostCloneCode(cd);
  }

  /**
   * The post-clone hook calls the superclass hook exactly when the
   * superclass weaves internal members, and then as its first call; it
   * returns `this`.
   */
  lemma PostCloneCallsSuperFirst(cd: ClassDetails)
    ensures var code, call := PostCloneCode(cd), MethodInsn(INVOKESPECIAL, cd.superClassName, POST_CLONE, OBJECT_RESULT_DESC, false);
      && (call in code <==> cd.SuperWeavesInternal())
      && (cd.SuperWeavesInternal() ==> code[..2] == [VarInsn(ALOAD, 0), call])
      && code[|code| - 2..] == [VarInsn(ALOAD, 0), Insn(ARETURN)]
  {
    var clones, tail := PostCloneHolders(cd), PostCloneTail(cd);
    assert PostCloneCode(cd) == SuperPostClone(cd) + (clones + tail);
    PostCloneHoldersResolved(cd);
    PostCloneTailPlain(cd);
  }

  /** The stores of the post-clone hook into fields other than value holders are the cleared references. */
  lemma PostCloneStores(cd: ClassDetails, f: string, d: string)
    requires d != VHI_SIGNATURE
    ensures FieldInsn(PUTFIELD, cd.className, f, d) in PostCloneCode(cd) <==> FieldInsn(PUTFIELD, cd.className, f, d) in PostCloneClears(cd)
  {
    var x := FieldInsn(PUTFIELD, cd.className, f, d);
    PostCloneHoldersResolved(cd);
    assert x !in SuperPostClone(cd);
    assert x !in PostCloneHolders(cd);
    assert PostCloneCode(cd) == SuperPostClone(cd) + PostCloneHolders(cd) + PostCloneClears(cd) + [VarInsn(ALOAD, 0), Insn(ARETURN)];
  }

  /** The post-clone hook clears the listener exactly under change tracking. */
  lemma PostCloneClearsListener(cd: ClassDetails)
    ensures FieldInsn(PUTFIELD, cd.className, LISTENER_FIELD, PCL_SIGNATURE) in PostCloneCode(cd) <==> cd.shouldWeaveChangeTracking
  {
    PostCloneStores(cd, LISTENER_FIELD, PCL_SIGNATURE);
    assert PCL_SIGNATURE != FETCHGROUP_SIGNATURE && PCL_SIGNATURE != SESSION_SIGNATURE && PCL_SIGNATURE != OBJECT_SIGNATURE;
  }

  /** The post-clone hook clears the fetch group exactly under fetch groups. */
  lemma PostCloneClearsFetchGroup(cd: ClassDetails)
    ensures FieldInsn(PUTFIELD, cd.className, FETCHGROUP_FIELD, FETCHGROUP_SIGNATURE) in PostCloneCode(cd) <==> cd.shouldWeaveFetchGroups
  {
    PostCloneStores(cd, FETCHGROUP_FIELD, FETCHGROUP_SIGNATURE);
    assert FETCHGROUP_SIGNATURE != PCL_SIGNATURE && FETCHGROUP_SIGNATURE != SESSION_SIGNATURE && FETCHGROUP_SIGNATURE != OBJECT_SIGNATURE;
  }

  /** The post-clone hook clears the session exactly under fetch groups. */
  lemma PostCloneClearsSession(cd: ClassDetails)
    ensures FieldInsn(PUTFIELD, cd.className, SESSION_FIELD, SESSION_SIGNATURE) in PostCloneCode(cd) <==> cd.shouldWeaveFetchGroups
  {
    PostCloneStores(cd, SESSION_FIELD, SESSION_SIGNATURE);
    assert SESSION_SIGNATURE != PCL_SIGNATURE && SESSION_SIGNATURE != FETCHGROUP_SIGNATURE && SESSION_SIGNATURE != OBJECT_SIGNATURE;
  }

  /** The post-clone hook clears the primary key exactly for a class that is not embeddable. */
  lemma PostCloneClearsPrimaryKey(cd: ClassDetails)
    ensures FieldInsn(PUTFIELD, cd.className, PRIMARY_KEY_FIELD, OBJECT_SIGNATURE) in PostCloneCode(cd) <==> !cd.isEmbedable
  {
    PostCloneStores(cd, PRIMARY_KEY_FIELD, OBJECT_SIGNATURE);
    assert OBJECT_SIGNATURE != PCL_SIGNATURE && OBJECT_SIGNATURE != SESSION_SIGNATURE && OBJECT_SIGNATURE != FETCHGROUP_SIGNATURE;
  }

  /** `addShallowClone`: `return super.clone();`. */
  function ShallowCloneMethod(): MethodDecl {
    MethodDecl(Public, "_persistence_shallow_clone", OBJECT_RESULT_DESC,
      [VarInsn(ALOAD, 0), MethodInsn(INVOKESPECIAL, JAVA_OBJECT, "clone", OBJECT_RESULT_DESC, false), Insn(ARETURN)])
  }

  // ---------------------------------------------------------------- factory

  /** `(PersistenceObject)V`: the factory constructor's descriptor. */
  const FACTORY_INIT_DESC := "(" + PERSISTENCE_OBJECT_SIGNATURE + ")V"

  /**
   * `addPersistenceNew`: `_persistence_new(factory)` returns a new instance,
   * through the factory constructor when the constructor optimisation can
   * be woven (and then that constructor is added too, chaining to the
   * superclass's factory constructor, or to `super()` at the root), through
   * the default constructor otherwise.
   */
  function PersistenceNewMethods(cd: ClassDetails): (ms: seq<MethodDecl>)
    ensures |ms| == if cd.canWeaveConstructorOptimization then 2 else 1
    ensures ms[0].name == "_persistence_new" && ms[0].desc == "(" + PERSISTENCE_OBJECT_SIGNATURE + ")" + OBJECT_SIGNATURE
    // `return new ClassType(...)`: an instance of the class itself is created and returned
    ensures var c := ms[0].code;
      && |c| >= 4 && c[0] == TypeInsn(NEW, cd.className) && c[1] == Insn(DUP) && c[|c| - 1] == Insn(ARETURN)
      && c[|c| - 2] == MethodInsn(INVOKESPECIAL, cd.className, INIT,
                                  if cd.canWeaveConstructorOptimization then FACTORY_INIT_DESC else VOID_DESC, false)
    // the factory is passed on, to the factory constructor, exactly under the optimisation
    ensures VarInsn(ALOAD, 1) in ms[0].code <==> cd.canWeaveConstructorOptimization
    ensures MethodInsn(INVOKESPECIAL, cd.className, INIT, FACTORY_INIT_DESC, false) in ms[0].code <==> cd.canWeaveConstructorOptimization
    ensures MethodInsn(INVOKESPECIAL, cd.className, INIT, VOID_DESC, false) in ms[0].code <==> !cd.canWeaveConstructorOptimization
    // the factory constructor initialises `this` through a superclass constructor and returns
    ensures cd.canWeaveConstructorOptimization ==>
      (var c := ms[1].code;
       && |c| >= 3 && c[0] == VarInsn(ALOAD, 0) && c[|c| - 1] == Insn(RETURN)
       && (MethodInsn(INVOKESPECIAL, cd.superClassName, INIT, VOID_DESC, false) in c <==> cd.IsRoot()))
    ensures cd.canWeaveConstructorOptimization ==> ms[1].name == INIT && ms[1].desc == FACTORY_INIT_DESC
    ensures cd.canWeaveConstructorOptimization ==>
      (MethodInsn(INVOKESPECIAL, cd.superClassName, INIT, FACTORY_INIT_DESC, false) in ms[1].code <==> !cd.IsRoot())
  {
    var desc := "(" + PERSISTENCE_OBJECT_SIGNATURE + ")" + OBJECT_SIGNATURE;
    if !cd.canWeaveConstructorOptimization then
      [MethodDecl(Public, "_persistence_new", desc,
        [TypeInsn(NEW, cd.className), Insn(DUP), MethodInsn(INVOKESPECIAL, cd.className, INIT, VOID_DESC, false), Insn(ARETURN)])]
    else
      var newMethod := MethodDecl(Public, "_persistence_new", desc,
        [TypeInsn(NEW, cd.className), Insn(DUP), VarInsn(ALOAD, 1),
         MethodInsn(INVOKESPECIAL, cd.className, INIT, FACTORY_INIT_DESC, false), Insn(ARETURN)]);
      var superCall :=
        if cd.IsRoot() then [MethodInsn(INVOKESPECIAL, cd.superClassName, INIT, VOID_DESC, false)]
        else [VarInsn(ALOAD, 1), MethodInsn(INVOKESPECIAL, cd.superClassName, INIT, FACTORY_INIT_DESC, false)];
      assert FACTORY_INIT_DESC != VOID_DESC;
      [newMethod, MethodDecl(Public, INIT, FACTORY_INIT_DESC, [VarInsn(ALOAD, 0)] + superCall + [Insn(RETURN)])]
  }

  // ---------------------------------------------------------------- generic get/set

  /** `if (attribute == "<name>")`, comparing the interned name by identity; a miss jumps to `l`. */
  function TestGuard(a: AttributeDetails, l: Label): seq<Instr> {
    [VarInsn(ALOAD, 1), Ldc(a.attributeName), JumpInsn(IF_ACMPNE, l)]
  }

  /** `return this.<name>;`, boxed through the wrapper's `valueOf` for a primitive. */
  function GetValue(cd: ClassDetails, a: AttributeDetails): seq<Instr> {
    var desc := a.referenceClassType.descriptor;
    [VarInsn(ALOAD, 0), FieldInsn(GETFIELD, cd.className, a.attributeName, desc)]
    + (match WrapperFor(a.referenceClassType.sort)
       case Some(w) => [MethodInsn(INVOKESTATIC, w, "valueOf", "(" + desc + ")" + ObjectDescriptor(w), false)]
       case None => [])
    + [Insn(ARETURN)]
  }

  /** `this.<name> = (<Type>) value; return;`, casting to the wrapper and unwrapping for a primitive. */
  function SetValue(cd: ClassDetails, a: AttributeDetails): seq<Instr> {
    var sort := a.referenceClassType.sort;
    [VarInsn(ALOAD, 0), VarInsn(ALOAD, 2), TypeInsn(CHECKCAST, WrapperFor(sort).GetOr(RefInternal(a)))]
    + (match UnwrapMethod(sort)
       case Some((m, d)) => [MethodInsn(INVOKEVIRTUAL, WrapperFor(sort).GetOr(RefInternal(a)), m, d, false)]
       case None => [])
    + [FieldInsn(PUTFIELD, cd.className, a.attributeName, a.referenceClassType.descriptor), Insn(RETURN)]
  }

  /** One test of a dispatcher, followed by its miss label `l`. */
  function Test(cd: ClassDetails, a: AttributeDetails, l: Label, setter: bool): seq<Instr> {
    TestGuard(a, l) + (if setter then SetValue(cd, a) else GetValue(cd, a)) + [LabelMark(l)]
  }

  /** The tests of a dispatcher over `attrs`, the k-th with miss label k. */
  function Tests(cd: ClassDetails, attrs: seq<AttributeDetails>, setter: bool): (bs: seq<seq<Instr>>)
    ensures |bs| == |attrs|
    ensures forall k :: 0 <= k < |attrs| ==> bs[k] == Test(cd, attrs[k], k, setter)
  {
    seq(|attrs|, k requires 0 <= k < |attrs| => Test(cd, attrs[k], k, setter))
  }

  /** One more dispatched attribute appends its test, with the next miss label. */
  lemma TestsSnoc(cd: ClassDetails, attrs: seq<AttributeDetails>, a: AttributeDetails, setter: bool)
    ensures Tests(cd, attrs + [a], setter) == Tests(cd, attrs, setter) + [Test(cd, a, |attrs|, setter)]
  {
  }

  /** The tests of the dispatched attributes of a prefix one longer. */
  lemma TestsPrefix(cd: ClassDetails, attrs: seq<AttributeDetails>, i: nat, setter: bool)
    requires i < |attrs|
    ensures var d := Dispatched(attrs[..i]);
      attrs[i].IsDispatched() ==>
        Tests(cd, Dispatched(attrs[..i + 1]), setter) == Tests(cd, d, setter) + [Test(cd, attrs[i], |d|, setter)]
    ensures attrs[i].IsDispatched() ==> |Dispatched(attrs[..i + 1])| == |Dispatched(attrs[..i])| + 1
    ensures !attrs[i].IsDispatched() ==> Dispatched(attrs[..i + 1]) == Dispatched(attrs[..i])
  {
    DispatchedPrefix(attrs, i);
    if attrs[i].IsDispatched() {
      TestsSnoc(cd, Dispatched(attrs[..i]), attrs[i], setter);
    } else {
      assert Dispatched(attrs[..i + 1]) == Dispatched(attrs[..i]) + [];
    }
  }

  /** What `_persistence_get` does when no attribute matched: ask the superclass, or return null. */
  function GetFallThrough(cd: ClassDetails): seq<Instr> {
    (if cd.IsRoot() then [Insn(ACONST_NULL)]
     else [VarInsn(ALOAD, 0), VarInsn(ALOAD, 1), MethodInsn(INVOKESPECIAL, cd.superClassName, GENERIC_GET, GENERIC_GET_DESC, false)])
    + [Insn(ARETURN)]
  }

  /** What `_persistence_set` does when no attribute matched: pass to the superclass, or return. */
  function SetFallThrough(cd: ClassDetails): seq<Instr> {
    (if cd.IsRoot() then []
     else [VarInsn(ALOAD, 0), VarInsn(ALOAD, 1), VarInsn(ALOAD, 2),
           MethodInsn(INVOKESPECIAL, cd.superClassName, GENERIC_SET, GENERIC_SET_DESC, false)])
    + [Insn(RETURN)]
  }

  /** The body of `_persistence_get(String)` (`setter` false) or `_persistence_set(String, Object)` (`setter` true). */
  function DispatcherCode(cd: ClassDetails, setter: bool): seq<Instr> {
    Flatten(Tests(cd, Dispatched(cd.attributes), setter)) + FallThrough(cd, setter)
  }

  /** `addPersistenceGetSet`. */
  function GenericAccessMethods(cd: ClassDetails): seq<MethodDecl> {
    [MethodDecl(Public, GENERIC_GET, GENERIC_GET_DESC, DispatcherCode(cd, false)),
     MethodDecl(Public, GENERIC_SET, GENERIC_SET_DESC, DispatcherCode(cd, true))]
  }

  /** The value part of a test neither branches, nor loads a constant, nor calls `invokespecial`. */
  lemma TestValuePlain(cd: ClassDetails, a: AttributeDetails, setter: bool)
    ensures var v := if setter then SetValue(cd, a) else GetValue(cd, a);
      Straight(v) && NoSpecialCall(v) && forall x :: x in v ==> !x.Ldc?
  {
    var v := if setter then SetValue(cd, a) else GetValue(cd, a);
    forall i | 0 <= i < |v| ensures !v[i].JumpInsn? && !v[i].LabelMark? && !v[i].Ldc? && (v[i].MethodInsn? ==> v[i].op != INVOKESPECIAL) {
      assert v[i].VarInsn? || v[i].FieldInsn? || v[i].MethodInsn? || v[i].TypeInsn? || v[i].Insn?;
    }
  }

  /**
   * A name test followed by any straight value part that loads no constant
   * and makes no `invokespecial` call, and then the miss label.
   */
  lemma GuardedValue(name: string, v: seq<Instr>, l: Label)
    requires Straight(v) && NoSpecialCall(v) && forall x :: x in v ==> !x.Ldc?
    ensures var t := [VarInsn(ALOAD, 1), Ldc(name), JumpInsn(IF_ACMPNE, l)] + v + [LabelMark(l)];
      && LabelsResolved(t) && Marks(t) == {l} && NoSpecialCall(t)
      && forall n :: Ldc(n) in t <==> n == name
  {
    var g := [VarInsn(ALOAD, 1), Ldc(name), JumpInsn(IF_ACMPNE, l)];
    GuardedResolved(g, v, l);
    var t := g + v + [LabelMark(l)];
    forall n | Ldc(n) in t ensures n == name {
      assert Ldc(n) in g || Ldc(n) in v || Ldc(n) in [LabelMark(l)];
      assert Ldc(n) !in v;
    }
    assert t[1] == Ldc(name);
  }

  /** A single test resolves its one jump at its own miss label and compares against exactly its attribute's name. */
  lemma TestResolved(cd: ClassDetails, a: AttributeDetails, l: Label, setter: bool)
    ensures var t := Test(cd, a, l, setter);
      && LabelsResolved(t) && Marks(t) == {l} && NoSpecialCall(t)
      && forall n :: Ldc(n) in t <==> n == a.attributeName
  {
    var v := if setter then SetValue(cd, a) else GetValue(cd, a);
    TestValuePlain(cd, a, setter);
    GuardedValue(a.attributeName, v, l);
  }

  /** Blocks none of which makes an `invokespecial` call lay out into a body that makes none. */
  lemma FlattenNoSpecialCall(bs: seq<seq<Instr>>)
    requires forall k :: 0 <= k < |bs| ==> NoSpecialCall(bs[k])
    ensures NoSpecialCall(Flatten(bs))
  {
    FlattenMembers(bs);
  }

  /** Blocks the k-th of which loads exactly the constant `names[k]` lay out into a body that loads exactly `names`. */
  lemma FlattenConstants(bs: seq<seq<Instr>>, names: seq<string>)
    requires |bs| == |names|
    requires forall k, n :: 0 <= k < |bs| ==> (Ldc(n) in bs[k] <==> n == names[k])
    ensures forall n :: Ldc(n) in Flatten(bs) <==> n in names
  {
    FlattenMembers(bs);
    forall n ensures Ldc(n) in Flatten(bs) <==> n in names {
      if Ldc(n) in Flatten(bs) {
        var k :| 0 <= k < |bs| && Ldc(n) in bs[k];
        assert names[k] == n;
      }
      if n in names {
        var k :| 0 <= k < |names| && names[k] == n;
        assert Ldc(n) in bs[k];
      }
    }
  }

  /**
   * The tests of a dispatcher resolve every jump, place labels 0 to
   * |attrs|-1 once each (each miss label just before the next test), never
   * call `invokespecial`, and compare against exactly the names of `attrs`.
   */
  lemma TestsResolved(cd: ClassDetails, attrs: seq<AttributeDetails>, setter: bool)
    ensures var code := Flatten(Tests(cd, attrs, setter));
      && LabelsResolved(code) && Marks(code) == Below(|attrs|) && NoSpecialCall(code)
      && forall n :: Ldc(n) in code <==> n in Names(attrs)
  {
    var bs := Tests(cd, attrs, setter);
    var names := Names(attrs);
    forall k | 0 <= k < |bs|
      ensures LabelsResolved(bs[k]) && Marks(bs[k]) == {k} && NoSpecialCall(bs[k])
      ensures forall n :: Ldc(n) in bs[k] <==> n == names[k]
    {
      TestResolved(cd, attrs[k], k, setter);
    }
    FlattenResolved(bs);
    FlattenNoSpecialCall(bs);
    FlattenConstants(bs, names);
  }

  /** What a dispatcher does when no attribute matched. */
  function FallThrough(cd: ClassDetails, setter: bool): seq<Instr> {
    if setter then SetFallThrough(cd) else GetFallThrough(cd)
  }

  /** The fall-through of a dispatcher neither branches nor loads a constant. */
  lemma FallThroughPlain(cd: ClassDetails, setter: bool)
    ensures Straight(FallThrough(cd, setter)) && forall x :: x in FallThrough(cd, setter) ==> !x.Ldc?
  {
    var f := FallThrough(cd, setter);
    forall i | 0 <= i < |f| ensures !f[i].JumpInsn? && !f[i].LabelMark? && !f[i].Ldc? {
      assert f[i].VarInsn? || f[i].MethodInsn? || f[i].Insn?;
    }
  }

  /** Every jump of the dispatchers reaches a label placed once, later in the body. */
  lemma GenericAccessResolved(cd: ClassDetails, setter: bool)
    ensures LabelsResolved(DispatcherCode(cd, setter))
  {
    var tests := Flatten(Tests(cd, Dispatched(cd.attributes), setter));
    TestsResolved(cd, Dispatched(cd.attributes), setter);
    FallThroughPlain(cd, setter);
    StraightResolved(FallThrough(cd, setter));
    ResolvedConcat(tests, FallThrough(cd, setter));
  }

  /**
   * `_persistence_get` and `_persistence_set` test
   * exactly the attributes declared in this class that are not virtual, and
   * a class with a woven superclass passes unmatched names on to the
   * superclass's dispatcher.
   */
  lemma GenericAccessDispatch(cd: ClassDetails, setter: bool)
    ensures var code := DispatcherCode(cd, setter);
      && (forall n :: Ldc(n) in code <==> n in Names(Dispatched(cd.attributes)))
      && (var super := if setter then MethodInsn(INVOKESPECIAL, cd.superClassName, GENERIC_SET, GENERIC_SET_DESC, false)
                       else MethodInsn(INVOKESPECIAL, cd.superClassName, GENERIC_GET, GENERIC_GET_DESC, false);
          super in code <==> !cd.IsRoot())
  {
    var d := Dispatched(cd.attributes);
    var tests := Flatten(Tests(cd, d, setter));
    assert DispatcherCode(cd, setter) == tests + FallThrough(cd, setter);
    TestsResolved(cd, d, setter);
    FallThroughPlain(cd, setter);
  }

  /**
   * A primitive attribute's set test casts the value to the primitive's
   * wrapper and unwraps it with the matching `xxxValue()` before the store;
   * any other attribute is cast to its own class.
   */
  lemma SetTestUnwraps(cd: ClassDetails, a: AttributeDetails, l: Label)
    ensures var sort := a.referenceClassType.sort;
      var t := Test(cd, a, l, true);
      && (IsPrimitive(sort) ==>
            && t[5] == TypeInsn(CHECKCAST, WrapperFor(sort).value)
            && var unwrap: (string, string) := UnwrapMethod(sort).value;
            t[6] == MethodInsn(INVOKEVIRTUAL, WrapperFor(sort).value, unwrap.0, unwrap.1, false))
      && (!IsPrimitive(sort) ==> t[5] == TypeInsn(CHECKCAST, RefInternal(a)) && t[6].FieldInsn?)
  {
  }

  // ---------------------------------------------------------------- PersistenceEntity

  /** `addPersistenceEntityVariables`: the transient primary key and cache key. */
  function EntityFields(): seq<FieldDecl> {
    [FieldDecl(ProtectedTransient, PRIMARY_KEY_FIELD, OBJECT_SIGNATURE, []),
     FieldDecl(ProtectedTransient, CACHE_KEY_FIELD, CACHEKEY_SIGNATURE, [])]
  }

  /** `addPersistenceEntityMethods`: the id and cache-key accessors. */
  function EntityMethods(cd: ClassDetails): seq<MethodDecl> {
    [FieldReader(cd.className, "_persistence_getId", PRIMARY_KEY_FIELD, OBJECT_SIGNATURE, ARETURN),
     FieldWriter(cd.className, "_persistence_setId", PRIMARY_KEY_FIELD, OBJECT_SIGNATURE, ALOAD),
     FieldReader(cd.className, "_persistence_getCacheKey", CACHE_KEY_FIELD, CACHEKEY_SIGNATURE, ARETURN),
     FieldWriter(cd.className, "_persistence_setCacheKey", CACHE_KEY_FIELD, CACHEKEY_SIGNATURE, ALOAD)]
  }

  // ---------------------------------------------------------------- FetchGroupTracker

  /**
   * `addFetchGroupVariables`: the fetch group (marked transient only under
   * attribute access, and for JAXB when JAXB is present), the refresh flag
   * and the session.
   */
  function FetchGroupFields(cd: ClassDetails, jaxbOnPath: bool): (fs: seq<FieldDecl>)
    ensures |fs| == 3 && fs[0].name == FETCHGROUP_FIELD && fs[1].name == REFRESH_FIELD && fs[2].name == SESSION_FIELD
    ensures JPA_TRANSIENT in fs[0].annotations <==> cd.usesAttributeAccess
    ensures XML_TRANSIENT in fs[0].annotations <==> jaxbOnPath
  {
    [FieldDecl(Protected, FETCHGROUP_FIELD, FETCHGROUP_SIGNATURE,
       (if cd.usesAttributeAccess then [JPA_TRANSIENT] else []) + (if jaxbOnPath then [XML_TRANSIENT] else [])),
     FieldDecl(ProtectedTransient, REFRESH_FIELD, PBOOLEAN_SIGNATURE, []),
     FieldDecl(ProtectedTransient, SESSION_FIELD, SESSION_SIGNATURE, [])]
  }

  /** The tests of `_persistence_isAttributeFetched`: null group to label 0 (true), a miss to label 1 (false). */
  function IsFetchedTests(cd: ClassDetails): seq<Instr> {
    [VarInsn(ALOAD, 0), FieldInsn(GETFIELD, cd.className, FETCHGROUP_FIELD, FETCHGROUP_SIGNATURE), JumpInsn(IFNULL, 0),
     VarInsn(ALOAD, 0), FieldInsn(GETFIELD, cd.className, FETCHGROUP_FIELD, FETCHGROUP_SIGNATURE), VarInsn(ALOAD, 1),
     MethodInsn(INVOKEVIRTUAL, FETCHGROUP, "containsAttributeInternal", STRING_TEST_DESC, false), JumpInsn(IFEQ, 1)]
  }

  /**
   * The body of `_persistence_isAttributeFetched(String)`:
   * `return fetchGroup == null || fetchGroup.containsAttributeInternal(a);`
   * with label 2 joining the two results.
   */
  function IsFetchedCode(cd: ClassDetails): seq<Instr> {
    IsFetchedTests(cd) + [LabelMark(0)] + IsFetchedResults()
  }

  /** `true` at label 0, `false` at label 1, joined at label 2. */
  function IsFetchedResults(): seq<Instr> {
    [Insn(ICONST_1), JumpInsn(GOTO, 2)] + [LabelMark(1)] + ([Insn(ICONST_0)] + [LabelMark(2)] + [Insn(IRETURN)])
  }

  /** The two results of `_persistence_isAttributeFetched` resolve labels 1 and 2 between them. */
  lemma IsFetchedResultsResolved()
    ensures LabelsResolved(IsFetchedResults()) && Marks(IsFetchedResults()) == {1, 2}
  {
    var last := [Insn(IRETURN)];
    StraightResolved(last);
    MarkResolved([Insn(ICONST_0)], 2, last);
    MarkResolved([Insn(ICONST_1), JumpInsn(GOTO, 2)], 1, [Insn(ICONST_0)] + [LabelMark(2)] + last);
  }

  /**
   * The body of `_persistence_checkFetched[ForSet](String)`: when the
   * attribute is not fetched, hand the tracker and the name to
   * `EntityManagerImpl.<process>`.
   */
  function CheckFetchedCode(cd: ClassDetails, process: string): seq<Instr> {
    CheckFetchedTest(cd, process) + [LabelMark(0)] + [Insn(RETURN)]
  }

  /** The test and the hook call of a fetch check, skipping to label 0 when the attribute is fetched. */
  function CheckFetchedTest(cd: ClassDetails, process: string): seq<Instr> {
    [VarInsn(ALOAD, 0), VarInsn(ALOAD, 1), MethodInsn(INVOKEVIRTUAL, cd.className, IS_ATTRIBUTE_FETCHED, STRING_TEST_DESC, false),
     JumpInsn(IFNE, 0), VarInsn(ALOAD, 0), TypeInsn(CHECKCAST, FETCHGROUP_TRACKER), VarInsn(ALOAD, 1),
     MethodInsn(INVOKESTATIC, ENTITY_MANAGER_IMPL, process, UNFETCHED_DESC, false)]
  }

  /** `addFetchGroupMethods`: the FetchGroupTracker implementation. */
  function FetchGroupMethods(cd: ClassDetails): seq<MethodDecl> {
    var c := cd.className;
    [FieldReader(c, "_persistence_getSession", SESSION_FIELD, SESSION_SIGNATURE, ARETURN),
     FieldWriter(c, "_persistence_setSession", SESSION_FIELD, SESSION_SIGNATURE, ALOAD),
     FieldReader(c, "_persistence_getFetchGroup", FETCHGROUP_FIELD, FETCHGROUP_SIGNATURE, ARETURN),
     FieldWriter(c, "_persistence_setFetchGroup", FETCHGROUP_FIELD, FETCHGROUP_SIGNATURE, ALOAD),
     FieldReader(c, "_persistence_shouldRefreshFetchGroup", REFRESH_FIELD, PBOOLEAN_SIGNATURE, IRETURN),
     FieldWriter(c, "_persistence_setShouldRefreshFetchGroup", REFRESH_FIELD, PBOOLEAN_SIGNATURE, ILOAD),
     MethodDecl(Public, "_persistence_resetFetchGroup", VOID_DESC, [Insn(RETURN)]),
     MethodDecl(Public, IS_ATTRIBUTE_FETCHED, STRING_TEST_DESC, IsFetchedCode(cd)),
     MethodDecl(Public, CHECK_FETCHED, STRING_ARG_DESC, CheckFetchedCode(cd, "processUnfetchedAttribute")),
     MethodDecl(Public, CHECK_FETCHED_FOR_SET, STRING_ARG_DESC, CheckFetchedCode(cd, "processUnfetchedAttributeForSet"))]
  }

  /**
   * `_persistence_isAttributeFetched` resolves its three labels and answers
   * true (ICONST_1) on the null fetch-group path, false (ICONST_0) on the
   * miss path.
   */
  lemma IsAttributeFetchedAnswers(cd: ClassDetails)
    ensures var f := IsFetchedCode(cd);
      && LabelsResolved(f) && Marks(f) == {0, 1, 2}
      && f[2] == JumpInsn(IFNULL, 0) && f[7] == JumpInsn(IFEQ, 1)
      && f[8] == LabelMark(0) && f[9] == Insn(ICONST_1) && f[11] == LabelMark(1) && f[12] == Insn(ICONST_0)
  {
    IsFetchedResultsResolved();
    MarkResolved(IsFetchedTests(cd), 0, IsFetchedResults());
  }

  /** Both fetch checks resolve their label and call their processing hook only past the fetched test. */
  lemma CheckFetchedGuarded(cd: ClassDetails, process: string)
    ensures var c := CheckFetchedCode(cd, process);
      && LabelsResolved(c) && Marks(c) == {0}
      && Before(c, JumpInsn(IFNE, 0), MethodInsn(INVOKESTATIC, ENTITY_MANAGER_IMPL, process, UNFETCHED_DESC, false))
  {
    var c := CheckFetchedCode(cd, process);
    StraightResolved([Insn(RETURN)]);
    MarkResolved(CheckFetchedTest(cd, process), 0, [Insn(RETURN)]);
    assert c[3] == JumpInsn(IFNE, 0) && c[7] == MethodInsn(INVOKESTATIC, ENTITY_MANAGER_IMPL, process, UNFETCHED_DESC, false);
  }

  // ---------------------------------------------------------------- REST

  /** `addPersistenceRestVariables`. */
  function RestFields(): seq<FieldDecl> {
    [FieldDecl(ProtectedTransient, RELATIONSHIPS_FIELD, LIST_SIGNATURE, []),
     FieldDecl(ProtectedTransient, HREF_FIELD, LINK_SIGNATURE, []),
     FieldDecl(ProtectedTransient, LINKS_FIELD, ITEM_LINKS_SIGNATURE, [])]
  }

  /** `addPersistenceRestMethods`. */
  function RestMethods(cd: ClassDetails): seq<MethodDecl> {
    var c := cd.className;
    [FieldReader(c, "_persistence_getRelationships", RELATIONSHIPS_FIELD, LIST_SIGNATURE, ARETURN),
     FieldWriter(c, "_persistence_setRelationships", RELATIONSHIPS_FIELD, LIST_SIGNATURE, ALOAD),
     FieldReader(c, "_persistence_getHref", HREF_FIELD, LINK_SIGNATURE, ARETURN),
     FieldWriter(c, "_persistence_setHref", HREF_FIELD, LINK_SIGNATURE, ALOAD),
     FieldReader(c, "_persistence_getLinks", LINKS_FIELD, ITEM_LINKS_SIGNATURE, ARETURN),
     FieldWriter(c, "_persistence_setLinks", LINKS_FIELD, ITEM_LINKS_SIGNATURE, ALOAD)]
  }
}
