/**
 * The members the class weaver synthesises for one attribute: the value
 * holder field, its lazy initialiser, the holder accessors and the
 * field-access accessors that replace GETFIELD/PUTFIELD in woven code.
 * Each body is the instruction sequence `ClassWeaver` visits, one element
 * per visitor call, written as the blocks the Java method emits in turn.
 */
module WeavingCode {
  import opened JavaLang
  import opened Asm
  import opened WeavingNames
  import opened WeavingDetails

  /** The attribute's class as an internal name. */
  function RefInternal(a: AttributeDetails): string {
    InternalName(a.referenceClassName)
  }

  /** `"()L" + ref + ";"`: a no-argument method returning the attribute's class. */
  function RefGetterDesc(a: AttributeDetails): string {
    "()" + ObjectDescriptor(RefInternal(a))
  }

  /** `"(L" + ref + ";)V"`: a one-argument void method taking the attribute's class. */
  function RefSetterDesc(a: AttributeDetails): string {
    "(" + ObjectDescriptor(RefInternal(a)) + ")V"
  }

  /** `this.<holder>` as two instructions. */
  function LoadHolder(cd: ClassDetails, a: AttributeDetails): seq<Instr> {
    [VarInsn(ALOAD, 0), FieldInsn(GETFIELD, cd.className, HolderField(a.attributeName), VHI_SIGNATURE)]
  }

  /** A call on the woven value-holder interface. */
  function HolderCall(name: string, desc: string): Instr {
    MethodInsn(INVOKEINTERFACE, VHI, name, desc, true)
  }

  /**
   * Whether the holder field is marked transient: only for property access
   * (no getter, or an empty one) or when transient holders are requested,
   * so that the annotation cannot switch the class to field access.
   */
  predicate HolderIsTransient(a: AttributeDetails) {
    a.getterMethodName.None? || a.getterMethodName == Some("") || a.weaveTransientFieldValueHolders
  }

  /** `addValueHolder`: the protected `_persistence_<attr>_vh` field. */
  function ValueHolderField(a: AttributeDetails, jaxbOnPath: bool): (f: FieldDecl)
    ensures f.name == HolderField(a.attributeName) && f.desc == VHI_SIGNATURE && f.access == Protected
    ensures JPA_TRANSIENT in f.annotations <==> HolderIsTransient(a)
    ensures XML_TRANSIENT in f.annotations <==> HolderIsTransient(a) && jaxbOnPath
  {
    FieldDecl(Protected, HolderField(a.attributeName), VHI_SIGNATURE,
      if HolderIsTransient(a) then [JPA_TRANSIENT] + (if jaxbOnPath then [XML_TRANSIENT] else []) else [])
  }

  /** `new ValueHolder(this.<attr>)` when the attribute has a field, `new ValueHolder()` otherwise. */
  function HolderConstruction(cd: ClassDetails, a: AttributeDetails): seq<Instr> {
    [VarInsn(ALOAD, 0), TypeInsn(NEW, VH), Insn(DUP)]
    + if a.hasField then
        [VarInsn(ALOAD, 0), FieldInsn(GETFIELD, cd.className, a.attributeName, a.referenceClassType.descriptor),
         MethodInsn(INVOKESPECIAL, VH, INIT, OBJECT_ARG_DESC, false)]
      else [MethodInsn(INVOKESPECIAL, VH, INIT, VOID_DESC, false)]
  }

  /** Store the new holder and mark it newly woven. */
  function HolderInstall(cd: ClassDetails, a: AttributeDetails): seq<Instr> {
    [FieldInsn(PUTFIELD, cd.className, HolderField(a.attributeName), VHI_SIGNATURE)]
    + LoadHolder(cd, a) + [Insn(ICONST_1), HolderCall("setIsNewlyWeavedValueHolder", "(Z)V")]
  }

  /**
   * The guarded part of `_persistence_initialize_<attr>_vh`: when the
   * holder is null, create a `ValueHolder`, store it, and mark it newly woven.
   */
  function InitializerGuarded(cd: ClassDetails, a: AttributeDetails): seq<Instr> {
    (LoadHolder(cd, a) + [JumpInsn(IFNONNULL, 0)]) + HolderConstruction(cd, a) + HolderInstall(cd, a)
  }

  /** The body of `_persistence_initialize_<attr>_vh`; label 0 skips to the return. */
  function InitializerCode(cd: ClassDetails, a: AttributeDetails): seq<Instr> {
    InitializerGuarded(cd, a) + [LabelMark(0)] + [Insn(RETURN)]
  }

  /** The initialiser's only jump skips the creation when the holder exists. */
  lemma InitializerResolved(cd: ClassDetails, a: AttributeDetails)
    ensures LabelsResolved(InitializerCode(cd, a)) && Marks(InitializerCode(cd, a)) == {0}
  {
    StraightResolved([Insn(RETURN)]);
    MarkResolved(InitializerGuarded(cd, a), 0, [Insn(RETURN)]);
  }

  /**
   * The new holder is seeded with the field's current value exactly when the
   * attribute has a field; otherwise it is created empty.
   */
  lemma InitializerSeedsHolder(cd: ClassDetails, a: AttributeDetails)
    ensures MethodInsn(INVOKESPECIAL, VH, INIT, OBJECT_ARG_DESC, false) in InitializerCode(cd, a) <==> a.hasField
    ensures MethodInsn(INVOKESPECIAL, VH, INIT, VOID_DESC, false) in InitializerCode(cd, a) <==> !a.hasField
  {
    var outside := LoadHolder(cd, a) + [JumpInsn(IFNONNULL, 0)] + HolderInstall(cd, a) + [LabelMark(0), Insn(RETURN)];
    assert MethodInsn(INVOKESPECIAL, VH, INIT, OBJECT_ARG_DESC, false) !in outside;
    assert MethodInsn(INVOKESPECIAL, VH, INIT, VOID_DESC, false) !in outside;
    assert forall x :: x in InitializerCode(cd, a) <==> x in outside || x in HolderConstruction(cd, a);
  }

  /** `addInitializerForValueHolder`. */
  function InitializerMethod(cd: ClassDetails, a: AttributeDetails): MethodDecl {
    MethodDecl(Protected, InitializerName(a.attributeName), VOID_DESC, InitializerCode(cd, a))
  }

  /** `getFoo()` through the property getter, or `_persistence_get_foo()` without one. */
  function PropertyGet(cd: ClassDetails, a: AttributeDetails): Instr {
    MethodInsn(INVOKEVIRTUAL, cd.className, a.getterMethodName.GetOr(FieldGetterName(a.attributeName)), RefGetterDesc(a), false)
  }

  /** `setFoo(x)` through the property setter, or `_persistence_set_foo(x)` without one. */
  function PropertySet(cd: ClassDetails, a: AttributeDetails): Instr {
    MethodInsn(INVOKEVIRTUAL, cd.className, a.setterMethodName.GetOr(FieldSetterName(a.attributeName)), RefSetterDesc(a), false)
  }

  /**
   * The tests of `_persistence_get_<attr>_vh` after the holder is
   * initialised: a holder coordinated with the property jumps to label 0 (synchronise),
   * one that is not newly woven jumps to label 1 (return).
   */
  function HolderGetterTests(cd: ClassDetails, a: AttributeDetails): seq<Instr> {
    [VarInsn(ALOAD, 0), MethodInsn(INVOKEVIRTUAL, cd.className, InitializerName(a.attributeName), VOID_DESC, false)]
    + LoadHolder(cd, a) + [HolderCall("isCoordinatedWithProperty", BOOL_DESC), JumpInsn(IFNE, 0)]
    + LoadHolder(cd, a) + [HolderCall("isNewlyWeavedValueHolder", BOOL_DESC), JumpInsn(IFEQ, 1)]
  }

  /**
   * Read the property and, when it differs from the holder's value, pass it
   * to the property setter; label 1 skips the setter.
   */
  function HolderGetterSync(cd: ClassDetails, a: AttributeDetails): seq<Instr> {
    [VarInsn(ALOAD, 0)]
    + (if a.getterMethodName.Some? then [PropertyGet(cd, a), TypeInsn(CHECKCAST, RefInternal(a))] else [PropertyGet(cd, a)])
    + [VarInsn(ASTORE, 1), VarInsn(ALOAD, 1)]
    + LoadHolder(cd, a) + [HolderCall("getValue", OBJECT_RESULT_DESC), JumpInsn(IF_ACMPEQ, 1)]
    + [VarInsn(ALOAD, 0), VarInsn(ALOAD, 1), PropertySet(cd, a)]
  }

  /**
   * The body of `_persistence_get_<attr>_vh`: initialise the holder; when it
   * is coordinated with the property or newly woven, synchronise it with
   * the property; return the holder.
   */
  function HolderGetterCode(cd: ClassDetails, a: AttributeDetails): seq<Instr> {
    HolderGetterTests(cd, a) + [LabelMark(0)]
    + (HolderGetterSync(cd, a) + [LabelMark(1)] + (LoadHolder(cd, a) + [Insn(ARETURN)]))
  }

  /** `addGetterMethodForValueHolder`. */
  function HolderGetterMethod(cd: ClassDetails, a: AttributeDetails): MethodDecl {
    MethodDecl(Public, HolderGetterName(a.attributeName), "()" + VHI_SIGNATURE, HolderGetterCode(cd, a))
  }

  /** Both jumps of the holder getter go forward to labels it places once. */
  lemma HolderGetterResolved(cd: ClassDetails, a: AttributeDetails)
    ensures LabelsResolved(HolderGetterCode(cd, a)) && Marks(HolderGetterCode(cd, a)) == {0, 1}
  {
    var ret := LoadHolder(cd, a) + [Insn(ARETURN)];
    StraightResolved(ret);
    MarkResolved(HolderGetterSync(cd, a), 1, ret);
    MarkResolved(HolderGetterTests(cd, a), 0, HolderGetterSync(cd, a) + [LabelMark(1)] + ret);
  }

  /**
   * The holder getter runs the initialiser before anything else and ends by
   * returning the holder field.
   */
  lemma HolderGetterInitialisesAndReturnsHolder(cd: ClassDetails, a: AttributeDetails)
    ensures var code := HolderGetterCode(cd, a);
      && |code| > 3
      && code[1] == MethodInsn(INVOKEVIRTUAL, cd.className, InitializerName(a.attributeName), VOID_DESC, false)
      && code[|code| - 3..] == LoadHolder(cd, a) + [Insn(ARETURN)]
  {
    var code := HolderGetterCode(cd, a);
    var ret := LoadHolder(cd, a) + [Insn(ARETURN)];
    assert code == (HolderGetterTests(cd, a) + [LabelMark(0)] + (HolderGetterSync(cd, a) + [LabelMark(1)])) + ret;
  }

  /** The common start of `_persistence_set_<attr>_vh`, up to comparing property and holder value. */
  function HolderSetterRead(cd: ClassDetails, a: AttributeDetails): seq<Instr> {
    [VarInsn(ALOAD, 0), VarInsn(ALOAD, 1), FieldInsn(PUTFIELD, cd.className, HolderField(a.attributeName), VHI_SIGNATURE)]
    + [VarInsn(ALOAD, 1), HolderCall("isInstantiated", BOOL_DESC), JumpInsn(IFEQ, 0)]
    + [VarInsn(ALOAD, 0), PropertyGet(cd, a), VarInsn(ASTORE, 2)]
    + [VarInsn(ALOAD, 1), HolderCall("getValue", OBJECT_RESULT_DESC), VarInsn(ASTORE, 3)]
    + [VarInsn(ALOAD, 2), VarInsn(ALOAD, 3)]
  }

  /** `if (object != value) set(<Ref>) value`, skipping to `miss` when equal. */
  function HolderSetterUpdate(cd: ClassDetails, a: AttributeDetails, miss: Label): seq<Instr> {
    [JumpInsn(IF_ACMPEQ, miss), VarInsn(ALOAD, 0), VarInsn(ALOAD, 3), TypeInsn(CHECKCAST, RefInternal(a)), PropertySet(cd, a)]
  }

  /** `foo = null`. */
  function HolderSetterClear(cd: ClassDetails, a: AttributeDetails): seq<Instr> {
    [SameFrame, VarInsn(ALOAD, 0), Insn(ACONST_NULL), FieldInsn(PUTFIELD, cd.className, a.attributeName, a.referenceClassType.descriptor)]
  }

  /** `else { <attr> = null; }` of the setter without a property setter, labels 0 and 2. */
  function HolderSetterElse(cd: ClassDetails, a: AttributeDetails): seq<Instr> {
    [SameFrame, JumpInsn(GOTO, 2)] + [LabelMark(0)] + (HolderSetterClear(cd, a) + [LabelMark(2)] + [SameFrame])
  }

  /**
   * The update and, without a property setter, the else branch: with a
   * property setter both jumps share label 0, without one the update skips
   * to label 1 and the else branch is at label 0.
   */
  function HolderSetterBranch(cd: ClassDetails, a: AttributeDetails): seq<Instr> {
    if a.setterMethodName.Some? then HolderSetterUpdate(cd, a, 0) + [LabelMark(0)]
    else HolderSetterUpdate(cd, a, 1) + [LabelMark(1)] + HolderSetterElse(cd, a)
  }

  /**
   * The body of `_persistence_set_<attr>_vh`: store the new holder; if it is
   * instantiated and its value differs from the property, set the property
   * to it. Without a property setter the else branch also clears the field.
   */
  function HolderSetterCode(cd: ClassDetails, a: AttributeDetails): seq<Instr> {
    HolderSetterRead(cd, a) + HolderSetterBranch(cd, a) + [Insn(RETURN)]
  }

  /** `addSetterMethodForValueHolder`. */
  function HolderSetterMethod(cd: ClassDetails, a: AttributeDetails): MethodDecl {
    MethodDecl(Public, HolderSetterName(a.attributeName), "(" + VHI_SIGNATURE + ")V", HolderSetterCode(cd, a))
  }

  /** Every jump of the holder setter, in either shape, goes forward to a label placed once. */
  lemma HolderSetterResolved(cd: ClassDetails, a: AttributeDetails)
    ensures LabelsResolved(HolderSetterCode(cd, a))
    ensures Marks(HolderSetterCode(cd, a)) == if a.setterMethodName.Some? then {0} else {0, 1, 2}
  {
    var read, ret := HolderSetterRead(cd, a), [Insn(RETURN)];
    StraightResolved(ret);
    if a.setterMethodName.Some? {
      var update := HolderSetterUpdate(cd, a, 0);
      Regroup(read, update, [LabelMark(0)]);
      MarkResolved(read + update, 0, ret);
    } else {
      var update, clear := HolderSetterUpdate(cd, a, 1), HolderSetterClear(cd, a);
      var goto, orElse := [SameFrame, JumpInsn(GOTO, 2)], HolderSetterElse(cd, a);
      var tail := [SameFrame] + ret;
      StraightResolved(tail);
      MarkResolved(clear, 2, tail);
      Regroup(clear + [LabelMark(2)], [SameFrame], ret);
      MarkResolved(goto, 0, clear + [LabelMark(2)] + tail);
      Regroup(goto + [LabelMark(0)], clear + [LabelMark(2)] + [SameFrame], ret);
      MarkResolved(read + update, 1, orElse + ret);
      Regroup(read, update + [LabelMark(1)], orElse);
      Regroup(read, update, [LabelMark(1)]);
      Regroup(read + update + [LabelMark(1)], orElse, ret);
    }
  }

  /**
   * The holder setter stores its argument into the holder field first, and
   * clears the attribute's field (`foo = null`) exactly when the attribute
   * has no property setter.
   */
  lemma HolderSetterStoresHolder(cd: ClassDetails, a: AttributeDetails)
    ensures var code := HolderSetterCode(cd, a);
      && code[..3] == [VarInsn(ALOAD, 0), VarInsn(ALOAD, 1), FieldInsn(PUTFIELD, cd.className, HolderField(a.attributeName), VHI_SIGNATURE)]
      && (Insn(ACONST_NULL) in code <==> a.setterMethodName.None?)
  {
    var read, branch := HolderSetterRead(cd, a), HolderSetterBranch(cd, a);
    assert HolderSetterCode(cd, a)[..3] == read[..3];
    assert Insn(ACONST_NULL) !in read;
    if a.setterMethodName.Some? {
      assert Insn(ACONST_NULL) !in HolderSetterUpdate(cd, a, 0);
    } else {
      var clear := HolderSetterClear(cd, a);
      assert clear[2] == Insn(ACONST_NULL);
      assert Insn(ACONST_NULL) in HolderSetterElse(cd, a);
    }
  }

  /** `_persistence_checkFetched[ForSet]("<attr>")`, emitted only when fetch groups are woven. */
  function FetchCheck(cd: ClassDetails, a: AttributeDetails, check: string): seq<Instr> {
    if cd.shouldWeaveFetchGroups then
      [VarInsn(ALOAD, 0), Ldc(a.attributeName), MethodInsn(INVOKEVIRTUAL, cd.className, check, STRING_ARG_DESC, false)]
    else []
  }

  /**
   * `this.<attr> = (<Ref>) _persistence_<attr>_vh.getValue()` after the
   * holder is initialised, emitted only for lazy attributes.
   */
  function HolderSync(cd: ClassDetails, a: AttributeDetails): seq<Instr> {
    if a.weaveValueHolders then
      [VarInsn(ALOAD, 0), MethodInsn(INVOKEVIRTUAL, cd.className, InitializerName(a.attributeName), VOID_DESC, false),
       VarInsn(ALOAD, 0)]
      + LoadHolder(cd, a)
      + [HolderCall("getValue", OBJECT_RESULT_DESC), TypeInsn(CHECKCAST, RefInternal(a)),
         FieldInsn(PUTFIELD, cd.className, a.attributeName, a.referenceClassType.descriptor)]
    else []
  }

  /** The call that raises the change event. */
  function PropertyChangeCall(cd: ClassDetails): Instr {
    MethodInsn(INVOKEVIRTUAL, cd.className, PROPERTY_CHANGE, PROPERTY_CHANGE_DESC, false)
  }

  /** The constructor of a primitive's wrapper taking the primitive. */
  function WrapperInit(w: string, a: AttributeDetails): Instr {
    MethodInsn(INVOKESPECIAL, w, INIT, "(" + a.referenceClassType.descriptor + ")V", false)
  }

  /**
   * `_persistence_propertyChange("<attr>", this.<attr>, argument)`, with the
   * old and the new value boxed in the wrapper class when the attribute is
   * primitive.
   */
  function ChangeNotice(cd: ClassDetails, a: AttributeDetails): (n: seq<Instr>)
    ensures |n| > 2 && n[|n| - 1] == PropertyChangeCall(cd)
  {
    var wrapper := WrapperFor(a.referenceClassType.sort);
    [VarInsn(ALOAD, 0), Ldc(a.attributeName)]
    + (if wrapper.Some? then [TypeInsn(NEW, wrapper.value), Insn(DUP)] else [])
    + [VarInsn(ALOAD, 0), FieldInsn(GETFIELD, cd.className, a.attributeName, a.referenceClassType.descriptor)]
    + (if wrapper.Some?
       then [WrapperInit(wrapper.value, a), TypeInsn(NEW, wrapper.value), Insn(DUP),
             VarInsn(LoadOf(a.referenceClassType.sort), 1), WrapperInit(wrapper.value, a)]
       else [VarInsn(ALOAD, 1)])
    + [PropertyChangeCall(cd)]
  }

  /** `this.<attr> = argument`. */
  function StoreArgument(cd: ClassDetails, a: AttributeDetails): seq<Instr> {
    [VarInsn(ALOAD, 0), VarInsn(LoadOf(a.referenceClassType.sort), 1),
     FieldInsn(PUTFIELD, cd.className, a.attributeName, a.referenceClassType.descriptor)]
  }

  /** `_persistence_<attr>_vh.setValue(argument)`, emitted only for lazy attributes. */
  function HolderUpdate(cd: ClassDetails, a: AttributeDetails): seq<Instr> {
    if a.weaveValueHolders then
      LoadHolder(cd, a) + [VarInsn(ALOAD, 1), HolderCall("setValue", OBJECT_ARG_DESC)]
    else []
  }

  /**
   * What the setter runs before storing the argument: the fetch-group check,
   * the holder synchronisation (in both the change-tracking and the plain
   * branch of the source) and, under change tracking, the change event.
   */
  function SetterPrologue(cd: ClassDetails, a: AttributeDetails): seq<Instr> {
    FetchCheck(cd, a, CHECK_FETCHED_FOR_SET) + HolderSync(cd, a)
    + (if cd.shouldWeaveChangeTracking then ChangeNotice(cd, a) else [])
  }

  /** What the setter runs after storing the argument. */
  function SetterEpilogue(cd: ClassDetails, a: AttributeDetails): seq<Instr> {
    HolderUpdate(cd, a) + [Insn(RETURN)]
  }

  /** The body of `_persistence_set_<attr>`. */
  function FieldSetterCode(cd: ClassDetails, a: AttributeDetails): seq<Instr> {
    SetterPrologue(cd, a) + StoreArgument(cd, a) + SetterEpilogue(cd, a)
  }

  /** `addSetterMethodForFieldAccess`. */
  function FieldSetterMethod(cd: ClassDetails, a: AttributeDetails): MethodDecl {
    MethodDecl(Public, FieldSetterName(a.attributeName), "(" + a.referenceClassType.descriptor + ")V", FieldSetterCode(cd, a))
  }

  /** The body of `_persistence_get_<attr>`: check, synchronise, return the field. */
  function FieldGetterCode(cd: ClassDetails, a: AttributeDetails): seq<Instr> {
    FetchCheck(cd, a, CHECK_FETCHED) + HolderSync(cd, a)
    + [VarInsn(ALOAD, 0), FieldInsn(GETFIELD, cd.className, a.attributeName, a.referenceClassType.descriptor),
       Insn(ReturnOf(a.referenceClassType.sort))]
  }

  /** `addGetterMethodForFieldAccess`. */
  function FieldGetterMethod(cd: ClassDetails, a: AttributeDetails): MethodDecl {
    MethodDecl(Public, FieldGetterName(a.attributeName), "()" + a.referenceClassType.descriptor, FieldGetterCode(cd, a))
  }

  /**
   * The change event carries the attribute's name, then its current value,
   * then the argument; a primitive attribute boxes both values in its
   * wrapper class, any other attribute passes them unboxed.
   */
  lemma ChangeNoticeArguments(cd: ClassDetails, a: AttributeDetails)
    ensures var n := ChangeNotice(cd, a);
      var sort := a.referenceClassType.sort;
      && n[..2] == [VarInsn(ALOAD, 0), Ldc(a.attributeName)]
      && n[|n| - 1] == PropertyChangeCall(cd)
      && Before(n, FieldInsn(GETFIELD, cd.className, a.attributeName, a.referenceClassType.descriptor),
                VarInsn(if IsPrimitive(sort) then LoadOf(sort) else ALOAD, 1))
      && (IsPrimitive(sort) ==> TypeInsn(NEW, WrapperFor(sort).value) in n && WrapperInit(WrapperFor(sort).value, a) in n)
      && (!IsPrimitive(sort) ==> forall i :: 0 <= i < |n| ==> !n[i].TypeInsn?)
  {
    var n := ChangeNotice(cd, a);
    var sort := a.referenceClassType.sort;
    if IsPrimitive(sort) {
      assert n[5] == FieldInsn(GETFIELD, cd.className, a.attributeName, a.referenceClassType.descriptor);
      assert n[9] == VarInsn(LoadOf(sort), 1);
    } else {
      assert n[3] == FieldInsn(GETFIELD, cd.className, a.attributeName, a.referenceClassType.descriptor);
      assert n[4] == VarInsn(ALOAD, 1);
    }
  }

  /**
   * The setter stores its argument only after the fetch-group check and the
   * change event, so the event sees the old and the new value, and updates
   * the holder after the store.
   */
  lemma FieldSetterOrder(cd: ClassDetails, a: AttributeDetails)
    ensures FieldSetterCode(cd, a) == SetterPrologue(cd, a) + StoreArgument(cd, a) + SetterEpilogue(cd, a)
    ensures cd.shouldWeaveFetchGroups ==>
      MethodInsn(INVOKEVIRTUAL, cd.className, CHECK_FETCHED_FOR_SET, STRING_ARG_DESC, false) in SetterPrologue(cd, a)
    ensures cd.shouldWeaveChangeTracking ==> PropertyChangeCall(cd) in SetterPrologue(cd, a)
    ensures a.weaveValueHolders ==> HolderCall("setValue", OBJECT_ARG_DESC) in SetterEpilogue(cd, a)
    ensures SetterEpilogue(cd, a)[|SetterEpilogue(cd, a)| - 1] == Insn(RETURN)
  {
    var before, after := SetterPrologue(cd, a), SetterEpilogue(cd, a);
    if cd.shouldWeaveFetchGroups {
      assert before[2] == MethodInsn(INVOKEVIRTUAL, cd.className, CHECK_FETCHED_FOR_SET, STRING_ARG_DESC, false);
    }
    if cd.shouldWeaveChangeTracking {
      var n := ChangeNotice(cd, a);
      assert before[|before| - 1] == n[|n| - 1];
    }
    if a.weaveValueHolders {
      assert after[3] == HolderCall("setValue", OBJECT_ARG_DESC);
    }
  }

  /** The setter raises the change event exactly when change tracking is woven. */
  lemma FieldSetterNotifiesIffTracking(cd: ClassDetails, a: AttributeDetails)
    ensures PropertyChangeCall(cd) in FieldSetterCode(cd, a) <==> cd.shouldWeaveChangeTracking
  {
    var call := PropertyChangeCall(cd);
    assert PROPERTY_CHANGE_DESC != VOID_DESC && PROPERTY_CHANGE_DESC != STRING_ARG_DESC;
    var rest := StoreArgument(cd, a) + SetterEpilogue(cd, a);
    assert call !in FetchCheck(cd, a, CHECK_FETCHED_FOR_SET);
    assert call !in HolderSync(cd, a);
    assert call !in rest;
    assert FieldSetterCode(cd, a) == FetchCheck(cd, a, CHECK_FETCHED_FOR_SET) + HolderSync(cd, a)
      + (if cd.shouldWeaveChangeTracking then ChangeNotice(cd, a) else []) + rest;
  }

  /** The setter makes the fetch-group check exactly when fetch groups are woven. */
  lemma FieldSetterChecksIffFetchGroups(cd: ClassDetails, a: AttributeDetails)
    ensures MethodInsn(INVOKEVIRTUAL, cd.className, CHECK_FETCHED_FOR_SET, STRING_ARG_DESC, false) in FieldSetterCode(cd, a)
      <==> cd.shouldWeaveFetchGroups
  {
    var check := MethodInsn(INVOKEVIRTUAL, cd.className, CHECK_FETCHED_FOR_SET, STRING_ARG_DESC, false);
    var rest := StoreArgument(cd, a) + SetterEpilogue(cd, a);
    assert check !in HolderSync(cd, a);
    assert check !in rest;
    if cd.shouldWeaveChangeTracking {
      assert check !in ChangeNotice(cd, a);
    }
    assert FieldSetterCode(cd, a) == FetchCheck(cd, a, CHECK_FETCHED_FOR_SET) + HolderSync(cd, a)
      + (if cd.shouldWeaveChangeTracking then ChangeNotice(cd, a) else []) + rest;
  }

  /**
   * The getter makes the fetch-group check exactly under fetch groups,
   * initialises the holder exactly for lazy attributes, and returns the
   * field with the return instruction of its type.
   */
  lemma FieldGetterChecksThenReturns(cd: ClassDetails, a: AttributeDetails)
    ensures var code := FieldGetterCode(cd, a);
      && code[|code| - 3..] == [VarInsn(ALOAD, 0), FieldInsn(GETFIELD, cd.className, a.attributeName, a.referenceClassType.descriptor),
                                 Insn(ReturnOf(a.referenceClassType.sort))]
      && (MethodInsn(INVOKEVIRTUAL, cd.className, CHECK_FETCHED, STRING_ARG_DESC, false) in code <==> cd.shouldWeaveFetchGroups)
      && (MethodInsn(INVOKEVIRTUAL, cd.className, InitializerName(a.attributeName), VOID_DESC, false) in code <==> a.weaveValueHolders)
  {
    var check := FetchCheck(cd, a, CHECK_FETCHED);
    var sync := HolderSync(cd, a);
    var ret := [VarInsn(ALOAD, 0), FieldInsn(GETFIELD, cd.className, a.attributeName, a.referenceClassType.descriptor),
                Insn(ReturnOf(a.referenceClassType.sort))];
    assert FieldGetterCode(cd, a) == check + sync + ret;
    assert MethodInsn(INVOKEVIRTUAL, cd.className, CHECK_FETCHED, STRING_ARG_DESC, false) !in sync + ret;
    assert MethodInsn(INVOKEVIRTUAL, cd.className, InitializerName(a.attributeName), VOID_DESC, false) !in check + ret;
  }
}
