/**
 * `ClassWeaver`: the class visitor that weaves persistence support into an
 * entity's bytecode. `visit` extends the interface list, `visitMethod`
 * decides which existing methods are rewritten, and `visitEnd` adds the
 * synthesised fields and methods. Every `add*` method writes one or more
 * members into the next visitor, the class writer `cv`; a method body is
 * visited one instruction at a time and collected here in a local
 * sequence, which the method then hands to `cv`.
 */
module ClassWeaving {
  import opened JavaLang
  import opened Asm
  import opened WeavingNames
  import opened WeavingDetails
  import opened WeavingCode
  import opened WeavingMembers
  import opened WeavingInterfaces
  import opened WeavingPlan
  import opened WeavingEnd

  /**
   * The guard of `visitMethod` as written: an existing method is handed to
   * a `MethodWeaver` unless the class is woven already or the method is a
   * constructor or named `<cinit>`.
   */
  predicate WrapsAsWritten(alreadyWeaved: bool, methodName: string) {
    !alreadyWeaved && methodName != INIT && methodName != CINIT
  }

  /** The guard as intended: constructors and the class initializer `<clinit>` are left alone. */
  predicate Wraps(alreadyWeaved: bool, methodName: string) {
    !alreadyWeaved && methodName != INIT && methodName != CLINIT
  }

  /**
   * The guard as written lets the class initializer through: no method is
   * ever named `<cinit>`, and `<clinit>` is rewritten.
   */
  lemma ClassInitializerWrapped()
    ensures WrapsAsWritten(false, CLINIT) && !Wraps(false, CLINIT)
  {
    assert CLINIT[2] != CINIT[2];
  }

  /** Apart from the class initializer the two guards agree on every method of a real class file. */
  lemma GuardsAgree(alreadyWeaved: bool, methodName: string)
    requires methodName != CLINIT && methodName != CINIT
    ensures WrapsAsWritten(alreadyWeaved, methodName) <==> Wraps(alreadyWeaved, methodName)
  {
  }

  class ClassWeaver {
    /** The descriptor of the class; `visit` may switch its change tracking off. */
    var classDetails: ClassDetails
    /** The class implements `PersistenceWeaved` already. */
    var alreadyWeaved: bool
    var weaved: bool
    var weavedLazy: bool
    var weavedPersistenceEntity: bool
    var weavedChangeTracker: bool
    var weavedFetchGroups: bool
    var weavedRest: bool
    /** The next visitor in the chain. */
    const cv: ClassWriter
    /** `isJAXBOnPath()`: whether the JAXB annotations are available. */
    const jaxbOnPath: bool

    constructor (classWriter: ClassWriter, classDetails: ClassDetails, jaxbOnPath: bool)
      ensures cv == classWriter && this.classDetails == classDetails && this.jaxbOnPath == jaxbOnPath
      ensures !alreadyWeaved && !weaved && !weavedLazy && !weavedPersistenceEntity
      ensures !weavedChangeTracker && !weavedFetchGroups && !weavedRest
    {
      cv := classWriter;
      this.classDetails := classDetails;
      this.jaxbOnPath := jaxbOnPath;
      alreadyWeaved := false;
      weaved := false;
      weavedLazy := false;
      weavedPersistenceEntity := false;
      weavedChangeTracker := false;
      weavedFetchGroups := false;
      weavedRest := false;
    }

    // ---------------------------------------------------------------- visit

    /**
     * `visit`: scans the interfaces up to the first `PersistenceWeaved`; a
     * woven class is passed on unchanged, any other with the interfaces and
     * the generic signature the weaving adds.
     */
    method Visit(h: ClassHeader)
      modifies this, cv
      ensures classDetails == ScannedDetails(old(classDetails), h.interfaces)
      ensures alreadyWeaved == (old(alreadyWeaved) || PERSISTENCE_WEAVED in h.interfaces)
      ensures weaved == (old(weaved) || PERSISTENCE_WEAVED !in h.interfaces)
      ensures weavedLazy == old(weavedLazy) && weavedPersistenceEntity == old(weavedPersistenceEntity)
      ensures weavedChangeTracker == old(weavedChangeTracker) && weavedFetchGroups == old(weavedFetchGroups)
      ensures weavedRest == old(weavedRest)
      ensures cv.out == old(cv.out).(header := Some(VisitedHeader(h, old(classDetails))))
    {
      var marked, tracker, weaveCloneable := ScanInterfaces(h.interfaces);
      if tracker {
        // change tracking the class implements itself is not woven
        classDetails := classDetails.(shouldWeaveChangeTracking := false);
      }
      if marked {
        alreadyWeaved := true;
        cv.Visit(h);
        return;
      }
      var v := WovenHeader(h, classDetails, weaveCloneable);
      weaved := true;
      cv.Visit(v);
    }

    /**
     * The loop of `visit` over the interfaces of the class, up to the first
     * `PersistenceWeaved` (`marked`): whether a `ChangeTracker` came first
     * (`tracker`, on which `visit` switches change tracking off), and
     * whether no `Cloneable` did.
     */
    static method ScanInterfaces(interfaces: seq<string>) returns (marked: bool, tracker: bool, weaveCloneable: bool)
      ensures marked == (PERSISTENCE_WEAVED in interfaces)
      ensures tracker == (CHANGE_TRACKER in ScannedPrefix(interfaces))
      ensures !marked ==> weaveCloneable == (CLONEABLE !in interfaces)
    {
      weaveCloneable, tracker := true, false;
      var index := 0;
      while index < |interfaces|
        invariant 0 <= index <= |interfaces|
        invariant PERSISTENCE_WEAVED !in interfaces[..index]
        invariant tracker == (CHANGE_TRACKER in interfaces[..index])
        invariant weaveCloneable == (CLONEABLE !in interfaces[..index])
      {
        var existing := interfaces[index];
        assert interfaces[..index + 1] == interfaces[..index] + [existing];
        if existing == PERSISTENCE_WEAVED {
          ScannedPrefixIs(interfaces, index);
          return true, tracker, weaveCloneable;
        } else if existing == CHANGE_TRACKER {
          tracker := true;
        } else if existing == CLONEABLE {
          weaveCloneable := false;
        }
        index := index + 1;
      }
      assert interfaces[..index] == interfaces;
      ScannedPrefixIs(interfaces, index);
      marked := false;
    }

    /** The header `visit` passes on for a class not woven yet, scanned into `cd`. */
    static method WovenHeader(h: ClassHeader, cd: ClassDetails, weaveCloneable: bool) returns (v: ClassHeader)
      ensures var added := AddedInterfaces(cd, !weaveCloneable);
        v == h.(signature := if h.signature.None? then None else Some(h.signature.value + SignatureSuffix(added)),
                interfaces := h.interfaces + added)
    {
      var interfaces := h.interfaces;
      var added := AppendedInterfaces(cd, !weaveCloneable);
      var newInterfaces := interfaces + added;
      var newSignature: Option<string> := None;
      if h.signature.Some? {
        var signature := ExtendSignature(h.signature.value, newInterfaces, |interfaces|);
        assert newInterfaces[|interfaces|..] == added;
        newSignature := Some(signature);
      }
      v := h.(signature := newSignature, interfaces := newInterfaces);
    }

    /**
     * The interfaces `visit` appends, each at the next free index of the new
     * array; `cloneable` says whether the class implements `Cloneable` itself.
     */
    static method AppendedInterfaces(cd: ClassDetails, cloneable: bool) returns (added: seq<string>)
      ensures added == AddedInterfaces(cd, cloneable)
    {
      var root := cd.IsRoot();
      var weaveCloneable := cd.shouldWeaveInternal && !cloneable && root;
      added := Opt(weaveCloneable, CLONEABLE);
      // the marker
      added := added + [PERSISTENCE_WEAVED];
      var persistenceEntity := cd.shouldWeaveInternal && root && !cd.isEmbedable;
      added := added + Opt(persistenceEntity, PERSISTENCE_ENTITY);
      added := added + Opt(cd.shouldWeaveInternal, PERSISTENCE_OBJECT);
      added := added + Opt(cd.shouldWeaveFetchGroups && root, FETCHGROUP_TRACKER);
      added := added + Opt(cd.shouldWeaveFetchGroups, WEAVED_FETCHGROUPS);
      added := added + Opt(cd.shouldWeaveValueHolders, TW_LAZY);
      var changeTracker := !cd.doesSuperclassWeaveChangeTracking && cd.shouldWeaveChangeTracking;
      added := added + Opt(changeTracker, CHANGE_TRACKER);
      added := added + Opt(cd.shouldWeaveChangeTracking, TW_CT);
      added := added + Opt(cd.shouldWeaveREST && root, WEAVED_REST);
    }

    /** The generic signature with `L<name>;` appended for each interface from index `from` on. */
    static method ExtendSignature(signature: string, newInterfaces: seq<string>, from: nat) returns (s: string)
      requires from <= |newInterfaces|
      ensures s == signature + SignatureSuffix(newInterfaces[from..])
    {
      s := signature;
      var i := from;
      while i < |newInterfaces|
        invariant from <= i <= |newInterfaces|
        invariant s == signature + SignatureSuffix(newInterfaces[from..i])
      {
        assert newInterfaces[from..i + 1] == newInterfaces[from..i] + [newInterfaces[i]];
        SignatureSuffixSnoc(newInterfaces[from..i], newInterfaces[i]);
        s := s + ("L" + newInterfaces[i] + ";");
        i := i + 1;
      }
      assert newInterfaces[from..i] == newInterfaces[from..];
    }

    /**
     * `visitMethod`: whether an existing method of the class is rewritten by
     * a `MethodWeaver`; it is passed on to `cv` either way.
     */
    method VisitMethod(methodName: string) returns (wrapped: bool)
      ensures wrapped == Wraps(alreadyWeaved, methodName)
    {
      wrapped := false;
      if !alreadyWeaved {
        // constructors and the class initializer are not changed
        if methodName != INIT && methodName != CLINIT {
          wrapped := true;
        }
      }
    }

    // ---------------------------------------------------------------- per attribute

    /** `addValueHolder`. */
    method AddValueHolder(a: AttributeDetails)
      modifies cv
      ensures cv.out == old(cv.out).(fields := old(cv.out).fields + [ValueHolderField(a, jaxbOnPath)])
    {
      var annotations: seq<string> := [];
      if a.getterMethodName.None? || a.getterMethodName.value == "" || a.weaveTransientFieldValueHolders {
        annotations := annotations + [JPA_TRANSIENT];
        if jaxbOnPath {
          annotations := annotations + [XML_TRANSIENT];
        }
      }
      var f := FieldDecl(Protected, PERSISTENCE_FIELDNAME_PREFIX + a.attributeName + PERSISTENCE_FIELDNAME_POSTFIX,
        VHI_SIGNATURE, annotations);
      assert f.name == ValueHolderField(a, jaxbOnPath).name;
      assert f.annotations == ValueHolderField(a, jaxbOnPath).annotations;
      cv.VisitField(f);
    }

    /** `addInitializerForValueHolder`. */
    method AddInitializerForValueHolder(cd: ClassDetails, a: AttributeDetails)
      modifies cv
      ensures cv.out == old(cv.out).(methods := old(cv.out).methods + [InitializerMethod(cd, a)])
    {
      var attribute, className := a.attributeName, cd.className;
      var holder := PERSISTENCE_FIELDNAME_PREFIX + attribute + PERSISTENCE_FIELDNAME_POSTFIX;
      var code: seq<Instr> := [];
      code := code + [VarInsn(ALOAD, 0)];
      code := code + [FieldInsn(GETFIELD, className, holder, VHI_SIGNATURE)];
      var l0: Label := 0;
      code := code + [JumpInsn(IFNONNULL, l0)];
      assert code == LoadHolder(cd, a) + [JumpInsn(IFNONNULL, 0)];
      code := code + [VarInsn(ALOAD, 0)];
      code := code + [TypeInsn(NEW, VH)];
      code := code + [Insn(DUP)];
      if a.hasField {
        code := code + [VarInsn(ALOAD, 0)];
        code := code + [FieldInsn(GETFIELD, className, attribute, a.referenceClassType.descriptor)];
        code := code + [MethodInsn(INVOKESPECIAL, VH, INIT, "(Ljava/lang/Object;)V", false)];
      } else {
        code := code + [MethodInsn(INVOKESPECIAL, VH, INIT, "()V", false)];
      }
      assert code == LoadHolder(cd, a) + [JumpInsn(IFNONNULL, 0)] + HolderConstruction(cd, a);
      code := code + [FieldInsn(PUTFIELD, className, holder, VHI_SIGNATURE)];
      code := code + [VarInsn(ALOAD, 0)];
      code := code + [FieldInsn(GETFIELD, className, holder, VHI_SIGNATURE)];
      code := code + [Insn(ICONST_1)];
      code := code + [MethodInsn(INVOKEINTERFACE, VHI, "setIsNewlyWeavedValueHolder", "(Z)V", true)];
      assert code == InitializerGuarded(cd, a);
      code := code + [LabelMark(l0)];
      code := code + [Insn(RETURN)];
      assert code == InitializerCode(cd, a);
      cv.VisitMethod(MethodDecl(Protected, INITIALIZE_PREFIX + attribute + PERSISTENCE_FIELDNAME_POSTFIX, "()V", code));
    }

    /** `addGetterMethodForValueHolder`. */
    method AddGetterMethodForValueHolder(cd: ClassDetails, a: AttributeDetails)
      modifies cv
      ensures cv.out == old(cv.out).(methods := old(cv.out).methods + [HolderGetterMethod(cd, a)])
    {
      var attribute := a.attributeName;
      // _persistence_initialize_<attr>_vh();
      var code := [VarInsn(ALOAD, 0), MethodInsn(INVOKEVIRTUAL, cd.className, InitializerName(attribute), VOID_DESC, false)];
      // if (holder.isCoordinatedWithProperty() || holder.isNewlyWeavedValueHolder())
      var l0: Label, l1: Label := 0, 1;
      code := code + LoadHolder(cd, a) + [HolderCall("isCoordinatedWithProperty", BOOL_DESC), JumpInsn(IFNE, l0)];
      code := code + LoadHolder(cd, a) + [HolderCall("isNewlyWeavedValueHolder", BOOL_DESC), JumpInsn(IFEQ, l1)];
      code := code + [LabelMark(l0)];
      // <Ref> object = (<Ref>) getFoo();
      var sync: seq<Instr> := [VarInsn(ALOAD, 0)];
      if a.getterMethodName.Some? {
        sync := sync + [MethodInsn(INVOKEVIRTUAL, cd.className, a.getterMethodName.value, RefGetterDesc(a), false),
                        TypeInsn(CHECKCAST, RefInternal(a))];
        assert sync[1] == PropertyGet(cd, a);
      } else {
        sync := sync + [MethodInsn(INVOKEVIRTUAL, cd.className, FieldGetterName(attribute), RefGetterDesc(a), false)];
        assert sync[1] == PropertyGet(cd, a);
      }
      sync := sync + [VarInsn(ASTORE, 1), VarInsn(ALOAD, 1)];
      // if (object != holder.getValue()) setFoo(object);
      sync := sync + LoadHolder(cd, a) + [HolderCall("getValue", OBJECT_RESULT_DESC), JumpInsn(IF_ACMPEQ, l1)];
      if a.setterMethodName.Some? {
        sync := sync + [VarInsn(ALOAD, 0), VarInsn(ALOAD, 1),
                        MethodInsn(INVOKEVIRTUAL, cd.className, a.setterMethodName.value, RefSetterDesc(a), false)];
      } else {
        sync := sync + [VarInsn(ALOAD, 0), VarInsn(ALOAD, 1),
                        MethodInsn(INVOKEVIRTUAL, cd.className, FieldSetterName(attribute), RefSetterDesc(a), false)];
      }
      assert sync == HolderGetterSync(cd, a);
      // return holder;
      code := code + (sync + [LabelMark(l1)] + (LoadHolder(cd, a) + [Insn(ARETURN)]));
      cv.VisitMethod(MethodDecl(Public, HolderGetterName(attribute), "()" + VHI_SIGNATURE, code));
    }

    /** `addSetterMethodForValueHolder`. */
    method AddSetterMethodForValueHolder(cd: ClassDetails, a: AttributeDetails)
      modifies cv
      ensures cv.out == old(cv.out).(methods := old(cv.out).methods + [HolderSetterMethod(cd, a)])
    {
      var attribute := a.attributeName;
      // _persistence_<attr>_vh = holder;
      var read := [VarInsn(ALOAD, 0), VarInsn(ALOAD, 1), FieldInsn(PUTFIELD, cd.className, HolderField(attribute), VHI_SIGNATURE)];
      // if (holder.isInstantiated()) {
      var l0: Label := 0;
      read := read + [VarInsn(ALOAD, 1), HolderCall("isInstantiated", BOOL_DESC), JumpInsn(IFEQ, l0)];
      // Object object = getFoo();
      if a.getterMethodName.Some? {
        read := read + [VarInsn(ALOAD, 0), MethodInsn(INVOKEVIRTUAL, cd.className, a.getterMethodName.value, RefGetterDesc(a), false),
                        VarInsn(ASTORE, 2)];
      } else {
        read := read + [VarInsn(ALOAD, 0), MethodInsn(INVOKEVIRTUAL, cd.className, FieldGetterName(attribute), RefGetterDesc(a), false),
                        VarInsn(ASTORE, 2)];
      }
      assert read[7] == PropertyGet(cd, a);
      // Object value = holder.getValue();
      read := read + [VarInsn(ALOAD, 1), HolderCall("getValue", OBJECT_RESULT_DESC), VarInsn(ASTORE, 3)];
      // if (object != value)
      read := read + [VarInsn(ALOAD, 2), VarInsn(ALOAD, 3)];
      assert read == HolderSetterRead(cd, a);
      var branch: seq<Instr>;
      if a.setterMethodName.Some? {
        // setFoo((<Ref>) value); }
        branch := [JumpInsn(IF_ACMPEQ, l0), VarInsn(ALOAD, 0), VarInsn(ALOAD, 3), TypeInsn(CHECKCAST, RefInternal(a)),
                   MethodInsn(INVOKEVIRTUAL, cd.className, a.setterMethodName.value, RefSetterDesc(a), false)];
        assert branch[4] == PropertySet(cd, a);
        branch := branch + [LabelMark(l0)];
      } else {
        // _persistence_set_foo((<Ref>) value); }
        var l1: Label := 1;
        branch := [JumpInsn(IF_ACMPEQ, l1), VarInsn(ALOAD, 0), VarInsn(ALOAD, 3), TypeInsn(CHECKCAST, RefInternal(a)),
                   MethodInsn(INVOKEVIRTUAL, cd.className, FieldSetterName(attribute), RefSetterDesc(a), false)];
        assert branch[4] == PropertySet(cd, a);
        branch := branch + [LabelMark(l1)];
        // else { foo = null; }
        var l2: Label := 2;
        var orElse := [SameFrame, JumpInsn(GOTO, l2)] + [LabelMark(l0)];
        var clear := [SameFrame, VarInsn(ALOAD, 0), Insn(ACONST_NULL), FieldInsn(PUTFIELD, cd.className, attribute, a.referenceClassType.descriptor)];
        orElse := orElse + (clear + [LabelMark(l2)] + [SameFrame]);
        branch := branch + orElse;
      }
      assert branch == HolderSetterBranch(cd, a);
      var code := read + branch + [Insn(RETURN)];
      cv.VisitMethod(MethodDecl(Public, HolderSetterName(attribute), "(" + VHI_SIGNATURE + ")V", code));
    }

    /**
     * `this.<attr> = (<Ref>) _persistence_<attr>_vh.getValue()` after
     * initialising the holder: the block both field-access accessors emit
     * for a lazy attribute (written out three times in the source).
     */
    method HolderSyncCode(cd: ClassDetails, a: AttributeDetails) returns (sync: seq<Instr>)
      requires a.weaveValueHolders
      ensures sync == HolderSync(cd, a)
    {
      // _persistence_initialize_<attr>_vh();
      sync := [VarInsn(ALOAD, 0), MethodInsn(INVOKEVIRTUAL, cd.className, InitializerName(a.attributeName), VOID_DESC, false)];
      // _persistence_<attr>_vh.getValue();
      sync := sync + [VarInsn(ALOAD, 0)] + LoadHolder(cd, a) + [HolderCall("getValue", OBJECT_RESULT_DESC)];
      // this.<attr> = (<Ref>) ...;
      sync := sync + [TypeInsn(CHECKCAST, RefInternal(a)), FieldInsn(PUTFIELD, cd.className, a.attributeName, a.referenceClassType.descriptor)];
    }

    /** `addSetterMethodForFieldAccess`. */
    method AddSetterMethodForFieldAccess(cd: ClassDetails, a: AttributeDetails)
      modifies cv
      ensures cv.out == old(cv.out).(methods := old(cv.out).methods + [FieldSetterMethod(cd, a)])
    {
      var attribute, typ := a.attributeName, a.referenceClassType;
      var opcode := LoadOf(typ.sort);
      var prologue: seq<Instr> := [];
      if cd.shouldWeaveFetchGroups {
        // _persistence_checkFetchedForSet("<attr>");
        prologue := [VarInsn(ALOAD, 0), Ldc(attribute), MethodInsn(INVOKEVIRTUAL, cd.className, CHECK_FETCHED_FOR_SET, STRING_ARG_DESC, false)];
      }
      if cd.shouldWeaveChangeTracking {
        if a.weaveValueHolders {
          var sync := HolderSyncCode(cd, a);
          prologue := prologue + sync;
        }
        // _persistence_propertyChange("<attr>", <attr>, argument), boxing primitives
        var notice := [VarInsn(ALOAD, 0), Ldc(attribute)];
        var wrapper := WrapperFor(typ.sort);
        if wrapper.Some? {
          notice := notice + [TypeInsn(NEW, wrapper.value), Insn(DUP)];
        }
        notice := notice + [VarInsn(ALOAD, 0), FieldInsn(GETFIELD, cd.className, attribute, typ.descriptor)];
        if wrapper.Some? {
          notice := notice + [WrapperInit(wrapper.value, a), TypeInsn(NEW, wrapper.value), Insn(DUP), VarInsn(opcode, 1), WrapperInit(wrapper.value, a)];
        } else {
          notice := notice + [VarInsn(ALOAD, 1)];
        }
        notice := notice + [PropertyChangeCall(cd)];
        assert notice == ChangeNotice(cd, a);
        prologue := prologue + notice;
      } else if a.weaveValueHolders {
        var sync := HolderSyncCode(cd, a);
        prologue := prologue + sync;
      }
      assert prologue == SetterPrologue(cd, a);
      // <attr> = argument, after the change event so that it carries the old and the new value
      var store := [VarInsn(ALOAD, 0), VarInsn(opcode, 1), FieldInsn(PUTFIELD, cd.className, attribute, typ.descriptor)];
      var epilogue: seq<Instr> := [];
      if a.weaveValueHolders {
        // _persistence_<attr>_vh.setValue(argument);
        epilogue := LoadHolder(cd, a) + [VarInsn(ALOAD, 1), HolderCall("setValue", OBJECT_ARG_DESC)];
      }
      epilogue := epilogue + [Insn(RETURN)];
      cv.VisitMethod(MethodDecl(Public, FieldSetterName(attribute), "(" + typ.descriptor + ")V", prologue + store + epilogue));
    }

    /** `addGetterMethodForFieldAccess`. */
    method AddGetterMethodForFieldAccess(cd: ClassDetails, a: AttributeDetails)
      modifies cv
      ensures cv.out == old(cv.out).(methods := old(cv.out).methods + [FieldGetterMethod(cd, a)])
    {
      var attribute, typ := a.attributeName, a.referenceClassType;
      var code: seq<Instr> := [];
      if cd.shouldWeaveFetchGroups {
        // _persistence_checkFetched("<attr>");
        code := [VarInsn(ALOAD, 0), Ldc(attribute), MethodInsn(INVOKEVIRTUAL, cd.className, CHECK_FETCHED, STRING_ARG_DESC, false)];
      }
      if a.weaveValueHolders {
        var sync := HolderSyncCode(cd, a);
        code := code + sync;
      }
      assert code == FetchCheck(cd, a, CHECK_FETCHED) + HolderSync(cd, a);
      // return this.<attr>;
      code := code + [VarInsn(ALOAD, 0), FieldInsn(GETFIELD, cd.className, attribute, typ.descriptor), Insn(ReturnOf(typ.sort))];
      cv.VisitMethod(MethodDecl(Public, FieldGetterName(attribute), "()" + typ.descriptor, code));
    }

    // ---------------------------------------------------------------- change tracking

    /** `addPropertyChangeListener`; its `attributeAccess` argument is not used. */
    method AddPropertyChangeListener(attributeAccess: bool)
      modifies cv
      ensures cv.out == old(cv.out).(fields := old(cv.out).fields + [ListenerField()])
    {
      cv.VisitField(FieldDecl(ProtectedTransient, LISTENER_FIELD, PCL_SIGNATURE, []));
    }

    /** `addGetPropertyChangeListener`. */
    method AddGetPropertyChangeListener(cd: ClassDetails)
      modifies cv
      ensures cv.out == old(cv.out).(methods := old(cv.out).methods + [ListenerGetter(cd)])
    {
      var code := [VarInsn(ALOAD, 0), FieldInsn(GETFIELD, cd.className, LISTENER_FIELD, PCL_SIGNATURE), Insn(ARETURN)];
      cv.VisitMethod(MethodDecl(Public, "_persistence_getPropertyChangeListener", "()" + PCL_SIGNATURE, code));
    }

    /** `addSetPropertyChangeListener`. */
    method AddSetPropertyChangeListener(cd: ClassDetails)
      modifies cv
      ensures cv.out == old(cv.out).(methods := old(cv.out).methods + [ListenerSetter(cd)])
    {
      var code := [VarInsn(ALOAD, 0), VarInsn(ALOAD, 1), FieldInsn(PUTFIELD, cd.className, LISTENER_FIELD, PCL_SIGNATURE), Insn(RETURN)];
      cv.VisitMethod(MethodDecl(Public, "_persistence_setPropertyChangeListener", "(" + PCL_SIGNATURE + ")V", code));
    }

    /** `addPropertyChange`. */
    method AddPropertyChange(cd: ClassDetails)
      modifies cv
      ensures cv.out == old(cv.out).(methods := old(cv.out).methods + [PropertyChangeMethod(cd)])
    {
      // if (_persistence_listener != null)
      var l0: Label := 0;
      var code := [VarInsn(ALOAD, 0), FieldInsn(GETFIELD, cd.className, LISTENER_FIELD, PCL_SIGNATURE), JumpInsn(IFNULL, l0)];
      // if (obj != obj1)
      code := code + [VarInsn(ALOAD, 2), VarInsn(ALOAD, 3), JumpInsn(IF_ACMPEQ, l0)];
      // _persistence_listener.propertyChange(new PropertyChangeEvent(this, s, obj, obj1));
      code := code + [VarInsn(ALOAD, 0), FieldInsn(GETFIELD, cd.className, LISTENER_FIELD, PCL_SIGNATURE), TypeInsn(NEW, PCE), Insn(DUP)];
      code := code + [VarInsn(ALOAD, 0), VarInsn(ALOAD, 1), VarInsn(ALOAD, 2), VarInsn(ALOAD, 3)];
      code := code + [MethodInsn(INVOKESPECIAL, PCE, INIT, PCE_INIT_DESC, false),
                      MethodInsn(INVOKEINTERFACE, PCL, "propertyChange", "(" + PCE_SIGNATURE + ")V", true)];
      code := code + [LabelMark(l0)] + [Insn(RETURN)];
      cv.VisitMethod(MethodDecl(Public, PROPERTY_CHANGE, PROPERTY_CHANGE_DESC, code));
    }

    // ---------------------------------------------------------------- internal members

    /**
     * The loop of `addPersistencePostClone` over the attribute map: a clone
     * block for every lazy attribute, each with a label of its own.
     */
    method HolderClones(cd: ClassDetails) returns (holders: seq<Instr>)
      ensures holders == PostCloneHolders(cd)
    {
      holders := [];
      if cd.shouldWeaveValueHolders {
        var attrs := cd.attributes;
        var next: Label := 0;
        var i := 0;
        ghost var blocks: seq<seq<Instr>> := [];
        while i < |attrs|
          invariant 0 <= i <= |attrs|
          invariant next == |Lazy(attrs[..i])|
          invariant blocks == CloneBlocks(cd, Lazy(attrs[..i]))
          invariant holders == Flatten(blocks)
        {
          var a := attrs[i];
          ghost var lazy := Lazy(attrs[..i]);
          LazyPrefix(attrs, i);
          if a.weaveValueHolders {
            // if (this.<holder> != null) this.<holder> = (WAVHI) this.<holder>.clone();
            var block := LoadHolder(cd, a) + [JumpInsn(IFNULL, next)];
            block := block + ([VarInsn(ALOAD, 0)] + LoadHolder(cd, a)
              + [HolderCall("clone", OBJECT_RESULT_DESC), TypeInsn(CHECKCAST, VHI),
                 FieldInsn(PUTFIELD, cd.className, HolderField(a.attributeName), VHI_SIGNATURE)]);
            block := block + [LabelMark(next)];
            assert block == CloneBlock(cd, a, next);
            CloneBlocksSnoc(cd, lazy, a);
            FlattenSnoc(blocks, block);
            holders := holders + block;
            blocks := blocks + [block];
            next := next + 1;
          }
          i := i + 1;
        }
        assert attrs[..i] == attrs;
      }
    }

    /** `addPersistencePostClone`. */
    method AddPersistencePostClone(cd: ClassDetails)
      modifies cv
      ensures cv.out == old(cv.out).(methods := old(cv.out).methods + [PostCloneMethod(cd)])
    {
      var code: seq<Instr> := [];
      if cd.SuperWeavesInternal() {
        // super._persistence_post_clone();
        code := [VarInsn(ALOAD, 0), MethodInsn(INVOKESPECIAL, cd.superClassName, POST_CLONE, OBJECT_RESULT_DESC, false)];
      }
      var holders := HolderClones(cd);
      assert holders == PostCloneHolders(cd);
      code := code + holders;
      assert code == SuperPostClone(cd) + PostCloneHolders(cd);
      var clears: seq<Instr> := [];
      if cd.shouldWeaveChangeTracking {
        // _persistence_listener = null;
        clears := [VarInsn(ALOAD, 0), Insn(ACONST_NULL), FieldInsn(PUTFIELD, cd.className, LISTENER_FIELD, PCL_SIGNATURE)];
      }
      if cd.shouldWeaveFetchGroups {
        // _persistence_fetchGroup = null; _persistence_session = null;
        clears := clears + ([VarInsn(ALOAD, 0), Insn(ACONST_NULL), FieldInsn(PUTFIELD, cd.className, FETCHGROUP_FIELD, FETCHGROUP_SIGNATURE)]
          + [VarInsn(ALOAD, 0), Insn(ACONST_NULL), FieldInsn(PUTFIELD, cd.className, SESSION_FIELD, SESSION_SIGNATURE)]);
      }
      if !cd.isEmbedable {
        // _persistence_primaryKey = null;
        clears := clears + [VarInsn(ALOAD, 0), Insn(ACONST_NULL), FieldInsn(PUTFIELD, cd.className, PRIMARY_KEY_FIELD, OBJECT_SIGNATURE)];
      }
      assert clears == PostCloneClears(cd);
      // return this;
      code := code + clears + [VarInsn(ALOAD, 0), Insn(ARETURN)];
      cv.VisitMethod(MethodDecl(Public, POST_CLONE, OBJECT_RESULT_DESC, code));
    }

    /** `addPersistenceEntityVariables`. */
    method AddPersistenceEntityVariables()
      modifies cv
      ensures cv.out == old(cv.out).(fields := old(cv.out).fields + EntityFields())
    {
      cv.VisitField(FieldDecl(ProtectedTransient, PRIMARY_KEY_FIELD, OBJECT_SIGNATURE, []));
      cv.VisitField(FieldDecl(ProtectedTransient, CACHE_KEY_FIELD, CACHEKEY_SIGNATURE, []));
    }

    /** `addShallowClone`. */
    method AddShallowClone(cd: ClassDetails)
      modifies cv
      ensures cv.out == old(cv.out).(methods := old(cv.out).methods + [ShallowCloneMethod()])
    {
      // return super.clone();
      var code := [VarInsn(ALOAD, 0), MethodInsn(INVOKESPECIAL, JAVA_OBJECT, "clone", OBJECT_RESULT_DESC, false), Insn(ARETURN)];
      cv.VisitMethod(MethodDecl(Public, "_persistence_shallow_clone", OBJECT_RESULT_DESC, code));
    }

    /** `addPersistenceNew`. */
    method AddPersistenceNew(cd: ClassDetails)
      modifies cv
      ensures cv.out == old(cv.out).(methods := old(cv.out).methods + PersistenceNewMethods(cd))
    {
      var desc := "(" + PERSISTENCE_OBJECT_SIGNATURE + ")" + OBJECT_SIGNATURE;
      // return new <Class>(factory), or new <Class>() without the constructor optimisation
      if !cd.canWeaveConstructorOptimization {
        var code := [TypeInsn(NEW, cd.className), Insn(DUP), MethodInsn(INVOKESPECIAL, cd.className, INIT, VOID_DESC, false), Insn(ARETURN)];
        cv.VisitMethod(MethodDecl(Public, "_persistence_new", desc, code));
        return;
      }
      var code := [TypeInsn(NEW, cd.className), Insn(DUP), VarInsn(ALOAD, 1),
        MethodInsn(INVOKESPECIAL, cd.className, INIT, FACTORY_INIT_DESC, false), Insn(ARETURN)];
      cv.VisitMethod(MethodDecl(Public, "_persistence_new", desc, code));
      // public <Class>(PersistenceObject factory) { super(...); }
      var init := [VarInsn(ALOAD, 0)];
      if cd.IsRoot() {
        init := init + [MethodInsn(INVOKESPECIAL, cd.superClassName, INIT, VOID_DESC, false)];
      } else {
        init := init + [VarInsn(ALOAD, 1), MethodInsn(INVOKESPECIAL, cd.superClassName, INIT, FACTORY_INIT_DESC, false)];
      }
      init := init + [Insn(RETURN)];
      cv.VisitMethod(MethodDecl(Public, INIT, FACTORY_INIT_DESC, init));
    }

    /**
     * One test of the loop of `addPersistenceGetSet`: the pending miss label
     * of the previous test, then the name test with miss label `count` and
     * the value part, whose own miss label is left pending.
     */
    method AppendTest(cd: ClassDetails, a: AttributeDetails, setter: bool, code: seq<Instr>, count: Label) returns (next: seq<Instr>)
      ensures next + Pending(count + 1) == code + Pending(count) + Test(cd, a, count, setter)
    {
      next := code;
      if count > 0 {
        next := next + [LabelMark(count - 1)];
      }
      assert next == code + Pending(count);
      // else if (attribute == "<name>")
      var test := [VarInsn(ALOAD, 1), Ldc(a.attributeName), JumpInsn(IF_ACMPNE, count)];
      var value := TestValue(cd, a, setter);
      assert test + value + [LabelMark(count)] == Test(cd, a, count, setter);
      Regroup(next, test + value, [LabelMark(count)]);
      next := next + (test + value);
    }

    /** The miss label of the last of `count` tests, still to be placed. */
    static function Pending(count: Label): seq<Instr> {
      if count > 0 then [LabelMark(count - 1)] else []
    }

    /**
     * The value part of one test of `addPersistenceGetSet`: the field read,
     * boxed for a primitive, or the cast argument, unwrapped for a
     * primitive, stored into the field.
     */
    method TestValue(cd: ClassDetails, a: AttributeDetails, setter: bool) returns (value: seq<Instr>)
      ensures value == if setter then SetValue(cd, a) else GetValue(cd, a)
    {
      var sort, desc := a.referenceClassType.sort, a.referenceClassType.descriptor;
      var wrapper := WrapperFor(sort);
      if !setter {
        // return this.<name>, boxed by the wrapper's valueOf
        value := [VarInsn(ALOAD, 0), FieldInsn(GETFIELD, cd.className, a.attributeName, desc)];
        if wrapper.Some? {
          value := value + [MethodInsn(INVOKESTATIC, wrapper.value, "valueOf", "(" + desc + ")" + ObjectDescriptor(wrapper.value), false)];
        }
        value := value + [Insn(ARETURN)];
      } else {
        // this.<name> = (<Type>) value, unwrapped for a primitive; return;
        var owner := if wrapper.None? then RefInternal(a) else wrapper.value;
        value := [VarInsn(ALOAD, 0), VarInsn(ALOAD, 2), TypeInsn(CHECKCAST, owner)];
        var unwrap := UnwrapMethod(sort);
        if unwrap.Some? {
          value := value + [MethodInsn(INVOKEVIRTUAL, owner, unwrap.value.0, unwrap.value.1, false)];
        }
        value := value + [FieldInsn(PUTFIELD, cd.className, a.attributeName, desc), Insn(RETURN)];
      }
    }

    /**
     * One loop of `addPersistenceGetSet` over the attribute map: a name test
     * and a value part for every dispatched attribute. The miss label of a
     * test is placed when the next test starts, and the last one after the
     * loop; `setter` selects the value part of `_persistence_set`.
     */
    method DispatchTests(cd: ClassDetails, setter: bool) returns (tests: seq<Instr>)
      ensures tests == Flatten(Tests(cd, Dispatched(cd.attributes), setter))
    {
      var code, count := DispatchLoop(cd, setter);
      if count > 0 {
        code := code + [LabelMark(count - 1)];
      }
      tests := code;
    }

    /** The loop of `DispatchTests`, which leaves the miss label of the last test pending. */
    method DispatchLoop(cd: ClassDetails, setter: bool) returns (code: seq<Instr>, count: Label)
      ensures Flatten(Tests(cd, Dispatched(cd.attributes), setter)) == code + Pending(count)
    {
      var attrs := cd.attributes;
      code := [];
      // the tests emitted so far; the miss label of the last one is still pending
      count := 0;
      var i := 0;
      while i < |attrs|
        invariant 0 <= i <= |attrs|
        invariant count == |Dispatched(attrs[..i])|
        invariant Flatten(Tests(cd, Dispatched(attrs[..i]), setter)) == code + Pending(count)
      {
        var next, nextCount := code, count;
        if attrs[i].IsDispatched() {
          next := AppendTest(cd, attrs[i], setter, code, count);
          nextCount := count + 1;
        }
        DispatchStep(cd, attrs, i, setter, code, count, next, nextCount);
        code, count := next, nextCount;
        i := i + 1;
      }
      assert attrs[..i] == attrs;
    }

    /** One turn of the dispatch loop: a dispatched attribute's test follows the ones emitted so far. */
    static lemma DispatchStep(cd: ClassDetails, attrs: seq<AttributeDetails>, i: nat, setter: bool,
                              code: seq<Instr>, count: Label, next: seq<Instr>, nextCount: Label)
      requires i < |attrs| && count == |Dispatched(attrs[..i])|
      requires Flatten(Tests(cd, Dispatched(attrs[..i]), setter)) == code + Pending(count)
      requires attrs[i].IsDispatched() ==>
        nextCount == count + 1 && next + Pending(count + 1) == code + Pending(count) + Test(cd, attrs[i], count, setter)
      requires !attrs[i].IsDispatched() ==> nextCount == count && next == code
      ensures nextCount == |Dispatched(attrs[..i + 1])|
      ensures Flatten(Tests(cd, Dispatched(attrs[..i + 1]), setter)) == next + Pending(nextCount)
    {
      TestsPrefix(cd, attrs, i, setter);
      if attrs[i].IsDispatched() {
        FlattenSnoc(Tests(cd, Dispatched(attrs[..i]), setter), Test(cd, attrs[i], count, setter));
      }
    }

    /** `addPersistenceGetSet`: the two generic dispatchers. */
    method AddPersistenceGetSet(cd: ClassDetails)
      modifies cv
      ensures cv.out == old(cv.out).(methods := old(cv.out).methods + GenericAccessMethods(cd))
    {
      // public Object _persistence_get(String attribute)
      var get := DispatchTests(cd, false);
      if cd.IsRoot() {
        get := get + [Insn(ACONST_NULL)];
      } else {
        get := get + [VarInsn(ALOAD, 0), VarInsn(ALOAD, 1), MethodInsn(INVOKESPECIAL, cd.superClassName, GENERIC_GET, GENERIC_GET_DESC, false)];
      }
      get := get + [Insn(ARETURN)];
      assert get == DispatcherCode(cd, false);
      cv.VisitMethod(MethodDecl(Public, GENERIC_GET, GENERIC_GET_DESC, get));
      // public void _persistence_set(String attribute, Object value)
      var put := DispatchTests(cd, true);
      if !cd.IsRoot() {
        put := put + [VarInsn(ALOAD, 0), VarInsn(ALOAD, 1), VarInsn(ALOAD, 2), MethodInsn(INVOKESPECIAL, cd.superClassName, GENERIC_SET, GENERIC_SET_DESC, false)];
      }
      put := put + [Insn(RETURN)];
      assert put == DispatcherCode(cd, true);
      cv.VisitMethod(MethodDecl(Public, GENERIC_SET, GENERIC_SET_DESC, put));
    }

    /**
     * `public <desc> <name>() { return this.<field>; }`, which the source
     * writes out once per accessor.
     */
    method AddFieldReader(owner: string, name: string, field: string, desc: string, ret: Opcode)
      modifies cv
      ensures cv.out == old(cv.out).(methods := old(cv.out).methods + [FieldReader(owner, name, field, desc, ret)])
    {
      var code := [VarInsn(ALOAD, 0), FieldInsn(GETFIELD, owner, field, desc), Insn(ret)];
      cv.VisitMethod(MethodDecl(Public, name, "()" + desc, code));
    }

    /**
     * `public void <name>(<desc> x) { this.<field> = x; }`, which the source
     * writes out once per accessor.
     */
    method AddFieldWriter(owner: string, name: string, field: string, desc: string, load: Opcode)
      modifies cv
      ensures cv.out == old(cv.out).(methods := old(cv.out).methods + [FieldWriter(owner, name, field, desc, load)])
    {
      var code := [VarInsn(ALOAD, 0), VarInsn(load, 1), FieldInsn(PUTFIELD, owner, field, desc), Insn(RETURN)];
      cv.VisitMethod(MethodDecl(Public, name, "(" + desc + ")V", code));
    }

    /** `addPersistenceEntityMethods`. */
    method AddPersistenceEntityMethods(cd: ClassDetails)
      modifies cv
      ensures cv.out == old(cv.out).(methods := old(cv.out).methods + EntityMethods(cd))
    {
      AddFieldReader(cd.className, "_persistence_getId", PRIMARY_KEY_FIELD, OBJECT_SIGNATURE, ARETURN);
      AddFieldWriter(cd.className, "_persistence_setId", PRIMARY_KEY_FIELD, OBJECT_SIGNATURE, ALOAD);
      AddFieldReader(cd.className, "_persistence_getCacheKey", CACHE_KEY_FIELD, CACHEKEY_SIGNATURE, ARETURN);
      AddFieldWriter(cd.className, "_persistence_setCacheKey", CACHE_KEY_FIELD, CACHEKEY_SIGNATURE, ALOAD);
    }

    /** `addPersistenceRestVariables`. */
    method AddPersistenceRestVariables()
      modifies cv
      ensures cv.out == old(cv.out).(fields := old(cv.out).fields + RestFields())
    {
      cv.VisitField(FieldDecl(ProtectedTransient, RELATIONSHIPS_FIELD, LIST_SIGNATURE, []));
      cv.VisitField(FieldDecl(ProtectedTransient, HREF_FIELD, LINK_SIGNATURE, []));
      cv.VisitField(FieldDecl(ProtectedTransient, LINKS_FIELD, ITEM_LINKS_SIGNATURE, []));
    }

    /** `addPersistenceRestMethods`. */
    method AddPersistenceRestMethods(cd: ClassDetails)
      modifies cv
      ensures cv.out == old(cv.out).(methods := old(cv.out).methods + RestMethods(cd))
    {
      var c := cd.className;
      AddFieldReader(c, "_persistence_getRelationships", RELATIONSHIPS_FIELD, LIST_SIGNATURE, ARETURN);
      AddFieldWriter(c, "_persistence_setRelationships", RELATIONSHIPS_FIELD, LIST_SIGNATURE, ALOAD);
      AddFieldReader(c, "_persistence_getHref", HREF_FIELD, LINK_SIGNATURE, ARETURN);
      AddFieldWriter(c, "_persistence_setHref", HREF_FIELD, LINK_SIGNATURE, ALOAD);
      AddFieldReader(c, "_persistence_getLinks", LINKS_FIELD, ITEM_LINKS_SIGNATURE, ARETURN);
      AddFieldWriter(c, "_persistence_setLinks", LINKS_FIELD, ITEM_LINKS_SIGNATURE, ALOAD);
    }

    /** `addFetchGroupVariables`: the annotations of the fetch group depend on the access type and on JAXB. */
    method AddFetchGroupVariables()
      modifies cv
      ensures cv.out == old(cv.out).(fields := old(cv.out).fields + FetchGroupFields(classDetails, jaxbOnPath))
    {
      var annotations: seq<string> := [];
      if classDetails.usesAttributeAccess {
        annotations := [JPA_TRANSIENT];
      }
      if jaxbOnPath {
        annotations := annotations + [XML_TRANSIENT];
      }
      assert annotations == FetchGroupFields(classDetails, jaxbOnPath)[0].annotations;
      cv.VisitField(FieldDecl(Protected, FETCHGROUP_FIELD, FETCHGROUP_SIGNATURE, annotations));
      cv.VisitField(FieldDecl(ProtectedTransient, REFRESH_FIELD, PBOOLEAN_SIGNATURE, []));
      cv.VisitField(FieldDecl(ProtectedTransient, SESSION_FIELD, SESSION_SIGNATURE, []));
    }

    /** `_persistence_checkFetched` and `_persistence_checkFetchedForSet`, which differ in the hook they call. */
    method AddCheckFetched(cd: ClassDetails, name: string, process: string)
      modifies cv
      ensures cv.out == old(cv.out).(methods := old(cv.out).methods + [MethodDecl(Public, name, STRING_ARG_DESC, CheckFetchedCode(cd, process))])
    {
      var gotoReturn: Label := 0;
      var code := [VarInsn(ALOAD, 0), VarInsn(ALOAD, 1), MethodInsn(INVOKEVIRTUAL, cd.className, IS_ATTRIBUTE_FETCHED, STRING_TEST_DESC, false),
        JumpInsn(IFNE, gotoReturn), VarInsn(ALOAD, 0), TypeInsn(CHECKCAST, FETCHGROUP_TRACKER), VarInsn(ALOAD, 1),
        MethodInsn(INVOKESTATIC, ENTITY_MANAGER_IMPL, process, UNFETCHED_DESC, false)];
      assert code == CheckFetchedTest(cd, process);
      code := code + [LabelMark(gotoReturn)] + [Insn(RETURN)];
      cv.VisitMethod(MethodDecl(Public, name, STRING_ARG_DESC, code));
    }

    /** `addFetchGroupMethods`: the FetchGroupTracker implementation, in the source's order. */
    method AddFetchGroupMethods(cd: ClassDetails)
      modifies cv
      ensures cv.out == old(cv.out).(methods := old(cv.out).methods + FetchGroupMethods(cd))
    {
      var c := cd.className;
      AddFieldReader(c, "_persistence_getSession", SESSION_FIELD, SESSION_SIGNATURE, ARETURN);
      AddFieldWriter(c, "_persistence_setSession", SESSION_FIELD, SESSION_SIGNATURE, ALOAD);
      AddFieldReader(c, "_persistence_getFetchGroup", FETCHGROUP_FIELD, FETCHGROUP_SIGNATURE, ARETURN);
      AddFieldWriter(c, "_persistence_setFetchGroup", FETCHGROUP_FIELD, FETCHGROUP_SIGNATURE, ALOAD);
      AddFieldReader(c, "_persistence_shouldRefreshFetchGroup", REFRESH_FIELD, PBOOLEAN_SIGNATURE, IRETURN);
      AddFieldWriter(c, "_persistence_setShouldRefreshFetchGroup", REFRESH_FIELD, PBOOLEAN_SIGNATURE, ILOAD);
      cv.VisitMethod(MethodDecl(Public, "_persistence_resetFetchGroup", VOID_DESC, [Insn(RETURN)]));
      // return fetchGroup == null || fetchGroup.containsAttributeInternal(attribute);
      var gotoTrue, gotoFalse, gotoReturn: Label := 0, 1, 2;
      var fetched := [VarInsn(ALOAD, 0), FieldInsn(GETFIELD, c, FETCHGROUP_FIELD, FETCHGROUP_SIGNATURE), JumpInsn(IFNULL, gotoTrue),
        VarInsn(ALOAD, 0), FieldInsn(GETFIELD, c, FETCHGROUP_FIELD, FETCHGROUP_SIGNATURE), VarInsn(ALOAD, 1),
        MethodInsn(INVOKEVIRTUAL, FETCHGROUP, "containsAttributeInternal", STRING_TEST_DESC, false), JumpInsn(IFEQ, gotoFalse)];
      assert fetched == IsFetchedTests(cd);
      var results := [Insn(ICONST_1), JumpInsn(GOTO, gotoReturn)] + [LabelMark(gotoFalse)] + ([Insn(ICONST_0)] + [LabelMark(gotoReturn)] + [Insn(IRETURN)]);
      fetched := fetched + [LabelMark(gotoTrue)] + results;
      cv.VisitMethod(MethodDecl(Public, IS_ATTRIBUTE_FETCHED, STRING_TEST_DESC, fetched));
      AddCheckFetched(cd, CHECK_FETCHED, "processUnfetchedAttribute");
      AddCheckFetched(cd, CHECK_FETCHED_FOR_SET, "processUnfetchedAttributeForSet");
    }
  

    // ---------------------------------------------------------------- visitEnd

    /**
     * `visitEnd`: unless the class was woven already, the internal members,
     * the members of every attribute declared in the class, the listener
     * and the fetch-group members; then, woven already or not, the REST
     * members of a root; last the end of the class is passed on. The flags
     * record which kinds of weaving took place.
     */
    method VisitEnd()
      modifies this, cv
      ensures classDetails == old(classDetails) && alreadyWeaved == old(alreadyWeaved)
      ensures cv.out == old(cv.out).(fields := old(cv.out).fields + EndFields(old(classDetails), alreadyWeaved, jaxbOnPath),
                                     methods := old(cv.out).methods + EndMethods(old(classDetails), alreadyWeaved),
                                     ended := true)
      ensures var cd, w := old(classDetails), !alreadyWeaved;
        && weaved == (old(weaved) || (w && (HasLazy(cd.attributes) || HasAccess(cd, cd.attributes)
                                            || cd.shouldWeaveChangeTracking || cd.shouldWeaveFetchGroups)))
        && weavedLazy == (old(weavedLazy) || (w && HasLazy(cd.attributes)))
        && weavedPersistenceEntity == (old(weavedPersistenceEntity) || (w && cd.shouldWeaveInternal && cd.IsRoot() && !cd.isEmbedable))
        && weavedChangeTracker == (old(weavedChangeTracker) || (w && cd.shouldWeaveChangeTracking))
        && weavedFetchGroups == (old(weavedFetchGroups) || (w && cd.shouldWeaveFetchGroups))
        && weavedRest == (old(weavedRest) || (cd.shouldWeaveREST && cd.IsRoot()))
    {
      var entity, lazy, attributeAccess := WeaveEnd();
      RecordWeaving(entity, lazy, attributeAccess);
      cv.VisitEnd();
    }

    /**
     * The members `visitEnd` adds, in order; says whether the entity
     * members were added, some attribute is lazy and some attribute got the
     * field-access accessors.
     */
    method WeaveEnd() returns (entity: bool, lazy: bool, attributeAccess: bool)
      modifies cv
      ensures var cd, w := old(classDetails), !alreadyWeaved;
        && entity == (w && cd.shouldWeaveInternal && cd.IsRoot() && !cd.isEmbedable)
        && lazy == (w && HasLazy(cd.attributes)) && attributeAccess == (w && HasAccess(cd, cd.attributes))
      ensures cv.out == old(cv.out).(fields := old(cv.out).fields + EndFields(old(classDetails), alreadyWeaved, jaxbOnPath),
                                     methods := old(cv.out).methods + EndMethods(old(classDetails), alreadyWeaved))
    {
      var cd := classDetails;
      entity, lazy, attributeAccess := false, false, false;
      if !alreadyWeaved {
        entity, lazy, attributeAccess := WeaveClass();
      }
      WeaveRest(cd);
      if !alreadyWeaved {
        AppendAssoc(old(cv.out).fields, GuardedFields(cd, jaxbOnPath), RestBlockFields(cd));
        AppendAssoc(old(cv.out).methods, GuardedMethods(cd), RestBlockMethods(cd));
      }
    }

    /** The flags `visitEnd` sets, from what it added. */
    method RecordWeaving(entity: bool, lazy: bool, attributeAccess: bool)
      modifies this`weaved, this`weavedLazy, this`weavedPersistenceEntity, this`weavedChangeTracker, this`weavedFetchGroups, this`weavedRest
      ensures var cd, w := classDetails, !alreadyWeaved;
        && weaved == (old(weaved) || (w && (lazy || attributeAccess || cd.shouldWeaveChangeTracking || cd.shouldWeaveFetchGroups)))
        && weavedLazy == (old(weavedLazy) || (w && lazy))
        && weavedPersistenceEntity == (old(weavedPersistenceEntity) || (w && entity))
        && weavedChangeTracker == (old(weavedChangeTracker) || (w && cd.shouldWeaveChangeTracking))
        && weavedFetchGroups == (old(weavedFetchGroups) || (w && cd.shouldWeaveFetchGroups))
        && weavedRest == (old(weavedRest) || (cd.shouldWeaveREST && cd.IsRoot()))
    {
      var cd := classDetails;
      if !alreadyWeaved {
        if entity {
          weavedPersistenceEntity := true;
        }
        if lazy {
          weaved := true;
          weavedLazy := true;
        }
        if attributeAccess {
          weaved := true;
        }
        if cd.shouldWeaveChangeTracking {
          weaved := true;
          weavedChangeTracker := true;
        }
        if cd.shouldWeaveFetchGroups {
          weaved := true;
          weavedFetchGroups := true;
        }
      }
      if cd.shouldWeaveREST && cd.IsRoot() {
        weavedRest := true;
      }
    }

    /**
     * The members `visitEnd` adds to a class not woven yet, block by block;
     * says whether the entity members were added, some attribute is lazy
     * and some attribute got the field-access accessors.
     */
    method WeaveClass() returns (entity: bool, lazy: bool, attributeAccess: bool)
      modifies cv
      ensures var cd := old(classDetails);
        && entity == (cd.shouldWeaveInternal && cd.IsRoot() && !cd.isEmbedable)
        && lazy == HasLazy(cd.attributes) && attributeAccess == HasAccess(cd, cd.attributes)
      ensures cv.out == old(cv.out).(fields := old(cv.out).fields + GuardedFields(old(classDetails), jaxbOnPath),
                                     methods := old(cv.out).methods + GuardedMethods(old(classDetails)))
    {
      var cd := classDetails;
      entity := WeaveInternal(cd);
      ghost var out1 := cv.out;
      lazy, attributeAccess := WeaveAttributes(cd);
      ghost var out2 := cv.out;
      WeaveTracked(attributeAccess);
      AppendAssoc(old(cv.out).fields, InternalFields(cd), AttributesFields(cd, jaxbOnPath, cd.attributes));
      AppendAssoc(old(cv.out).methods, InternalMethods(cd), AttributesMethods(cd, cd.attributes));
      AppendAssoc(old(cv.out).fields, InternalFields(cd) + AttributesFields(cd, jaxbOnPath, cd.attributes), TrackingFields(cd) + GroupFields(cd, jaxbOnPath));
      AppendAssoc(old(cv.out).methods, InternalMethods(cd) + AttributesMethods(cd, cd.attributes), TrackingMethods(cd) + GroupMethods(cd));
      AppendAssoc(InternalFields(cd) + AttributesFields(cd, jaxbOnPath, cd.attributes), TrackingFields(cd), GroupFields(cd, jaxbOnPath));
      AppendAssoc(InternalMethods(cd) + AttributesMethods(cd, cd.attributes), TrackingMethods(cd), GroupMethods(cd));
    }

    /** The change-tracking and fetch-group blocks of `visitEnd`. */
    method WeaveTracked(attributeAccess: bool)
      modifies cv
      ensures var cd := old(classDetails);
        cv.out == old(cv.out).(fields := old(cv.out).fields + (TrackingFields(cd) + GroupFields(cd, jaxbOnPath)),
                               methods := old(cv.out).methods + (TrackingMethods(cd) + GroupMethods(cd)))
    {
      var cd := classDetails;
      if cd.shouldWeaveChangeTracking {
        WeaveListener(cd, attributeAccess);
      }
      if cd.shouldWeaveFetchGroups {
        if cd.IsRoot() {
          AddFetchGroupVariables();
          AddFetchGroupMethods(cd);
        }
      }
      AppendAssoc(old(cv.out).fields, TrackingFields(cd), GroupFields(cd, jaxbOnPath));
      AppendAssoc(old(cv.out).methods, TrackingMethods(cd), GroupMethods(cd));
    }

    /** The REST block of `visitEnd`, which a class woven already gets as well. */
    method WeaveRest(cd: ClassDetails)
      modifies cv
      ensures cv.out == old(cv.out).(fields := old(cv.out).fields + RestBlockFields(cd), methods := old(cv.out).methods + RestBlockMethods(cd))
    {
      if cd.shouldWeaveREST && cd.IsRoot() {
        AddPersistenceRestVariables();
        AddPersistenceRestMethods(cd);
      }
    }

    /** The `shouldWeaveInternal` block of `visitEnd`; says whether the entity members were added. */
    method WeaveInternal(cd: ClassDetails) returns (entity: bool)
      modifies cv
      ensures entity == (cd.shouldWeaveInternal && cd.IsRoot() && !cd.isEmbedable)
      ensures cv.out == old(cv.out).(fields := old(cv.out).fields + InternalFields(cd), methods := old(cv.out).methods + InternalMethods(cd))
    {
      entity := false;
      if cd.shouldWeaveInternal {
        AddPersistencePostClone(cd);
        entity := WeaveRoot(cd);
        WeaveFactory(cd);
        var hook, root, tail := [PostCloneMethod(cd)], RootBlockMethods(cd), PersistenceNewMethods(cd) + GenericAccessMethods(cd);
        AppendAssoc(old(cv.out).methods, hook, root);
        AppendAssoc(old(cv.out).methods, hook + root, tail);
      }
    }

    /** The clone and entity members of a root, in `visitEnd`; says whether the entity members were added. */
    method WeaveRoot(cd: ClassDetails) returns (entity: bool)
      modifies cv
      ensures entity == (cd.IsRoot() && !cd.isEmbedable)
      ensures cv.out == old(cv.out).(fields := old(cv.out).fields + RootBlockFields(cd), methods := old(cv.out).methods + RootBlockMethods(cd))
    {
      entity := false;
      if cd.IsRoot() {
        AddShallowClone(cd);
        if !cd.isEmbedable {
          AddPersistenceEntityVariables();
          AddPersistenceEntityMethods(cd);
          entity := true;
        }
      }
    }

    /** The factory and the generic dispatchers, in `visitEnd`. */
    method WeaveFactory(cd: ClassDetails)
      modifies cv
      ensures cv.out == old(cv.out).(methods := old(cv.out).methods + (PersistenceNewMethods(cd) + GenericAccessMethods(cd)))
    {
      AddPersistenceNew(cd);
      AddPersistenceGetSet(cd);
    }

    /** One turn of the attribute loop of `visitEnd`; says whether the holder and the accessors were added. */
    method WeaveAttribute(cd: ClassDetails, a: AttributeDetails) returns (lazy: bool, access: bool)
      modifies cv
      ensures lazy == (a.IsLocal() && a.weaveValueHolders)
      ensures access == (a.IsLocal() && WeavesFieldAccess(cd, a))
      ensures cv.out == old(cv.out).(fields := old(cv.out).fields + AttributeFields(cd, jaxbOnPath, a),
                                     methods := old(cv.out).methods + AttributeMethods(cd, a))
    {
      lazy, access := false, false;
      if a.IsLocal() {
        ghost var out0 := cv.out;
        if a.weaveValueHolders {
          lazy := true;
          WeaveHolder(cd, a);
        }
        ghost var out1 := cv.out;
        if cd.shouldWeaveChangeTracking || cd.shouldWeaveFetchGroups || a.weaveValueHolders {
          if a.hasField {
            WeaveAccess(cd, a);
            access := true;
          }
        }
      }
    }

    /** The value holder of a lazy attribute and its initializer, getter and setter. */
    method WeaveHolder(cd: ClassDetails, a: AttributeDetails)
      modifies cv
      ensures cv.out == old(cv.out).(fields := old(cv.out).fields + [ValueHolderField(a, jaxbOnPath)],
                                     methods := old(cv.out).methods + [InitializerMethod(cd, a), HolderGetterMethod(cd, a), HolderSetterMethod(cd, a)])
    {
      AddValueHolder(a);
      AddInitializerForValueHolder(cd, a);
      AddGetterMethodForValueHolder(cd, a);
      AddSetterMethodForValueHolder(cd, a);
    }

    /** The field-access getter and setter of an attribute. */
    method WeaveAccess(cd: ClassDetails, a: AttributeDetails)
      modifies cv
      ensures cv.out == old(cv.out).(methods := old(cv.out).methods + [FieldGetterMethod(cd, a), FieldSetterMethod(cd, a)])
    {
      AddGetterMethodForFieldAccess(cd, a);
      AddSetterMethodForFieldAccess(cd, a);
    }

    /** The attribute loop of `visitEnd`, over the attributes in map order. */
    method WeaveAttributes(cd: ClassDetails) returns (lazy: bool, attributeAccess: bool)
      modifies cv
      ensures lazy == HasLazy(cd.attributes) && attributeAccess == HasAccess(cd, cd.attributes)
      ensures cv.out == old(cv.out).(fields := old(cv.out).fields + AttributesFields(cd, jaxbOnPath, cd.attributes),
                                     methods := old(cv.out).methods + AttributesMethods(cd, cd.attributes))
    {
      var attrs := cd.attributes;
      lazy, attributeAccess := false, false;
      var i := 0;
      while i < |attrs|
        invariant 0 <= i <= |attrs|
        invariant lazy == HasLazy(attrs[..i]) && attributeAccess == HasAccess(cd, attrs[..i])
        invariant cv.out.header == old(cv.out).header && cv.out.ended == old(cv.out).ended
        invariant cv.out.fields == old(cv.out).fields + AttributesFields(cd, jaxbOnPath, attrs[..i])
        invariant cv.out.methods == old(cv.out).methods + AttributesMethods(cd, attrs[..i])
      {
        var l, f := WeaveAttribute(cd, attrs[i]);
        AttributeStep(cd, jaxbOnPath, attrs, i, old(cv.out), cv.out, lazy, attributeAccess, l, f);
        lazy := lazy || l;
        attributeAccess := attributeAccess || f;
        i := i + 1;
      }
      assert attrs[..i] == attrs;
    }

    /** One turn of the attribute loop: the attribute's members follow those of the attributes before it. */
    static lemma AttributeStep(cd: ClassDetails, jaxbOnPath: bool, attrs: seq<AttributeDetails>, i: nat,
                               start: ClassFile, now: ClassFile, lazy: bool, access: bool, l: bool, f: bool)
      requires i < |attrs|
      requires lazy == HasLazy(attrs[..i]) && access == HasAccess(cd, attrs[..i])
      requires l == (attrs[i].IsLocal() && attrs[i].weaveValueHolders)
      requires f == (attrs[i].IsLocal() && WeavesFieldAccess(cd, attrs[i]))
      requires now.fields == start.fields + AttributesFields(cd, jaxbOnPath, attrs[..i]) + AttributeFields(cd, jaxbOnPath, attrs[i])
      requires now.methods == start.methods + AttributesMethods(cd, attrs[..i]) + AttributeMethods(cd, attrs[i])
      ensures (lazy || l) == HasLazy(attrs[..i + 1]) && (access || f) == HasAccess(cd, attrs[..i + 1])
      ensures now.fields == start.fields + AttributesFields(cd, jaxbOnPath, attrs[..i + 1])
      ensures now.methods == start.methods + AttributesMethods(cd, attrs[..i + 1])
    {
      AttributesPrefix(cd, jaxbOnPath, attrs, i);
      AppendAssoc(start.fields, AttributesFields(cd, jaxbOnPath, attrs[..i]), AttributeFields(cd, jaxbOnPath, attrs[i]));
      AppendAssoc(start.methods, AttributesMethods(cd, attrs[..i]), AttributeMethods(cd, attrs[i]));
    }

    /** The listener members of `visitEnd`, for a class that weaves change tracking. */
    method WeaveListener(cd: ClassDetails, attributeAccess: bool)
      requires cd.shouldWeaveChangeTracking
      modifies cv
      ensures cv.out == old(cv.out).(fields := old(cv.out).fields + TrackingFields(cd), methods := old(cv.out).methods + TrackingMethods(cd))
    {
      if cd.IsRoot() || !cd.doesSuperclassWeaveChangeTracking {
        AddPropertyChangeListener(attributeAccess);
        AddGetPropertyChangeListener(cd);
        AddSetPropertyChangeListener(cd);
        AddPropertyChange(cd);
      }
    }
  }
}
