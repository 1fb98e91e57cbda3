# EclipseLink weaving, class-file version choice and canonical-model names

This project is a Dafny model of three parts of EclipseLink 2.7.13. Each part comes with proofs of what it promises.

- **`ClassWeaver`** is the ASM class visitor that turns a JPA entity class into a woven class.
  - `visit` scans the interfaces of the class for the `PersistenceWeaved` marker. A class that carries it is passed on unchanged. Any other class gets the marker and support interfaces that its `ClassDetails` call for, and its generic signature is extended with them.
  - `visitMethod` decides which existing methods a `MethodWeaver` rewrites.
  - `visitEnd` adds the synthetic members:
    - value holders and their initialiser, getter and setter;
    - field-access getters and setters;
    - the property-change listener;
    - the post-clone and shallow-clone hooks;
    - the factory `_persistence_new`;
    - the generic `_persistence_get`/`_persistence_set` dispatchers;
    - the entity, fetch-group and REST members.

  Every `add*` emitter is modelled down to the exact sequence of ASM visitor calls it makes, labels included. `wrapperFor` and `unwrapPrimitive` are modelled too.
- **`EclipseLinkASMClassWriter`** builds a table of the `V…` version fields of `Opcodes` and picks the class-file version for the running Java SE version. Its `visit` overload supplies that version.
- **`CanonicalModelProcessor`** has the name helpers of the canonical metamodel generator:
  - `getName`, `getPackage` and `getUnqualifiedType`, which writes into an import map as it recurses;
  - the list-building, sorting and writing part of `writeImportStatements`.

The modules follow the structure of the code:

| module | file | contents |
|---|---|---|
| `JavaLang` | `java_lang.dfy` | the `java.lang.String` operations the code relies on (`indexOf`, `lastIndexOf`, `trim`, `replace`, `compareTo`), plus `Option` and `Result` |
| `Asm` | `asm.dfy` | ASM's visitor calls as an instruction datatype; the `ClassWriter` that receives them; the branch discipline (`LabelsResolved`) the woven code keeps |
| `WeavingNames` | `weaving_names.dfy` | the names and descriptors the weaver uses, `wrapperFor` and the unwrap calls |
| `WeavingDetails` | `weaving_details.dfy` | `ClassDetails` and `AttributeDetails` as records of the flags the weaver queries |
| `WeavingInterfaces` | `weaving_interfaces.dfy` | the interfaces and the signature that `visit` produces |
| `WeavingCode`, `WeavingMembers` | `weaving_code.dfy`, `weaving_members.dfy` | the fields and method bodies each `add*` emitter produces, and their properties |
| `WeavingPlan`, `WeavingEnd`, `WeavingRender` | `weaving_plan.dfy`, `weaving_end.dfy`, `weaving_render.dfy` | which members `visitEnd` adds, in what order, and that every body it emits resolves its labels |
| `ClassWeaving` | `class_weaver.dfy` | the `ClassWeaver` class: its flags, `visit`, `visitMethod`, `visitEnd` and every `add*` method, each proved against the functions above |
| `AsmVersion` | `asm_version.dfy` | `getLatestOPCodeVersion` and the `EclipseLinkASMClassWriter` |
| `CanonicalModel` | `canonical_model.dfy` | the canonical-model helpers; the import map is a class updated in place |

## Model

| member | source | states |
|---|---|---|
| JavaLang.IndexOf | org/eclipse/persistence/internal/jpa/modelgen/CanonicalModelProcessor.java:447 | `indexOf` is -1 exactly when the character is absent; otherwise it is a position holding the character, with none before it |
| JavaLang.LastIndexOf | org/eclipse/persistence/internal/jpa/modelgen/CanonicalModelProcessor.java:448 | `lastIndexOf` is -1 exactly when the character is absent; otherwise it is a position holding the character, with none after it |
| JavaLang.ReplaceChar | org/eclipse/persistence/internal/jpa/modelgen/CanonicalModelProcessor.java:477 | `replace` keeps the length and changes exactly the occurrences of the old character |
| JavaLang.RemoveChar | org/eclipse/persistence/internal/libraries/asm/EclipseLinkASMClassWriter.java:74 | `replace("V", "")` leaves no `V` and keeps exactly the other characters; their order is stated by RemoveCharAppend and RemoveCharSingle |
| JavaLang.RemoveCharAppend | org/eclipse/persistence/internal/libraries/asm/EclipseLinkASMClassWriter.java:74 | removing a character from a concatenation removes it from each part and keeps the parts in order |
| JavaLang.RemoveCharSingle | org/eclipse/persistence/internal/libraries/asm/EclipseLinkASMClassWriter.java:74 | a single character is dropped exactly when it is the one removed; with RemoveCharAppend this fixes the result character by character |
| JavaLang.Trim | org/eclipse/persistence/internal/jpa/modelgen/CanonicalModelProcessor.java:473 | `trim` never lengthens the string; what it removes and keeps is stated by TrimEnds |
| JavaLang.TrimLeading | org/eclipse/persistence/internal/jpa/modelgen/CanonicalModelProcessor.java:473 | dropping leading blanks never lengthens the string; the full statement is TrimLeadingSuffix |
| JavaLang.TrimTrailing | org/eclipse/persistence/internal/jpa/modelgen/CanonicalModelProcessor.java:473 | dropping trailing blanks never lengthens the string; the full statement is TrimTrailingPrefix |
| JavaLang.TrimLeadingSuffix | org/eclipse/persistence/internal/jpa/modelgen/CanonicalModelProcessor.java:473 | dropping leading blanks removes a prefix of characters `<= ' '` only and leaves a suffix that does not start with one |
| JavaLang.TrimTrailingPrefix | org/eclipse/persistence/internal/jpa/modelgen/CanonicalModelProcessor.java:473 | dropping trailing blanks removes a suffix of characters `<= ' '` only and leaves a prefix that does not end with one |
| JavaLang.TrimEnds | org/eclipse/persistence/internal/jpa/modelgen/CanonicalModelProcessor.java:473 | `trim` returns a contiguous middle piece of the string with no character `<= ' '` at either end, and every character it removes before or after that piece is `<= ' '` |
| JavaLang.CompareToAntisymmetric | org/eclipse/persistence/internal/jpa/modelgen/CanonicalModelProcessor.java:556 | `a.compareTo(b)` is the negation of `b.compareTo(a)` |
| JavaLang.CompareToZero | org/eclipse/persistence/internal/jpa/modelgen/CanonicalModelProcessor.java:556 | `compareTo` is 0 exactly for equal strings |
| JavaLang.StringLeTotal | org/eclipse/persistence/internal/jpa/modelgen/CanonicalModelProcessor.java:556 | the string order used by the sort is total |
| JavaLang.StringLeTransitive | org/eclipse/persistence/internal/jpa/modelgen/CanonicalModelProcessor.java:556 | the string order used by the sort is transitive |
| Asm.ClassWriter.constructor | org/eclipse/persistence/internal/jpa/weaving/ClassWeaver.java:210-213 | the writer the weaver forwards to starts with no header, no members and not ended |
| Asm.ClassWriter.Visit | org/eclipse/persistence/internal/jpa/weaving/ClassWeaver.java:1336 | `cv.visit` records the header and changes nothing else |
| Asm.ClassWriter.VisitField | org/eclipse/persistence/internal/jpa/weaving/ClassWeaver.java:224-235 | `cv.visitField` appends one field, with its annotations, after those already visited |
| Asm.ClassWriter.VisitMethod | org/eclipse/persistence/internal/jpa/weaving/ClassWeaver.java:257-261 | `cv.visitMethod` appends one method, with its code, after those already visited |
| Asm.ClassWriter.VisitEnd | org/eclipse/persistence/internal/jpa/weaving/ClassWeaver.java:1446 | `cv.visitEnd` marks the class ended and changes nothing else |
| WeavingNames.WrapperFor | org/eclipse/persistence/internal/jpa/weaving/ClassWeaver.java:132-151 | `wrapperFor` returns a class under `java/lang/` exactly for the eight primitive sorts, and null for every other sort |
| WeavingNames.UnwrapMethod | org/eclipse/persistence/internal/jpa/weaving/ClassWeaver.java:158-185 | `unwrapPrimitive` emits an `xxxValue()` call exactly for the primitive sorts |
| WeavingNames.AffixCancel | org/eclipse/persistence/internal/jpa/weaving/ClassWeaver.java:100-102 | a name built as prefix + attribute + suffix determines the attribute |
| WeavingNames.NamesInjective | org/eclipse/persistence/internal/jpa/weaving/ClassWeaver.java:100-102 | two distinct attributes never share a holder field, an initialiser, a holder getter or setter, or a field getter or setter |
| WeavingNames.GettersAreNotSetters | org/eclipse/persistence/internal/jpa/weaving/ClassWeaver.java:96-97 | a woven getter never has the name of a woven setter or of a generic dispatcher, whatever the attributes |
| WeavingDetails.Dispatched | org/eclipse/persistence/internal/jpa/weaving/ClassWeaver.java:920-921 | the dispatchers test exactly the attributes declared in the class that are not virtual |
| WeavingDetails.Lazy | org/eclipse/persistence/internal/jpa/weaving/ClassWeaver.java:743-745 | the post-clone hook clones the holders of exactly the attributes that weave value holders |
| WeavingDetails.Names | org/eclipse/persistence/internal/jpa/weaving/ClassWeaver.java:920-924 | the attribute names, position by position |
| WeavingInterfaces.ScannedPrefix | org/eclipse/persistence/internal/jpa/weaving/ClassWeaver.java:1202-1215 | the scan of `visit` covers a prefix of the interfaces; the prefix holds no marker, and it ends at the first marker or at the end |
| WeavingInterfaces.ScannedPrefixIs | org/eclipse/persistence/internal/jpa/weaving/ClassWeaver.java:1202-1207 | the scan stops exactly at the first `PersistenceWeaved`, or at the end |
| WeavingInterfaces.ScannedDetails | org/eclipse/persistence/internal/jpa/weaving/ClassWeaver.java:1208-1211 | change tracking stays on exactly when it was on and no `ChangeTracker` precedes the marker; the rest of the descriptor is untouched |
| WeavingInterfaces.AppendConditions | org/eclipse/persistence/internal/jpa/weaving/ClassWeaver.java:1216-1278 | there is one condition per appendable interface |
| WeavingInterfaces.Pick | org/eclipse/persistence/internal/jpa/weaving/ClassWeaver.java:1280-1322 | filling only the slots whose condition holds never adds more than the candidates |
| WeavingInterfaces.PickSpec | org/eclipse/persistence/internal/jpa/weaving/ClassWeaver.java:1280-1322 | from distinct candidates, an interface is appended exactly when its condition holds; nothing else is appended, and nothing is appended twice |
| WeavingInterfaces.AppendableDistinct | org/eclipse/persistence/internal/jpa/weaving/ClassWeaver.java:47-90 | the ten appendable interface names are pairwise different |
| WeavingInterfaces.AddedInterfacesPick | org/eclipse/persistence/internal/jpa/weaving/ClassWeaver.java:1216-1322 | the index bookkeeping of `visit` fills, in order, exactly the appendable interfaces whose condition holds |
| WeavingInterfaces.AddedInterfacesConditions | org/eclipse/persistence/internal/jpa/weaving/ClassWeaver.java:1216-1322 | each of Cloneable, PersistenceWeaved, PersistenceEntity, PersistenceObject, FetchGroupTracker, the fetch-group, lazy and change-tracking markers, ChangeTracker and the REST marker is appended exactly under its condition and at most once; nothing else is appended |
| WeavingInterfaces.SignatureSuffix | org/eclipse/persistence/internal/jpa/weaving/ClassWeaver.java:1330-1332 | each appended interface contributes at least the two characters `L` and `;` |
| WeavingInterfaces.SignatureSuffixSnoc | org/eclipse/persistence/internal/jpa/weaving/ClassWeaver.java:1330-1332 | one more interface appends exactly its `L<name>;` |
| WeavingInterfaces.SignatureSuffixParses | org/eclipse/persistence/internal/jpa/weaving/ClassWeaver.java:1324-1334 | the appended signature reads back as exactly the interfaces it was built from (a round trip) |
| WeavingInterfaces.VisitedHeaderExtends | org/eclipse/persistence/internal/jpa/weaving/ClassWeaver.java:1199-1336 | a marked class is passed on unchanged; any other class keeps its interfaces as a prefix and gains the marker; nothing but the interfaces and the signature changes; a null signature stays null, and any other gains exactly the signatures of the appended interfaces |
| WeavingInterfaces.VisitIdempotent | org/eclipse/persistence/internal/jpa/weaving/ClassWeaver.java:1202-1207 | weaving twice gives the header of weaving once |
| WeavingInterfaces.UserChangeTracker | org/eclipse/persistence/internal/jpa/weaving/ClassWeaver.java:1208-1211 | a class implementing `ChangeTracker` itself gets change tracking switched off, and gains neither `ChangeTracker` nor the change-tracking marker |
| WeavingInterfaces.AddedWithoutTracking | org/eclipse/persistence/internal/jpa/weaving/ClassWeaver.java:1261-1271 | without change tracking, neither change-tracking interface is appended |
| WeavingInterfaces.CloneableOnce | org/eclipse/persistence/internal/jpa/weaving/ClassWeaver.java:1212-1219 | `Cloneable` is appended exactly when the class does not implement it already and weaves internal members at a root |
| WeavingCode.ValueHolderField | org/eclipse/persistence/internal/jpa/weaving/ClassWeaver.java:222-236 | the holder is a protected `_persistence_<attr>_vh` field of type `WeavedAttributeValueHolderInterface`; it is `@Transient` exactly when the holder must be transient, and `@XmlTransient` exactly then and when JAXB is present |
| WeavingCode.InitializerResolved | org/eclipse/persistence/internal/jpa/weaving/ClassWeaver.java:335-375 | the initialiser's only jump skips forward to its one label |
| WeavingCode.InitializerSeedsHolder | org/eclipse/persistence/internal/jpa/weaving/ClassWeaver.java:346-369 | the new holder is built from the field's value exactly when the attribute has a field; otherwise it is built empty |
| WeavingCode.HolderGetterResolved | org/eclipse/persistence/internal/jpa/weaving/ClassWeaver.java:386-444 | both jumps of the holder getter go forward to labels 0 and 1, each placed once |
| WeavingCode.HolderGetterInitialisesAndReturnsHolder | org/eclipse/persistence/internal/jpa/weaving/ClassWeaver.java:386-444 | the holder getter first calls the initialiser and ends by returning the holder field |
| WeavingCode.HolderSetterResolved | org/eclipse/persistence/internal/jpa/weaving/ClassWeaver.java:457-531 | every jump of the holder setter resolves; it places label 0 when there is a property setter, and labels 0 to 2 when there is none |
| WeavingCode.HolderSetterStoresHolder | org/eclipse/persistence/internal/jpa/weaving/ClassWeaver.java:457-531 | the holder setter first stores its argument into the holder; it loads `null` (to clear the attribute's field) exactly when there is no property setter |
| WeavingCode.ChangeNotice | org/eclipse/persistence/internal/jpa/weaving/ClassWeaver.java:559-615 | the change notice ends with the call to `_persistence_propertyChange` |
| WeavingCode.ChangeNoticeArguments | org/eclipse/persistence/internal/jpa/weaving/ClassWeaver.java:559-615 | the event carries the name, then the current value, then the argument; a primitive attribute boxes both values in its `wrapperFor` class |
| WeavingCode.FieldSetterOrder | org/eclipse/persistence/internal/jpa/weaving/ClassWeaver.java:542-655 | the setter is a prologue, then the store of its argument, then an epilogue ending in `return`; under fetch groups the prologue makes the fetch check, under change tracking it raises the change event, and for a lazy attribute the epilogue updates the holder |
| WeavingCode.FieldSetterNotifiesIffTracking | org/eclipse/persistence/internal/jpa/weaving/ClassWeaver.java:559-615 | the setter raises the change event exactly when change tracking is woven |
| WeavingCode.FieldSetterChecksIffFetchGroups | org/eclipse/persistence/internal/jpa/weaving/ClassWeaver.java:552-557 | the setter calls `_persistence_checkFetchedForSet` exactly when fetch groups are woven |
| WeavingCode.FieldGetterChecksThenReturns | org/eclipse/persistence/internal/jpa/weaving/ClassWeaver.java:667-708 | the getter makes the fetch check exactly under fetch groups and initialises the holder exactly for lazy attributes; it returns the field with its type's return opcode |
| WeavingMembers.AccessorPair | org/eclipse/persistence/internal/jpa/weaving/ClassWeaver.java:1012-1040 | each generated reader/writer pair reads and writes the same field at the same type, and neither body branches |
| WeavingMembers.PropertyChangeGuarded | org/eclipse/persistence/internal/jpa/weaving/ClassWeaver.java:289-326 | every jump resolves; a null listener and identical values both jump past the listener call; the event is built from `this` and the three arguments, in order |
| WeavingMembers.CloneBlockResolved | org/eclipse/persistence/internal/jpa/weaving/ClassWeaver.java:749-759 | a clone block's `IFNULL` jumps to the label it places once |
| WeavingMembers.CloneBlockStores | org/eclipse/persistence/internal/jpa/weaving/ClassWeaver.java:749-759 | a clone block stores only into its own holder field and makes no `invokespecial` call |
| WeavingMembers.CloneBlocksResolved | org/eclipse/persistence/internal/jpa/weaving/ClassWeaver.java:742-760 | the clone blocks of any list of lazy attributes, laid out one after another, resolve every jump |
| WeavingMembers.CloneBlocksStore | org/eclipse/persistence/internal/jpa/weaving/ClassWeaver.java:742-760 | laid out, the clone blocks write the holder of every attribute they cover, write only holder fields, and make no `invokespecial` call |
| WeavingMembers.PostCloneHoldersResolved | org/eclipse/persistence/internal/jpa/weaving/ClassWeaver.java:742-762 | the holder clones resolve every jump, store only into value-holder fields and make no `invokespecial` call; when value holders are woven, the holder of every lazy attribute is written |
| WeavingMembers.PostCloneTailPlain | org/eclipse/persistence/internal/jpa/weaving/ClassWeaver.java:763-790 | the super call and the clearing tail do not branch, and the tail makes no `invokespecial` call |
| WeavingMembers.PostCloneResolved | org/eclipse/persistence/internal/jpa/weaving/ClassWeaver.java:730-791 | every jump of the post-clone hook reaches a later label placed once |
| WeavingMembers.PostCloneCallsSuperFirst | org/eclipse/persistence/internal/jpa/weaving/ClassWeaver.java:736-740 | the hook calls `super._persistence_post_clone` exactly when the superclass weaves internal members, as its first call, and returns `this` |
| WeavingMembers.PostCloneStores | org/eclipse/persistence/internal/jpa/weaving/ClassWeaver.java:763-783 | outside the value holders, the hook stores into exactly the cleared references |
| WeavingMembers.PostCloneClearsListener | org/eclipse/persistence/internal/jpa/weaving/ClassWeaver.java:763-768 | the listener is cleared exactly under change tracking |
| WeavingMembers.PostCloneClearsFetchGroup | org/eclipse/persistence/internal/jpa/weaving/ClassWeaver.java:769-777 | the fetch group is cleared exactly under fetch groups |
| WeavingMembers.PostCloneClearsSession | org/eclipse/persistence/internal/jpa/weaving/ClassWeaver.java:769-777 | the session is cleared exactly under fetch groups |
| WeavingMembers.PostCloneClearsPrimaryKey | org/eclipse/persistence/internal/jpa/weaving/ClassWeaver.java:779-784 | the primary key is cleared exactly for a class that is not embeddable |
| WeavingMembers.PersistenceNewMethods | org/eclipse/persistence/internal/jpa/weaving/ClassWeaver.java:868-903 | `_persistence_new(PersistenceObject)` returns `Object` and comes first; it creates an instance of the class itself (`NEW`, `DUP`, a constructor of the class, `ARETURN`), through `<init>(PersistenceObject)` with the factory argument exactly when the constructor optimisation is allowed and through `<init>()V` otherwise; the factory constructor `<init>(PersistenceObject)` is added exactly when the constructor optimisation is allowed, and it loads `this`, calls the superclass's factory constructor exactly when the class is not a root and `super()` exactly when it is, and returns |
| WeavingMembers.TestValuePlain | org/eclipse/persistence/internal/jpa/weaving/ClassWeaver.java:929-941 | the value part of a test does not branch, load a constant, or call `invokespecial` |
| WeavingMembers.GuardedValue | org/eclipse/persistence/internal/jpa/weaving/ClassWeaver.java:924-928 | a name test followed by a plain value part and its miss label resolves, and compares against that one name |
| WeavingMembers.TestResolved | org/eclipse/persistence/internal/jpa/weaving/ClassWeaver.java:920-944 | a single test resolves its jump at its own miss label and compares against exactly its attribute's name |
| WeavingMembers.TestsResolved | org/eclipse/persistence/internal/jpa/weaving/ClassWeaver.java:919-946 | the tests resolve every jump, place exactly labels 0 to n-1, make no `invokespecial` call, and compare against exactly the attribute names |
| WeavingMembers.FallThroughPlain | org/eclipse/persistence/internal/jpa/weaving/ClassWeaver.java:945-957 | a dispatcher's fall-through neither branches nor loads a constant |
| WeavingMembers.GenericAccessResolved | org/eclipse/persistence/internal/jpa/weaving/ClassWeaver.java:915-1003 | every jump of both dispatchers reaches a later label placed once |
| WeavingMembers.GenericAccessDispatch | org/eclipse/persistence/internal/jpa/weaving/ClassWeaver.java:915-1003 | each dispatcher compares against exactly the names of the non-virtual attributes declared in the class, and passes unmatched names to the superclass's dispatcher exactly when the class is not a root |
| WeavingMembers.SetTestUnwraps | org/eclipse/persistence/internal/jpa/weaving/ClassWeaver.java:975-985 | a primitive attribute's set test casts to the wrapper and unwraps with the matching `xxxValue()`; any other attribute is cast to its own class |
| WeavingMembers.FetchGroupFields | org/eclipse/persistence/internal/jpa/weaving/ClassWeaver.java:1049-1063 | the fetch group, the refresh flag and the session, in that order; the fetch group is `@Transient` exactly under attribute access, and `@XmlTransient` exactly when JAXB is present |
| WeavingMembers.IsFetchedResultsResolved | org/eclipse/persistence/internal/jpa/weaving/ClassWeaver.java:1153-1159 | the two result branches resolve labels 1 and 2 |
| WeavingMembers.IsAttributeFetchedAnswers | org/eclipse/persistence/internal/jpa/weaving/ClassWeaver.java:1142-1161 | `_persistence_isAttributeFetched` resolves its three labels; a null fetch group jumps to the answer true, and a miss in the group to the answer false |
| WeavingMembers.CheckFetchedGuarded | org/eclipse/persistence/internal/jpa/weaving/ClassWeaver.java:1163-1189 | each fetch check resolves its one label, and its `IFNE` jump on the fetched test comes before the call to its processing hook |
| WeavingPlan.AttributeMembersOf | org/eclipse/persistence/internal/jpa/weaving/ClassWeaver.java:1383-1420 | the members added for an attribute are exactly those of its row of the table, for that attribute only |
| WeavingPlan.AttributesPlanMembers | org/eclipse/persistence/internal/jpa/weaving/ClassWeaver.java:1383-1420 | a per-attribute member is added exactly for an attribute of the map whose row holds |
| WeavingPlan.PlanParts | org/eclipse/persistence/internal/jpa/weaving/ClassWeaver.java:1360-1447 | a member is in the plan exactly when it is in one of its blocks |
| WeavingPlan.PlanAttributeMembers | org/eclipse/persistence/internal/jpa/weaving/ClassWeaver.java:1361-1420 | the holder members are added iff the attribute is declared in the class and lazy; the field accessors iff it is declared there, has a field, and change tracking, fetch groups or holders are woven; none of them for a class woven already |
| WeavingPlan.PlanClassParts | org/eclipse/persistence/internal/jpa/weaving/ClassWeaver.java:1360-1447 | a per-class member is added exactly when it is in the internal, change-tracking or fetch-group block of a class not woven yet, or in the REST block |
| WeavingPlan.PlanInternalMembers | org/eclipse/persistence/internal/jpa/weaving/ClassWeaver.java:1362-1378 | the clone, entity, factory and dispatcher members are added exactly when their rows hold |
| WeavingPlan.PlanTrackingMembers | org/eclipse/persistence/internal/jpa/weaving/ClassWeaver.java:1422-1431 | the listener members are added exactly under change tracking at a root, or below a superclass that does not track |
| WeavingPlan.PlanRootMembers | org/eclipse/persistence/internal/jpa/weaving/ClassWeaver.java:1432-1445 | the fetch-group members are added only at a root and not to a woven class; the REST members at a REST root, even for a woven class |
| WeavingPlan.PlanClassMembers | org/eclipse/persistence/internal/jpa/weaving/ClassWeaver.java:1360-1447 | `visitEnd` adds a per-class member exactly when its row of the table holds |
| WeavingRender.PlanSnoc | org/eclipse/persistence/internal/jpa/weaving/ClassWeaver.java:1360-1447 | one more member adds its fields and methods after those already added |
| WeavingRender.PlanAppend | org/eclipse/persistence/internal/jpa/weaving/ClassWeaver.java:1360-1447 | two blocks of members add their fields and methods in the order of the blocks |
| WeavingRender.FieldAccessStraight | org/eclipse/persistence/internal/jpa/weaving/ClassWeaver.java:542-708 | neither field-access accessor branches |
| WeavingRender.AccessorsResolved | org/eclipse/persistence/internal/jpa/weaving/ClassWeaver.java:1012-1040 | reader and writer bodies resolve trivially |
| WeavingRender.InternalMethodsResolved | org/eclipse/persistence/internal/jpa/weaving/ClassWeaver.java:730-1040 | every entity, factory and dispatcher method resolves its labels |
| WeavingRender.TrackingMethodsResolved | org/eclipse/persistence/internal/jpa/weaving/ClassWeaver.java:245-326 | every listener method resolves its labels |
| WeavingRender.FetchGroupMethodsResolved | org/eclipse/persistence/internal/jpa/weaving/ClassWeaver.java:1098-1190 | every fetch-group method resolves its labels |
| WeavingRender.RestMethodsResolved | org/eclipse/persistence/internal/jpa/weaving/ClassWeaver.java:793-833 | every REST method resolves its labels |
| WeavingRender.AttributeMethodsResolved | org/eclipse/persistence/internal/jpa/weaving/ClassWeaver.java:335-708 | every per-attribute method resolves its labels |
| WeavingRender.MemberMethodsResolved | org/eclipse/persistence/internal/jpa/weaving/ClassWeaver.java:222-1190 | every method any `add*` emitter adds resolves its labels |
| WeavingRender.PlanResolved | org/eclipse/persistence/internal/jpa/weaving/ClassWeaver.java:1360-1447 | every method of a list of members jumps only forward, to labels placed exactly once |
| WeavingEnd.FlagsMean | org/eclipse/persistence/internal/jpa/weaving/ClassWeaver.java:1383-1420 | the loop's `weavedLazy` and `attributeAccess` say whether some declared attribute is lazy, or gets the accessors |
| WeavingEnd.LazyDeclaresHolders | org/eclipse/persistence/internal/jpa/weaving/ClassWeaver.java:1394-1408 | a value-holder field is declared exactly when the loop sets `weavedLazy` |
| WeavingEnd.AttributesPrefix | org/eclipse/persistence/internal/jpa/weaving/ClassWeaver.java:1383-1420 | one more turn of the attribute loop appends that attribute's members and updates both flags |
| WeavingEnd.EntityRendered | org/eclipse/persistence/internal/jpa/weaving/ClassWeaver.java:1368-1372 | the entity rows add the entity fields and accessors |
| WeavingEnd.RootRendered | org/eclipse/persistence/internal/jpa/weaving/ClassWeaver.java:1366-1374 | the root rows add the shallow clone, then the entity members of a class that is not embeddable |
| WeavingEnd.HeadRendered | org/eclipse/persistence/internal/jpa/weaving/ClassWeaver.java:1364-1374 | the post-clone hook comes before the root members |
| WeavingEnd.TailRendered | org/eclipse/persistence/internal/jpa/weaving/ClassWeaver.java:1376-1377 | the factory, then the dispatchers |
| WeavingEnd.InternalRendered | org/eclipse/persistence/internal/jpa/weaving/ClassWeaver.java:1362-1378 | the internal rows add the internal block |
| WeavingEnd.HolderRendered | org/eclipse/persistence/internal/jpa/weaving/ClassWeaver.java:1404-1407 | the holder field, then its initialiser, getter and setter |
| WeavingEnd.AccessRendered | org/eclipse/persistence/internal/jpa/weaving/ClassWeaver.java:1412-1418 | the field-access getter, then the setter |
| WeavingEnd.AttributeRendered | org/eclipse/persistence/internal/jpa/weaving/ClassWeaver.java:1387-1419 | an attribute's rows add what one turn of the loop adds |
| WeavingEnd.AttributesRendered | org/eclipse/persistence/internal/jpa/weaving/ClassWeaver.java:1383-1420 | the per-attribute rows add what the whole loop adds, in map order |
| WeavingEnd.TrackingRendered | org/eclipse/persistence/internal/jpa/weaving/ClassWeaver.java:1422-1431 | the listener rows add the change-tracking block |
| WeavingEnd.GroupRendered | org/eclipse/persistence/internal/jpa/weaving/ClassWeaver.java:1432-1439 | the fetch-group rows add the fetch-group block |
| WeavingEnd.RestRendered | org/eclipse/persistence/internal/jpa/weaving/ClassWeaver.java:1441-1445 | the REST rows add the REST block |
| WeavingEnd.GuardedRendered | org/eclipse/persistence/internal/jpa/weaving/ClassWeaver.java:1361-1440 | the guarded rows add the blocks under the already-woven guard, in order |
| WeavingEnd.EndRendered | org/eclipse/persistence/internal/jpa/weaving/ClassWeaver.java:1360-1447 | the fields and methods `visitEnd` declares are exactly what the plan's members stand for, in the plan's order |
| WeavingEnd.EndResolved | org/eclipse/persistence/internal/jpa/weaving/ClassWeaver.java:1360-1447 | every method `visitEnd` declares branches only forward, to labels it places once |
| ClassWeaving.ClassInitializerWrapped | org/eclipse/persistence/internal/jpa/weaving/ClassWeaver.java:1347 | as written, the guard hands the class initializer `<clinit>` to a `MethodWeaver`; the intended guard does not |
| ClassWeaving.GuardsAgree | org/eclipse/persistence/internal/jpa/weaving/ClassWeaver.java:1345-1352 | apart from the class initializer, the written and the intended guard agree |
| ClassWeaving.ClassWeaver.constructor | org/eclipse/persistence/internal/jpa/weaving/ClassWeaver.java:210-213 | a weaver starts with its writer and descriptor, and with no flag set |
| ClassWeaving.ClassWeaver.Visit | org/eclipse/persistence/internal/jpa/weaving/ClassWeaver.java:1199-1337 | the descriptor becomes the scanned one; `alreadyWeaved` is set exactly when the marker is present, `weaved` exactly when it is absent, and no other flag changes; the header given to `cv` is the woven header |
| ClassWeaving.ClassWeaver.ScanInterfaces | org/eclipse/persistence/internal/jpa/weaving/ClassWeaver.java:1202-1215 | the scan finds the marker exactly when it is present; it reports a `ChangeTracker` exactly when one precedes the marker; without a marker, `weaveCloneable` holds exactly when there is no `Cloneable` |
| ClassWeaving.ClassWeaver.WovenHeader | org/eclipse/persistence/internal/jpa/weaving/ClassWeaver.java:1216-1336 | the header passed on keeps the interfaces, followed by the appended ones; the signature is extended by exactly those, and a null one stays null |
| ClassWeaving.ClassWeaver.AppendedInterfaces | org/eclipse/persistence/internal/jpa/weaving/ClassWeaver.java:1216-1322 | the index counters fill exactly the appendable interfaces whose condition holds, in order |
| ClassWeaving.ClassWeaver.ExtendSignature | org/eclipse/persistence/internal/jpa/weaving/ClassWeaver.java:1326-1334 | the `StringBuffer` loop appends `L<name>;` for each new interface |
| ClassWeaving.ClassWeaver.VisitMethod | org/eclipse/persistence/internal/jpa/weaving/ClassWeaver.java:1343-1355 | a method is wrapped exactly when the class is not woven yet and the method is neither a constructor nor the class initializer (the corrected guard) |
| ClassWeaving.ClassWeaver.AddValueHolder | org/eclipse/persistence/internal/jpa/weaving/ClassWeaver.java:222-236 | appends exactly the holder field |
| ClassWeaving.ClassWeaver.AddInitializerForValueHolder | org/eclipse/persistence/internal/jpa/weaving/ClassWeaver.java:335-375 | appends exactly the initialiser, with the body `WeavingCode.InitializerCode` |
| ClassWeaving.ClassWeaver.AddGetterMethodForValueHolder | org/eclipse/persistence/internal/jpa/weaving/ClassWeaver.java:386-444 | appends exactly the holder getter |
| ClassWeaving.ClassWeaver.AddSetterMethodForValueHolder | org/eclipse/persistence/internal/jpa/weaving/ClassWeaver.java:457-531 | appends exactly the holder setter, in both shapes |
| ClassWeaving.ClassWeaver.HolderSyncCode | org/eclipse/persistence/internal/jpa/weaving/ClassWeaver.java:562-577 | the holder synchronisation block of the field-access accessors |
| ClassWeaving.ClassWeaver.AddSetterMethodForFieldAccess | org/eclipse/persistence/internal/jpa/weaving/ClassWeaver.java:542-655 | appends exactly the field-access setter |
| ClassWeaving.ClassWeaver.AddGetterMethodForFieldAccess | org/eclipse/persistence/internal/jpa/weaving/ClassWeaver.java:667-708 | appends exactly the field-access getter |
| ClassWeaving.ClassWeaver.AddPropertyChangeListener | org/eclipse/persistence/internal/jpa/weaving/ClassWeaver.java:245-247 | appends exactly the transient listener field |
| ClassWeaving.ClassWeaver.AddGetPropertyChangeListener | org/eclipse/persistence/internal/jpa/weaving/ClassWeaver.java:256-262 | appends exactly the listener getter |
| ClassWeaving.ClassWeaver.AddSetPropertyChangeListener | org/eclipse/persistence/internal/jpa/weaving/ClassWeaver.java:272-279 | appends exactly the listener setter |
| ClassWeaving.ClassWeaver.AddPropertyChange | org/eclipse/persistence/internal/jpa/weaving/ClassWeaver.java:289-326 | appends exactly `_persistence_propertyChange` |
| ClassWeaving.ClassWeaver.HolderClones | org/eclipse/persistence/internal/jpa/weaving/ClassWeaver.java:742-762 | the loop over the attribute map emits one clone block per lazy attribute, each with a fresh label |
| ClassWeaving.ClassWeaver.AddPersistencePostClone | org/eclipse/persistence/internal/jpa/weaving/ClassWeaver.java:730-791 | appends exactly the post-clone hook |
| ClassWeaving.ClassWeaver.AddPersistenceEntityVariables | org/eclipse/persistence/internal/jpa/weaving/ClassWeaver.java:717-720 | appends exactly the transient primary-key and cache-key fields |
| ClassWeaving.ClassWeaver.AddShallowClone | org/eclipse/persistence/internal/jpa/weaving/ClassWeaver.java:847-857 | appends exactly `_persistence_shallow_clone` |
| ClassWeaving.ClassWeaver.AddPersistenceNew | org/eclipse/persistence/internal/jpa/weaving/ClassWeaver.java:868-903 | appends exactly the factory method and, when allowed, the factory constructor |
| ClassWeaving.ClassWeaver.AppendTest | org/eclipse/persistence/internal/jpa/weaving/ClassWeaver.java:920-944 | one turn of the dispatch loop places the pending miss label, then emits the next test, whose own miss label is left pending |
| ClassWeaving.ClassWeaver.TestValue | org/eclipse/persistence/internal/jpa/weaving/ClassWeaver.java:929-941 | the value part of a get test or a set test |
| ClassWeaving.ClassWeaver.DispatchTests | org/eclipse/persistence/internal/jpa/weaving/ClassWeaver.java:919-946 | the dispatch loop emits exactly the tests of the dispatched attributes, with the last miss label placed |
| ClassWeaving.ClassWeaver.DispatchLoop | org/eclipse/persistence/internal/jpa/weaving/ClassWeaver.java:919-944 | the loop proper: the tests so far, with the last miss label still pending |
| ClassWeaving.ClassWeaver.AddPersistenceGetSet | org/eclipse/persistence/internal/jpa/weaving/ClassWeaver.java:915-1003 | appends exactly the two dispatchers |
| ClassWeaving.ClassWeaver.AddFieldReader | org/eclipse/persistence/internal/jpa/weaving/ClassWeaver.java:1013-1017 | appends exactly one field reader |
| ClassWeaving.ClassWeaver.AddFieldWriter | org/eclipse/persistence/internal/jpa/weaving/ClassWeaver.java:1019-1024 | appends exactly one field writer |
| ClassWeaving.ClassWeaver.AddPersistenceEntityMethods | org/eclipse/persistence/internal/jpa/weaving/ClassWeaver.java:1012-1040 | appends exactly the id and cache-key accessors |
| ClassWeaving.ClassWeaver.AddPersistenceRestVariables | org/eclipse/persistence/internal/jpa/weaving/ClassWeaver.java:835-839 | appends exactly the three REST fields |
| ClassWeaving.ClassWeaver.AddPersistenceRestMethods | org/eclipse/persistence/internal/jpa/weaving/ClassWeaver.java:793-833 | appends exactly the six REST accessors |
| ClassWeaving.ClassWeaver.AddFetchGroupVariables | org/eclipse/persistence/internal/jpa/weaving/ClassWeaver.java:1049-1063 | appends exactly the three fetch-group fields |
| ClassWeaving.ClassWeaver.AddCheckFetched | org/eclipse/persistence/internal/jpa/weaving/ClassWeaver.java:1163-1189 | appends exactly one fetch check |
| ClassWeaving.ClassWeaver.AddFetchGroupMethods | org/eclipse/persistence/internal/jpa/weaving/ClassWeaver.java:1098-1190 | appends exactly the `FetchGroupTracker` methods, in the source's order |
| ClassWeaving.ClassWeaver.VisitEnd | org/eclipse/persistence/internal/jpa/weaving/ClassWeaver.java:1360-1447 | appends exactly the plan's fields and methods and ends the class; the flags record what was added; the descriptor and `alreadyWeaved` are unchanged |
| ClassWeaving.ClassWeaver.WeaveEnd | org/eclipse/persistence/internal/jpa/weaving/ClassWeaver.java:1361-1445 | the members of `visitEnd`, and whether entity, lazy and access members were added |
| ClassWeaving.ClassWeaver.RecordWeaving | org/eclipse/persistence/internal/jpa/weaving/ClassWeaver.java:1361-1445 | the `weaved*` flags `visitEnd` sets, as functions of the descriptor and the guard |
| ClassWeaving.ClassWeaver.WeaveClass | org/eclipse/persistence/internal/jpa/weaving/ClassWeaver.java:1362-1440 | the guarded blocks, in order |
| ClassWeaving.ClassWeaver.WeaveTracked | org/eclipse/persistence/internal/jpa/weaving/ClassWeaver.java:1422-1440 | the listener and fetch-group blocks |
| ClassWeaving.ClassWeaver.WeaveRest | org/eclipse/persistence/internal/jpa/weaving/ClassWeaver.java:1441-1445 | the REST block, outside the guard |
| ClassWeaving.ClassWeaver.WeaveInternal | org/eclipse/persistence/internal/jpa/weaving/ClassWeaver.java:1362-1378 | the internal block; the entity members are added exactly at a non-embeddable root |
| ClassWeaving.ClassWeaver.WeaveRoot | org/eclipse/persistence/internal/jpa/weaving/ClassWeaver.java:1366-1374 | the shallow clone and, for an entity, the entity members |
| ClassWeaving.ClassWeaver.WeaveFactory | org/eclipse/persistence/internal/jpa/weaving/ClassWeaver.java:1376-1377 | the factory, then the dispatchers |
| ClassWeaving.ClassWeaver.WeaveAttribute | org/eclipse/persistence/internal/jpa/weaving/ClassWeaver.java:1384-1419 | one attribute's members; whether it got a holder, and whether it got the accessors |
| ClassWeaving.ClassWeaver.WeaveHolder | org/eclipse/persistence/internal/jpa/weaving/ClassWeaver.java:1402-1407 | the holder field and its three methods |
| ClassWeaving.ClassWeaver.WeaveAccess | org/eclipse/persistence/internal/jpa/weaving/ClassWeaver.java:1413-1417 | the accessor getter, then the setter |
| ClassWeaving.ClassWeaver.WeaveAttributes | org/eclipse/persistence/internal/jpa/weaving/ClassWeaver.java:1383-1420 | the loop over the attribute map adds every attribute's members in map order; its flags say whether some declared attribute is lazy, or got the accessors |
| ClassWeaving.ClassWeaver.WeaveListener | org/eclipse/persistence/internal/jpa/weaving/ClassWeaver.java:1422-1431 | the listener members, when the class adds them |
| AsmVersion.VersionKeyOf | org/eclipse/persistence/internal/libraries/asm/EclipseLinkASMClassWriter.java:69-74 | the key of a version field is its name after the `V`, with `.` for `_` |
| AsmVersion.VersionKeyExamples | org/eclipse/persistence/internal/libraries/asm/EclipseLinkASMClassWriter.java:69-74 | `V1_8` has key `1.8`; `V1_10` and `V_PREVIEW` do not match the pattern |
| AsmVersion.VersionKeyInjective | org/eclipse/persistence/internal/libraries/asm/EclipseLinkASMClassWriter.java:73-74 | two version fields never share a key |
| AsmVersion.TableKeys | org/eclipse/persistence/internal/libraries/asm/EclipseLinkASMClassWriter.java:82 | the key set in insertion order lists every key of the map exactly once |
| AsmVersion.TableHas | org/eclipse/persistence/internal/libraries/asm/EclipseLinkASMClassWriter.java:72-76 | a key is in the table exactly when some field matching the pattern has it |
| AsmVersion.TableLastPut | org/eclipse/persistence/internal/libraries/asm/EclipseLinkASMClassWriter.java:74 | a key's value comes from the last field that put it |
| AsmVersion.TableKeysOfDistinctNames | org/eclipse/persistence/internal/libraries/asm/EclipseLinkASMClassWriter.java:72-76 | for distinct field names, the keys are those of the matching fields, in declaration order |
| AsmVersion.VersionTable | org/eclipse/persistence/internal/libraries/asm/EclipseLinkASMClassWriter.java:68-76 | the `put` loop builds exactly the table's order and mapping |
| AsmVersion.GetLatestOPCodeVersion | org/eclipse/persistence/internal/libraries/asm/EclipseLinkASMClassWriter.java:67-126 | the method returns the choice made from the table of the fields and the property read |
| AsmVersion.SelectedEmpty | org/eclipse/persistence/internal/libraries/asm/EclipseLinkASMClassWriter.java:82-83 | without a version field, `versions.get(0)` throws |
| AsmVersion.SelectedKnown | org/eclipse/persistence/internal/libraries/asm/EclipseLinkASMClassWriter.java:106 | a known version selects its own entry |
| AsmVersion.SelectedTooNew | org/eclipse/persistence/internal/libraries/asm/EclipseLinkASMClassWriter.java:107-114 | an unknown version that sorts after the latest key selects the latest entry |
| AsmVersion.SelectedTooOld | org/eclipse/persistence/internal/libraries/asm/EclipseLinkASMClassWriter.java:115-123 | any other unknown version selects the oldest entry |
| AsmVersion.SelectedDenied | org/eclipse/persistence/internal/libraries/asm/EclipseLinkASMClassWriter.java:87-104 | a refused property read leaves `oldest` in place, and its entry is chosen |
| AsmVersion.SelectedInTable | org/eclipse/persistence/internal/libraries/asm/EclipseLinkASMClassWriter.java:106-125 | with a version field present, the choice fails exactly when the property is unset; otherwise it is one of the table's values |
| AsmVersion.ThreeAfterTwentyOne | org/eclipse/persistence/internal/libraries/asm/EclipseLinkASMClassWriter.java:109 | as strings, `21` sorts before `3` |
| AsmVersion.TooNewIsStringOrder | org/eclipse/persistence/internal/libraries/asm/EclipseLinkASMClassWriter.java:109-114 | with latest key `21`, the unknown version `3` gets the latest entry, because the comparison is on strings |
| AsmVersion.EclipseLinkClassWriter.constructor | org/eclipse/persistence/internal/libraries/asm/EclipseLinkASMClassWriter.java:35-43 | the writer's `version` is the value `getLatestOPCodeVersion` chose, and it is one of the table's values |
| AsmVersion.EclipseLinkClassWriter.Visit | org/eclipse/persistence/internal/libraries/asm/EclipseLinkASMClassWriter.java:62-65 | the header is visited with the chosen version, and nothing else changes |
| CanonicalModel.NameRoundTrip | org/eclipse/persistence/internal/jpa/modelgen/CanonicalModelProcessor.java:446-463 | `getName` has no dot; for a qualified name, `getPackage(q) + "." + getName(q) == q`; without a dot, the name is the whole string and the package is empty |
| CanonicalModel.Normalized | org/eclipse/persistence/internal/jpa/modelgen/CanonicalModelProcessor.java:473-477 | trimming and replacing `$` never lengthen the type |
| CanonicalModel.ImportMap.constructor | org/eclipse/persistence/internal/jpa/modelgen/CanonicalModelProcessor.java:471 | a new import map is empty |
| CanonicalModel.GetUnqualifiedType | org/eclipse/persistence/internal/jpa/modelgen/CanonicalModelProcessor.java:471-526 | the recursive method returns, and leaves in the map, what `Unqualify` prescribes for the type and the old map |
| CanonicalModel.GetUnqualifiedQualified | org/eclipse/persistence/internal/jpa/modelgen/CanonicalModelProcessor.java:497-521 | the qualified-class branch, against its specification |
| CanonicalModel.GetUnqualifiedGeneric | org/eclipse/persistence/internal/jpa/modelgen/CanonicalModelProcessor.java:486-496 | the generic branch, against its specification, with the `substring` failure |
| CanonicalModel.GetUnqualifiedMap | org/eclipse/persistence/internal/jpa/modelgen/CanonicalModelProcessor.java:490-494 | the map branch: raw type, then key, then value, each seeing the imports left by the previous one |
| CanonicalModel.GetUnqualifiedList | org/eclipse/persistence/internal/jpa/modelgen/CanonicalModelProcessor.java:496 | the other generic branch: the raw type, then its argument |
| CanonicalModel.ImportsKept | org/eclipse/persistence/internal/jpa/modelgen/CanonicalModelProcessor.java:501-518 | an import, once collected, is never replaced or dropped |
| CanonicalModel.GenericImportsKept | org/eclipse/persistence/internal/jpa/modelgen/CanonicalModelProcessor.java:486-496 | the generic branch keeps every collected import |
| CanonicalModel.MapImportsKept | org/eclipse/persistence/internal/jpa/modelgen/CanonicalModelProcessor.java:490-494 | the map branch keeps every collected import |
| CanonicalModel.ListImportsKept | org/eclipse/persistence/internal/jpa/modelgen/CanonicalModelProcessor.java:496 | the other generic branch keeps every collected import |
| CanonicalModel.VoidIsGeneric | org/eclipse/persistence/internal/jpa/modelgen/CanonicalModelProcessor.java:479-482 | a type containing `void` gives `GENERIC_TYPE` and leaves the imports alone |
| CanonicalModel.JavaLangIsSimpleName | org/eclipse/persistence/internal/jpa/modelgen/CanonicalModelProcessor.java:483-484 | a `java.lang` type gives its simple name and leaves the imports alone |
| CanonicalModel.QualifiedType | org/eclipse/persistence/internal/jpa/modelgen/CanonicalModelProcessor.java:497-521 | a new short name is imported and returned; a short name imported with the same type is returned; a short name imported with another type gives the full type, and the imports are unchanged |
| CanonicalModel.UnqualifiedTypeKept | org/eclipse/persistence/internal/jpa/modelgen/CanonicalModelProcessor.java:522-523 | a type without a package is returned unchanged, and the imports are unchanged |
| CanonicalModel.OpenGenericFails | org/eclipse/persistence/internal/jpa/modelgen/CanonicalModelProcessor.java:488 | a `<` that ends the type makes `substring` throw, and the imports are unchanged |
| CanonicalModel.MapWithoutCommaFails | org/eclipse/persistence/internal/jpa/modelgen/CanonicalModelProcessor.java:491 | a map type without a comma in its arguments makes `substring` throw, and the imports are unchanged |
| CanonicalModel.StoredImportIsClassName | org/eclipse/persistence/internal/jpa/modelgen/CanonicalModelProcessor.java:512-518 | with the corrected test, the simple name of a stored import contains no `[` |
| CanonicalModel.OneLetterArrayAsWritten | org/eclipse/persistence/internal/jpa/modelgen/CanonicalModelProcessor.java:514 | as written, the one-letter array class `p.c[]` is stored with its `[]`; the corrected test stores `p.c` |
| CanonicalModel.Insert | org/eclipse/persistence/internal/jpa/modelgen/CanonicalModelProcessor.java:556 | insertion adds exactly the one element |
| CanonicalModel.InsertSorted | org/eclipse/persistence/internal/jpa/modelgen/CanonicalModelProcessor.java:556 | insertion keeps a sorted list sorted |
| CanonicalModel.SortStringsSorts | org/eclipse/persistence/internal/jpa/modelgen/CanonicalModelProcessor.java:556 | the sort gives an ascending permutation of its input |
| CanonicalModel.SortedHeadFirst | org/eclipse/persistence/internal/jpa/modelgen/CanonicalModelProcessor.java:556 | the head of a sorted list precedes every element |
| CanonicalModel.SortedUnique | org/eclipse/persistence/internal/jpa/modelgen/CanonicalModelProcessor.java:556 | two sorted permutations of the same strings are equal, so any correct sort gives the same list |
| CanonicalModel.WriteImportStatements | org/eclipse/persistence/internal/jpa/modelgen/CanonicalModelProcessor.java:531-565 | returns the parent's simple name exactly when the parent is managed; writes the sorted import list |
| CanonicalModel.CollectImports | org/eclipse/persistence/internal/jpa/modelgen/CanonicalModelProcessor.java:535-553 | the list before sorting: the collected imports, `StaticMetamodel`, and the parent when it is managed in another package |
| CanonicalModel.WriteImports | org/eclipse/persistence/internal/jpa/modelgen/CanonicalModelProcessor.java:559-563 | one `import X;` line per element, in order, then a blank line |
| CanonicalModel.ImportBlock | org/eclipse/persistence/internal/jpa/modelgen/CanonicalModelProcessor.java:531-565 | the written block lists, in ascending order, exactly the collected imports, the annotation, and a foreign managed parent, each as often as collected |
| CanonicalModel.TextIsLines | org/eclipse/persistence/internal/jpa/modelgen/CanonicalModelProcessor.java:559-563 | the written text is the import lines followed by the blank line |

## Left out

- The ASM library is not part of this model: `ClassVisitor`, `MethodVisitor`, `FieldVisitor`, `Label`, `Type` and frame computation. A visitor call is an `Asm.Instr` value, and a `Label` is a number allocated per method in creation order. `visitMaxs(0, 0)`, the `visitEnd` of field visitors, and the visibility flag of annotations are not recorded.
- `MethodWeaver` is not part of this model: `visitMethod` is reduced to whether it wraps the method.
- What the emitted code calls at run time is not modelled. This covers `ValueHolder`, `PropertyChangeListener`, `FetchGroup` and `EntityManagerImpl`; they appear only as call instructions.
- `ClassDetails` and `AttributeDetails` are not part of this model. They become immutable records of the flags the weaver queries. The attribute map becomes a sequence in its iteration order.
- `isJAXBOnPath()` is a field of the weaver, set by its constructor.
- `Helper` is not part of this model. The values of `PERSISTENCE_GET`/`PERSISTENCE_SET` (`_persistence_get_`, `_persistence_set_`) are taken from the generated code shown in the comments of ClassWeaver.java at 534 and 661.
- ClassWeaving.ClassWeaver.Visit: change tracking is switched off after the scan rather than during it. The descriptor is the same, because only interfaces before the marker are scanned.
- ClassWeaving.ClassWeaver.VisitEnd: the `weaved*` flags are set after the members are added (`RecordWeaving`) rather than between the `add*` calls. No emitter reads them.
- ClassWeaving.ClassWeaver.AddPropertyChangeListener: its `attributeAccess` argument is not used, as in the source.
- Reflection over `Opcodes`, `System.getProperty`, the security manager, `AccessController` and logging are environment access. The fields are a sequence of name/value pairs, and the property read is a `PropertyRead` value. The `RuntimeException` thrown on a reflection failure is not modelled.
- AsmVersion.EclipseLinkClassWriter.constructor: if `getLatestOPCodeVersion` throws, the static initialiser fails and no writer can be made. This is stated as the constructor's precondition, not modelled as an error value.
- `TypeVisitor` is not part of this model. `TypeVisitor.GENERIC_TYPE` is the parameter `genericType`.
- `writeImportStatements` takes the values of the `HashMap` in its iteration order, as the sequence `typeImports`. The metadata queries about the parent class become the inputs `parentManaged`, `qualifiedParent` and `childPackage`.
- The `Writer` of `writeImportStatements` is modelled as the sequence of strings appended to it. `IOException` is not modelled.
- `Collections.sort` is modelled by an insertion sort. `SortedUnique` shows that any sort giving an ascending permutation produces the same list.
- `String.trim` and `String.compareTo` work on Dafny characters, one per UTF-16 code unit.
- CanonicalModel.GetUnqualifiedType: stores imports with the corrected array test (`StoredImport`, `[` anywhere in the short name) instead of the source's `indexOf("[") > 1`; the test as written is kept as `StoredImportAsWritten` (see Findings).
- ClassWeaving.ClassWeaver.VisitMethod: wraps by the corrected guard (`Wraps`, which skips `<clinit>`) instead of the source's `"<cinit>"` test; the guard as written is kept as `WrapsAsWritten` (see Findings).
- The rest of `CanonicalModelProcessor` (annotation-processing plumbing, file output, timestamps, and the selection of attribute kinds from metadata) is I/O or depends on metadata classes that are not part of this model.

## Findings

| source | as written | input that shows it | evidently intended | confidence | as-written member | corrected member |
|---|---|---|---|---|---|---|
| org/eclipse/persistence/internal/jpa/weaving/ClassWeaver.java:1347 | the guard skips `<init>` and `"<cinit>"`, a name no JVM method has | the static initializer `<clinit>` of a class not yet woven is handed to a `MethodWeaver` | skip the constructors and the class initializer `<clinit>` | not executed | ClassWeaving.WrapsAsWritten, ClassWeaving.ClassInitializerWrapped | ClassWeaving.Wraps, ClassWeaving.ClassWeaver.VisitMethod |
| org/eclipse/persistence/internal/jpa/modelgen/CanonicalModelProcessor.java:514 | the array suffix is cut only when `shortClassName.indexOf("[") > 1` | `x.A[]`: the short name `A[]` has `[` at index 1, so the import stored is `x.A[]` | cut the suffix whenever `[` occurs (`> -1`), storing `x.A` | not executed | CanonicalModel.StoredImportAsWritten, CanonicalModel.OneLetterArrayAsWritten | CanonicalModel.StoredImport, CanonicalModel.StoredImportIsClassName |
