/**
 * The names and descriptors the class weaver writes into woven classes:
 * interface internal names, field and method names built from an
 * attribute's name, and the wrapper classes used to box primitives.
 * These names are load-bearing: the runtime looks the woven members up
 * by them.
 */
module WeavingNames {
  import opened JavaLang
  import opened Asm

  // Marker and support interfaces, as internal names.
  const PERSISTENCE_WEAVED := "org/eclipse/persistence/internal/weaving/PersistenceWeaved"
  const TW_LAZY := "org/eclipse/persistence/internal/weaving/PersistenceWeavedLazy"
  const TW_CT := "org/eclipse/persistence/internal/weaving/PersistenceWeavedChangeTracking"
  const CHANGE_TRACKER := "org/eclipse/persistence/descriptors/changetracking/ChangeTracker"
  const PERSISTENCE_ENTITY := "org/eclipse/persistence/internal/descriptors/PersistenceEntity"
  const PERSISTENCE_OBJECT := "org/eclipse/persistence/internal/descriptors/PersistenceObject"
  const WEAVED_FETCHGROUPS := "org/eclipse/persistence/internal/weaving/PersistenceWeavedFetchGroups"
  const FETCHGROUP_TRACKER := "org/eclipse/persistence/queries/FetchGroupTracker"
  const WEAVED_REST := "org/eclipse/persistence/internal/weaving/PersistenceWeavedRest"
  const CLONEABLE := "java/lang/Cloneable"

  // Classes the woven code refers to.
  const VH := "org/eclipse/persistence/indirection/ValueHolder"
  const VHI := "org/eclipse/persistence/indirection/WeavedAttributeValueHolderInterface"
  const PCL := "java/beans/PropertyChangeListener"
  const PCE := "java/beans/PropertyChangeEvent"
  const FETCHGROUP := "org/eclipse/persistence/queries/FetchGroup"
  const ENTITY_MANAGER_IMPL := "org/eclipse/persistence/internal/jpa/EntityManagerImpl"
  const JAVA_OBJECT := "java/lang/Object"

  // Descriptors.
  const VHI_SIGNATURE := "Lorg/eclipse/persistence/indirection/WeavedAttributeValueHolderInterface;"
  const PCL_SIGNATURE := "Ljava/beans/PropertyChangeListener;"
  const PCE_SIGNATURE := "Ljava/beans/PropertyChangeEvent;"
  const PERSISTENCE_OBJECT_SIGNATURE := "Lorg/eclipse/persistence/internal/descriptors/PersistenceObject;"
  const OBJECT_SIGNATURE := "Ljava/lang/Object;"
  const STRING_SIGNATURE := "Ljava/lang/String;"
  const CACHEKEY_SIGNATURE := "Lorg/eclipse/persistence/internal/identitymaps/CacheKey;"
  const FETCHGROUP_TRACKER_SIGNATURE := "Lorg/eclipse/persistence/queries/FetchGroupTracker;"
  const FETCHGROUP_SIGNATURE := "Lorg/eclipse/persistence/queries/FetchGroup;"
  const SESSION_SIGNATURE := "Lorg/eclipse/persistence/sessions/Session;"
  const PBOOLEAN_SIGNATURE := "Z"
  const LIST_SIGNATURE := "Ljava/util/List;"
  const LINK_SIGNATURE := "Lorg/eclipse/persistence/internal/jpa/rs/metadata/model/Link;"
  const ITEM_LINKS_SIGNATURE := "Lorg/eclipse/persistence/internal/jpa/rs/metadata/model/ItemLinks;"

  // Method descriptors used more than once.
  const VOID_DESC := "()V"
  const BOOL_DESC := "()Z"
  const OBJECT_RESULT_DESC := "()Ljava/lang/Object;"
  const STRING_ARG_DESC := "(Ljava/lang/String;)V"
  const STRING_TEST_DESC := "(Ljava/lang/String;)Z"
  const OBJECT_ARG_DESC := "(Ljava/lang/Object;)V"
  const PROPERTY_CHANGE_DESC := "(Ljava/lang/String;Ljava/lang/Object;Ljava/lang/Object;)V"
  const PCE_INIT_DESC := "(Ljava/lang/Object;Ljava/lang/String;Ljava/lang/Object;Ljava/lang/Object;)V"
  const GENERIC_GET_DESC := "(Ljava/lang/String;)Ljava/lang/Object;"
  const GENERIC_SET_DESC := "(Ljava/lang/String;Ljava/lang/Object;)V"
  const UNFETCHED_DESC := "(Lorg/eclipse/persistence/queries/FetchGroupTracker;Ljava/lang/String;)V"

  // Annotations put on synthesised fields.
  const JPA_TRANSIENT := "Ljakarta/persistence/Transient;"
  const XML_TRANSIENT := "Ljavax/xml/bind/annotation/XmlTransient;"

  // Name parts.
  const PERSISTENCE_FIELDNAME_PREFIX := "_persistence_"
  const PERSISTENCE_FIELDNAME_POSTFIX := "_vh"
  const PERSISTENCE_GET := "_persistence_get_"
  const PERSISTENCE_SET := "_persistence_set_"
  const INITIALIZE_PREFIX := "_persistence_initialize_"
  const INIT := "<init>"
  /** The name `visitMethod` compares against to skip the class initializer. */
  const CINIT := "<cinit>"
  /** The JVM's name for a class initializer. */
  const CLINIT := "<clinit>"

  // Names of fixed synthesised members.
  const LISTENER_FIELD := "_persistence_listener"
  const FETCHGROUP_FIELD := "_persistence_fetchGroup"
  const SESSION_FIELD := "_persistence_session"
  const REFRESH_FIELD := "_persistence_shouldRefreshFetchGroup"
  const PRIMARY_KEY_FIELD := "_persistence_primaryKey"
  const CACHE_KEY_FIELD := "_persistence_cacheKey"
  const RELATIONSHIPS_FIELD := "_persistence_relationshipInfo"
  const HREF_FIELD := "_persistence_href"
  const LINKS_FIELD := "_persistence_links"
  const PROPERTY_CHANGE := "_persistence_propertyChange"
  const POST_CLONE := "_persistence_post_clone"
  const GENERIC_GET := "_persistence_get"
  const GENERIC_SET := "_persistence_set"
  const CHECK_FETCHED := "_persistence_checkFetched"
  const CHECK_FETCHED_FOR_SET := "_persistence_checkFetchedForSet"
  const IS_ATTRIBUTE_FETCHED := "_persistence_isAttributeFetched"

  /** `_persistence_<attr>_vh`: the value-holder field of an attribute. */
  function HolderField(attr: string): string {
    PERSISTENCE_FIELDNAME_PREFIX + attr + PERSISTENCE_FIELDNAME_POSTFIX
  }

  /** `_persistence_initialize_<attr>_vh`: the lazy initialiser of the holder. */
  function InitializerName(attr: string): string {
    INITIALIZE_PREFIX + attr + PERSISTENCE_FIELDNAME_POSTFIX
  }

  /** `_persistence_get_<attr>_vh`: the holder getter. */
  function HolderGetterName(attr: string): string {
    PERSISTENCE_GET + attr + PERSISTENCE_FIELDNAME_POSTFIX
  }

  /** `_persistence_set_<attr>_vh`: the holder setter. */
  function HolderSetterName(attr: string): string {
    PERSISTENCE_SET + attr + PERSISTENCE_FIELDNAME_POSTFIX
  }

  /** `_persistence_get_<attr>`: the getter that replaces a GETFIELD. */
  function FieldGetterName(attr: string): string {
    PERSISTENCE_GET + attr
  }

  /** `_persistence_set_<attr>`: the setter that replaces a PUTFIELD. */
  function FieldSetterName(attr: string): string {
    PERSISTENCE_SET + attr
  }

  /** `name.replace('.', '/')`: a binary class name as an internal name. */
  function InternalName(className: string): string {
    ReplaceChar(className, '.', '/')
  }

  /** `"L" + name + ";"`: the descriptor of a class given by internal name. */
  function ObjectDescriptor(internal: string): string {
    "L" + internal + ";"
  }

  /** The primitive sorts of ASM's `Type`. */
  predicate IsPrimitive(s: Sort) {
    s in {BOOLEAN, BYTE, CHAR, SHORT, INT, FLOAT, LONG, DOUBLE}
  }

  /** `wrapperFor(sort)`: the wrapper class of a primitive sort, null for any other sort. */
  function WrapperFor(s: Sort): (r: Option<string>)
    ensures r.Some? <==> IsPrimitive(s)
    ensures r.Some? ==> StartsWith(r.value, "java/lang/")
  {
    match s
    case BOOLEAN => Some("java/lang/Boolean")
    case BYTE => Some("java/lang/Byte")
    case CHAR => Some("java/lang/Character")
    case SHORT => Some("java/lang/Short")
    case INT => Some("java/lang/Integer")
    case FLOAT => Some("java/lang/Float")
    case LONG => Some("java/lang/Long")
    case DOUBLE => Some("java/lang/Double")
    case _ => None
  }

  /**
   * The `xxxValue()` call `unwrapPrimitive` emits for a primitive sort:
   * its name and descriptor. Other sorts emit nothing.
   */
  function UnwrapMethod(s: Sort): (r: Option<(string, string)>)
    ensures r.Some? <==> IsPrimitive(s)
  {
    match s
    case BOOLEAN => Some(("booleanValue", "()Z"))
    case BYTE => Some(("byteValue", "()B"))
    case CHAR => Some(("charValue", "()C"))
    case SHORT => Some(("shortValue", "()S"))
    case INT => Some(("intValue", "()I"))
    case FLOAT => Some(("floatValue", "()F"))
    case LONG => Some(("longValue", "()J"))
    case DOUBLE => Some(("doubleValue", "()D"))
    case _ => None
  }

  /** Both halves of `name = prefix + x + suffix` determine `x`. */
  lemma {:induction false} AffixCancel(prefix: string, suffix: string, x: string, y: string)
    requires prefix + x + suffix == prefix + y + suffix
    ensures x == y
  {
    var s := prefix + x + suffix;
    assert |x| == |y|;
    assert x == s[|prefix|..|prefix| + |x|];
    assert y == (prefix + y + suffix)[|prefix|..|prefix| + |y|];
  }

  /**
   * Distinct attributes get distinct woven members: each naming scheme is
   * injective, so two attributes never share a holder field, an
   * initialiser or an accessor.
   */
  lemma NamesInjective(a: string, b: string)
    requires a != b
    ensures HolderField(a) != HolderField(b)
    ensures InitializerName(a) != InitializerName(b)
    ensures HolderGetterName(a) != HolderGetterName(b)
    ensures HolderSetterName(a) != HolderSetterName(b)
    ensures FieldGetterName(a) != FieldGetterName(b)
    ensures FieldSetterName(a) != FieldSetterName(b)
  {
    if HolderField(a) == HolderField(b) { AffixCancel(PERSISTENCE_FIELDNAME_PREFIX, PERSISTENCE_FIELDNAME_POSTFIX, a, b); }
    if InitializerName(a) == InitializerName(b) { AffixCancel(INITIALIZE_PREFIX, PERSISTENCE_FIELDNAME_POSTFIX, a, b); }
    if HolderGetterName(a) == HolderGetterName(b) { AffixCancel(PERSISTENCE_GET, PERSISTENCE_FIELDNAME_POSTFIX, a, b); }
    if HolderSetterName(a) == HolderSetterName(b) { AffixCancel(PERSISTENCE_SET, PERSISTENCE_FIELDNAME_POSTFIX, a, b); }
    if FieldGetterName(a) == FieldGetterName(b) { AffixCancel(PERSISTENCE_GET, [], a, b); }
    if FieldSetterName(a) == FieldSetterName(b) { AffixCancel(PERSISTENCE_SET, [], a, b); }
  }

  /** A getter never shares its name with a setter, whatever the two attributes. */
  lemma GettersAreNotSetters(a: string, b: string)
    ensures FieldGetterName(a) != FieldSetterName(b)
    ensures HolderGetterName(a) != HolderSetterName(b)
    ensures FieldGetterName(a) != GENERIC_GET && FieldSetterName(a) != GENERIC_SET
  {
    assert FieldGetterName(a)[13] == 'g' && FieldSetterName(b)[13] == 's';
    assert HolderGetterName(a)[13] == 'g' && HolderSetterName(b)[13] == 's';
    assert |FieldGetterName(a)| > |GENERIC_GET| && |FieldSetterName(a)| > |GENERIC_SET|;
  }
}
