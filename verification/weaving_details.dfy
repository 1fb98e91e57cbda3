/**
 * The descriptors the weaver is driven by. A `ClassDetails` says which
 * capabilities to weave into one class; an `AttributeDetails` describes one
 * mapped attribute. Both are built by the metadata processing before
 * weaving and are read as values here; the attribute map is kept as a
 * sequence in its iteration order.
 */
module WeavingDetails {
  import opened JavaLang
  import opened Asm

  datatype AttributeDetails = AttributeDetails(
    attributeName: string,
    /** The property getter, when the attribute uses property access. */
    getterMethodName: Option<string>,
    /** The property setter, when the attribute uses property access. */
    setterMethodName: Option<string>,
    /** The attribute's class as a binary name (`com.acme.Address`). */
    referenceClassName: string,
    referenceClassType: JType,
    weaveValueHolders: bool,
    weaveTransientFieldValueHolders: bool,
    isAttributeOnSuperClass: bool,
    isVirtualProperty: bool,
    hasField: bool)
  {
    /** Declared in this class rather than inherited from a mapped superclass. */
    predicate IsLocal() {
      !isAttributeOnSuperClass
    }

    /** Covered by the generic `_persistence_get`/`_persistence_set` dispatchers. */
    predicate IsDispatched() {
      !isAttributeOnSuperClass && !isVirtualProperty
    }
  }

  datatype ClassDetails = ClassDetails(
    /** Internal name of the class being woven. */
    className: string,
    superClassName: string,
    /** Descriptor of the superclass when it is woven too; none at the root of the hierarchy. */
    superClassDetails: Option<ClassDetails>,
    shouldWeaveInternal: bool,
    shouldWeaveValueHolders: bool,
    shouldWeaveChangeTracking: bool,
    shouldWeaveFetchGroups: bool,
    shouldWeaveREST: bool,
    isEmbedable: bool,
    usesAttributeAccess: bool,
    canWeaveConstructorOptimization: bool,
    doesSuperclassWeaveChangeTracking: bool,
    attributes: seq<AttributeDetails>)
  {
    /** `getSuperClassDetails() == null`. */
    predicate IsRoot() {
      superClassDetails.None?
    }

    /** A woven superclass that carries its own internal persistence members. */
    predicate SuperWeavesInternal() {
      superClassDetails.Some? && superClassDetails.value.shouldWeaveInternal
    }
  }

  /** The attributes the generic dispatchers test, in attribute-map order. */
  function Dispatched(attrs: seq<AttributeDetails>): (r: seq<AttributeDetails>)
    ensures |r| <= |attrs|
    ensures forall a :: a in r <==> a in attrs && a.IsDispatched()
  {
    if attrs == [] then []
    else
      var init := attrs[..|attrs| - 1];
      var last := attrs[|attrs| - 1];
      assert attrs == init + [last];
      Dispatched(init) + (if last.IsDispatched() then [last] else [])
  }

  /** The attributes whose value holders the post-clone hook clones. */
  function Lazy(attrs: seq<AttributeDetails>): (r: seq<AttributeDetails>)
    ensures |r| <= |attrs|
    ensures forall a :: a in r <==> a in attrs && a.weaveValueHolders
  {
    if attrs == [] then []
    else
      var init := attrs[..|attrs| - 1];
      var last := attrs[|attrs| - 1];
      assert attrs == init + [last];
      Lazy(init) + (if last.weaveValueHolders then [last] else [])
  }

  /** `Lazy` of a prefix one longer. */
  lemma LazyPrefix(attrs: seq<AttributeDetails>, i: nat)
    requires i < |attrs|
    ensures Lazy(attrs[..i + 1]) == Lazy(attrs[..i]) + (if attrs[i].weaveValueHolders then [attrs[i]] else [])
  {
    assert attrs[..i + 1][..i] == attrs[..i];
  }

  /** `Dispatched` of a prefix one longer. */
  lemma DispatchedPrefix(attrs: seq<AttributeDetails>, i: nat)
    requires i < |attrs|
    ensures Dispatched(attrs[..i + 1]) == Dispatched(attrs[..i]) + (if attrs[i].IsDispatched() then [attrs[i]] else [])
  {
    assert attrs[..i + 1][..i] == attrs[..i];
  }

  /** The names of a list of attributes, in order. */
  function Names(attrs: seq<AttributeDetails>): (r: seq<string>)
    ensures |r| == |attrs|
    ensures forall i :: 0 <= i < |attrs| ==> r[i] == attrs[i].attributeName
  {
    if attrs == [] then [] else Names(attrs[..|attrs| - 1]) + [attrs[|attrs| - 1].attributeName]
  }
}
