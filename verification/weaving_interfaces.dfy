/**
 * What `ClassWeaver.visit` does to the class header: the scan for the
 * `PersistenceWeaved` marker (and for interfaces the class implements
 * itself), the interfaces it appends and the generic signature it extends.
 */
module WeavingInterfaces {
  import opened JavaLang
  import opened Asm
  import opened WeavingNames
  import opened WeavingDetails

  /**
   * The interfaces the scan of `visit` looks at: those before the first
   * `PersistenceWeaved`, or all of them when the class carries none.
   */
  function ScannedPrefix(ifs: seq<string>): (p: seq<string>)
    ensures p <= ifs
    ensures PERSISTENCE_WEAVED !in p
    ensures |p| < |ifs| ==> ifs[|p|] == PERSISTENCE_WEAVED
  {
    if ifs == [] || ifs[0] == PERSISTENCE_WEAVED then []
    else [ifs[0]] + ScannedPrefix(ifs[1..])
  }

  /** The scan stops at the first marker, or at the end. */
  lemma {:induction false} ScannedPrefixIs(ifs: seq<string>, i: nat)
    requires i <= |ifs| && PERSISTENCE_WEAVED !in ifs[..i]
    requires i == |ifs| || ifs[i] == PERSISTENCE_WEAVED
    ensures ScannedPrefix(ifs) == ifs[..i]
    decreases i
  {
    if i > 0 {
      assert ifs[0] == ifs[..i][0];
      assert ifs[1..][..i - 1] == ifs[1..i];
      assert ifs[..i] == [ifs[0]] + ifs[1..i];
      ScannedPrefixIs(ifs[1..], i - 1);
    }
  }

  /**
   * The descriptor after the scan: a `ChangeTracker` the class implements
   * itself switches change-tracking weaving off, even on a class that turns
   * out to be woven already, as long as it comes before the marker.
   */
  function ScannedDetails(cd: ClassDetails, ifs: seq<string>): (r: ClassDetails)
    ensures r.shouldWeaveChangeTracking <==> cd.shouldWeaveChangeTracking && CHANGE_TRACKER !in ScannedPrefix(ifs)
    ensures r == cd.(shouldWeaveChangeTracking := r.shouldWeaveChangeTracking)
  {
    if CHANGE_TRACKER in ScannedPrefix(ifs) then cd.(shouldWeaveChangeTracking := false) else cd
  }

  /** The ten interfaces `visit` may append, in the order it appends them. */
  const APPENDABLE := [CLONEABLE, PERSISTENCE_WEAVED, PERSISTENCE_ENTITY, PERSISTENCE_OBJECT, FETCHGROUP_TRACKER,
                       WEAVED_FETCHGROUPS, TW_LAZY, CHANGE_TRACKER, TW_CT, WEAVED_REST]

  /** The condition under which `visit` appends each of `APPENDABLE`, position by position. */
  function AppendConditions(cd: ClassDetails, cloneable: bool): (bs: seq<bool>)
    ensures |bs| == |APPENDABLE|
  {
    var internalRoot := cd.shouldWeaveInternal && cd.IsRoot();
    [internalRoot && !cloneable, true, internalRoot && !cd.isEmbedable, cd.shouldWeaveInternal,
     cd.shouldWeaveFetchGroups && cd.IsRoot(), cd.shouldWeaveFetchGroups, cd.shouldWeaveValueHolders,
     !cd.doesSuperclassWeaveChangeTracking && cd.shouldWeaveChangeTracking, cd.shouldWeaveChangeTracking,
     cd.shouldWeaveREST && cd.IsRoot()]
  }

  /** The elements of `xs` whose flag in `bs` is set, in order. */
  function Pick(xs: seq<string>, bs: seq<bool>): (r: seq<string>)
    requires |xs| == |bs|
    ensures |r| <= |xs|
  {
    if xs == [] then [] else (if bs[0] then [xs[0]] else []) + Pick(xs[1..], bs[1..])
  }

  /** A sequence without repetitions. */
  predicate Distinct(xs: seq<string>) {
    forall i, j :: 0 <= i < j < |xs| ==> xs[i] != xs[j]
  }

  /**
   * Picking from distinct elements: an element is picked exactly when its
   * flag is set, nothing else is picked, and nothing is picked twice.
   */
  lemma {:induction false} PickSpec(xs: seq<string>, bs: seq<bool>)
    requires |xs| == |bs| && Distinct(xs)
    ensures forall i :: 0 <= i < |xs| ==> (xs[i] in Pick(xs, bs) <==> bs[i])
    ensures forall x :: x in Pick(xs, bs) ==> x in xs
    ensures Distinct(Pick(xs, bs))
    decreases |xs|
  {
    if xs != [] {
      var head := if bs[0] then [xs[0]] else [];
      var rest := Pick(xs[1..], bs[1..]);
      assert Distinct(xs[1..]);
      PickSpec(xs[1..], bs[1..]);
      assert Pick(xs, bs) == head + rest;
      assert xs[0] !in rest;
      forall i | 0 <= i < |xs| ensures xs[i] in Pick(xs, bs) <==> bs[i] {
        if i > 0 {
          assert xs[i] == xs[1..][i - 1];
        }
      }
    }
  }

  /** The ten interface names are pairwise different. */
  lemma AppendableDistinct()
    ensures Distinct(APPENDABLE)
  {
    assert |CLONEABLE| == 19 && |PERSISTENCE_WEAVED| == 58 && |FETCHGROUP_TRACKER| == 49 && |WEAVED_FETCHGROUPS| == 69;
    assert |CHANGE_TRACKER| == 64 && |TW_CT| == 72;
    assert |PERSISTENCE_ENTITY| == |PERSISTENCE_OBJECT| == |TW_LAZY| == |WEAVED_REST| == 62;
    assert PERSISTENCE_ENTITY[56] != PERSISTENCE_OBJECT[56];
    assert PERSISTENCE_ENTITY[33] == PERSISTENCE_OBJECT[33] != TW_LAZY[33] == WEAVED_REST[33];
    assert TW_LAZY[58] != WEAVED_REST[58];
  }

  /** `[x]` when `b` holds, nothing otherwise. */
  function Opt(b: bool, x: string): seq<string> {
    if b then [x] else []
  }

  /** Picking from one more element appends it when its flag is set. */
  lemma {:induction false} PickSnoc(xs: seq<string>, bs: seq<bool>, x: string, b: bool)
    requires |xs| == |bs|
    ensures Pick(xs + [x], bs + [b]) == Pick(xs, bs) + Opt(b, x)
    decreases |xs|
  {
    if xs == [] {
      assert Pick([x], [b]) == Opt(b, x) + Pick([], []);
    } else {
      assert (xs + [x])[1..] == xs[1..] + [x];
      assert (bs + [b])[1..] == bs[1..] + [b];
      PickSnoc(xs[1..], bs[1..], x, b);
    }
  }

  /** Picking from a prefix one longer. */
  lemma PickPrefix(xs: seq<string>, bs: seq<bool>, k: nat)
    requires |xs| == |bs| && k < |xs|
    ensures Pick(xs[..k + 1], bs[..k + 1]) == Pick(xs[..k], bs[..k]) + Opt(bs[k], xs[k])
  {
    assert xs[..k + 1] == xs[..k] + [xs[k]];
    assert bs[..k + 1] == bs[..k] + [bs[k]];
    PickSnoc(xs[..k], bs[..k], xs[k], bs[k]);
  }

  /**
   * The interfaces `visit` appends to those of the class, in the order of
   * the array indices it hands out; `cloneable` says whether the class
   * implements `Cloneable` already.
   */
  function AddedInterfaces(cd: ClassDetails, cloneable: bool): seq<string> {
    var internalRoot := cd.shouldWeaveInternal && cd.IsRoot();
    Opt(internalRoot && !cloneable, CLONEABLE) + [PERSISTENCE_WEAVED] + Opt(internalRoot && !cd.isEmbedable, PERSISTENCE_ENTITY)
    + Opt(cd.shouldWeaveInternal, PERSISTENCE_OBJECT) + Opt(cd.shouldWeaveFetchGroups && cd.IsRoot(), FETCHGROUP_TRACKER)
    + Opt(cd.shouldWeaveFetchGroups, WEAVED_FETCHGROUPS) + Opt(cd.shouldWeaveValueHolders, TW_LAZY)
    + Opt(!cd.doesSuperclassWeaveChangeTracking && cd.shouldWeaveChangeTracking, CHANGE_TRACKER)
    + Opt(cd.shouldWeaveChangeTracking, TW_CT) + Opt(cd.shouldWeaveREST && cd.IsRoot(), WEAVED_REST)
  }

  /** Picking from the first five of ten elements, spelt out. */
  lemma PickFirstFive(xs: seq<string>, bs: seq<bool>)
    requires |xs| == |bs| == 10
    ensures Pick(xs[..5], bs[..5]) == Opt(bs[0], xs[0]) + Opt(bs[1], xs[1]) + Opt(bs[2], xs[2]) + Opt(bs[3], xs[3]) + Opt(bs[4], xs[4])
  {
    PickPrefix(xs, bs, 0);
    assert Pick(xs[..0], bs[..0]) == [];
    assert [] + Opt(bs[0], xs[0]) == Opt(bs[0], xs[0]);
    PickPrefix(xs, bs, 1);
    PickPrefix(xs, bs, 2);
    PickPrefix(xs, bs, 3);
    PickPrefix(xs, bs, 4);
  }

  /** Picking from the first seven of ten elements: the first five, then two more. */
  lemma PickFirstSeven(xs: seq<string>, bs: seq<bool>)
    requires |xs| == |bs| == 10
    ensures Pick(xs[..7], bs[..7]) == Pick(xs[..5], bs[..5]) + Opt(bs[5], xs[5]) + Opt(bs[6], xs[6])
  {
    PickPrefix(xs, bs, 5);
    PickPrefix(xs, bs, 6);
  }

  /** Picking from ten elements: the first seven, then the last three. */
  lemma PickLastThree(xs: seq<string>, bs: seq<bool>)
    requires |xs| == |bs| == 10
    ensures Pick(xs, bs) == Pick(xs[..7], bs[..7]) + Opt(bs[7], xs[7]) + Opt(bs[8], xs[8]) + Opt(bs[9], xs[9])
  {
    PickPrefix(xs, bs, 7);
    PickPrefix(xs, bs, 8);
    PickPrefix(xs, bs, 9);
    assert xs[..10] == xs && bs[..10] == bs;
  }

  /** Picking from ten elements, spelt out. */
  lemma PickTen(xs: seq<string>, bs: seq<bool>)
    requires |xs| == |bs| == 10
    ensures Pick(xs, bs) == Opt(bs[0], xs[0]) + Opt(bs[1], xs[1]) + Opt(bs[2], xs[2]) + Opt(bs[3], xs[3])
      + Opt(bs[4], xs[4]) + Opt(bs[5], xs[5]) + Opt(bs[6], xs[6]) + Opt(bs[7], xs[7]) + Opt(bs[8], xs[8]) + Opt(bs[9], xs[9])
  {
    PickFirstFive(xs, bs);
    PickFirstSeven(xs, bs);
    PickLastThree(xs, bs);
  }

  /** The appended interfaces are those of `APPENDABLE` whose condition holds. */
  lemma AddedInterfacesPick(cd: ClassDetails, cloneable: bool)
    ensures AddedInterfaces(cd, cloneable) == Pick(APPENDABLE, AppendConditions(cd, cloneable))
  {
    var bs := AppendConditions(cd, cloneable);
    PickTen(APPENDABLE, bs);
    assert Opt(bs[1], PERSISTENCE_WEAVED) == [PERSISTENCE_WEAVED];
  }

  /**
   * Each of the ten interfaces is appended exactly under its condition,
   * at most once, and nothing else is appended.
   */
  lemma AddedInterfacesConditions(cd: ClassDetails, cloneable: bool)
    ensures var added := AddedInterfaces(cd, cloneable);
      && (forall i :: 0 <= i < |APPENDABLE| ==> (APPENDABLE[i] in added <==> AppendConditions(cd, cloneable)[i]))
      && (forall x :: x in added ==> x in APPENDABLE)
      && Distinct(added)
  {
    AppendableDistinct();
    AddedInterfacesPick(cd, cloneable);
    PickSpec(APPENDABLE, AppendConditions(cd, cloneable));
  }

  /** `"L" + name + ";"` for each interface, in order: what `visit` appends to a generic signature. */
  function SignatureSuffix(ifs: seq<string>): (s: string)
    ensures |s| >= 2 * |ifs|
  {
    if ifs == [] then "" else "L" + ifs[0] + ";" + SignatureSuffix(ifs[1..])
  }

  /** Appending one more interface appends its type signature. */
  lemma {:induction false} SignatureSuffixSnoc(ifs: seq<string>, x: string)
    ensures SignatureSuffix(ifs + [x]) == SignatureSuffix(ifs) + "L" + x + ";"
    decreases |ifs|
  {
    if ifs != [] {
      assert (ifs + [x])[1..] == ifs[1..] + [x];
      SignatureSuffixSnoc(ifs[1..], x);
    } else {
      assert SignatureSuffix([x]) == "L" + x + ";" + SignatureSuffix([]);
    }
  }

  /** Reads the interface names back out of a run of `L<name>;` class type signatures. */
  function ParseSuffix(s: string): Option<seq<string>>
    decreases |s|
  {
    if s == [] then Some([])
    else if s[0] != 'L' then None
    else
      var k := IndexOf(s[1..], ';');
      if k < 0 then None
      else match ParseSuffix(s[k + 2..])
        case None => None
        case Some(rest) => Some([s[1..k + 1]] + rest)
  }

  /** Names without `;`, as internal class names are. */
  predicate Unsplit(ifs: seq<string>) {
    forall i :: 0 <= i < |ifs| ==> ';' !in ifs[i]
  }

  /** The appended signature reads back as exactly the interfaces it was built from. */
  lemma {:induction false} SignatureSuffixParses(ifs: seq<string>)
    requires Unsplit(ifs)
    ensures ParseSuffix(SignatureSuffix(ifs)) == Some(ifs)
    decreases |ifs|
  {
    if ifs != [] {
      var x, rest := ifs[0], SignatureSuffix(ifs[1..]);
      var s := SignatureSuffix(ifs);
      assert s == "L" + x + ";" + rest;
      assert s[1..] == x + ";" + rest;
      assert (x + ";" + rest)[|x|] == ';' && (x + ";" + rest)[..|x|] == x;
      assert IndexOf(s[1..], ';') == |x|;
      assert s[|x| + 2..] == rest && s[1..|x| + 1] == x;
      assert Unsplit(ifs[1..]);
      SignatureSuffixParses(ifs[1..]);
      assert ifs == [x] + ifs[1..];
    }
  }

  /** The interfaces `visit` gives the class writer for a class with interfaces `ifs`. */
  function NewInterfaces(cd: ClassDetails, ifs: seq<string>): seq<string> {
    ifs + AddedInterfaces(ScannedDetails(cd, ifs), CLONEABLE in ifs)
  }

  /** The header `visit` passes on: unchanged for a woven class, extended otherwise. */
  function VisitedHeader(h: ClassHeader, cd: ClassDetails): ClassHeader {
    if PERSISTENCE_WEAVED in h.interfaces then h
    else
      var added := AddedInterfaces(ScannedDetails(cd, h.interfaces), CLONEABLE in h.interfaces);
      h.(signature := if h.signature.None? then None else Some(h.signature.value + SignatureSuffix(added)),
         interfaces := h.interfaces + added)
  }

  /**
   * A class that already carries the marker passes through unchanged; any
   * other keeps its interfaces as a prefix, gains the marker, and its
   * signature (a null one stays null) gains exactly the type signatures of
   * the appended interfaces.
   */
  lemma VisitedHeaderExtends(h: ClassHeader, cd: ClassDetails)
    ensures var v := VisitedHeader(h, cd);
      && (PERSISTENCE_WEAVED in h.interfaces ==> v == h)
      && v.interfaces[..|h.interfaces|] == h.interfaces
      && PERSISTENCE_WEAVED in v.interfaces
      && v.(signature := h.signature, interfaces := h.interfaces) == h
      && (v.signature.None? <==> h.signature.None?)
      && (h.signature.Some? ==> v.signature == Some(h.signature.value + SignatureSuffix(v.interfaces[|h.interfaces|..])))
  {
    var v := VisitedHeader(h, cd);
    if PERSISTENCE_WEAVED !in h.interfaces {
      var added := AddedInterfaces(ScannedDetails(cd, h.interfaces), CLONEABLE in h.interfaces);
      AddedInterfacesConditions(ScannedDetails(cd, h.interfaces), CLONEABLE in h.interfaces);
      assert APPENDABLE[1] == PERSISTENCE_WEAVED;
      assert v.interfaces[|h.interfaces|..] == added;
    } else {
      assert v.interfaces[..|h.interfaces|] == h.interfaces;
      assert v.interfaces[|h.interfaces|..] == [];
      assert h.signature.Some? ==> h.signature.value + SignatureSuffix([]) == h.signature.value;
    }
  }

  /** Weaving is idempotent: the header `visit` produces is passed through by a second `visit`. */
  lemma VisitIdempotent(h: ClassHeader, cd: ClassDetails, cd2: ClassDetails)
    ensures VisitedHeader(VisitedHeader(h, cd), cd2) == VisitedHeader(h, cd)
  {
    VisitedHeaderExtends(h, cd);
  }

  /**
   * A class that implements `ChangeTracker` itself gets neither
   * `ChangeTracker` again nor the change-tracking marker.
   */
  lemma UserChangeTracker(h: ClassHeader, cd: ClassDetails)
    requires CHANGE_TRACKER in h.interfaces && PERSISTENCE_WEAVED !in h.interfaces
    ensures !ScannedDetails(cd, h.interfaces).shouldWeaveChangeTracking
    ensures var added := VisitedHeader(h, cd).interfaces[|h.interfaces|..];
      CHANGE_TRACKER !in added && TW_CT !in added
  {
    var p := ScannedPrefix(h.interfaces);
    assert p == h.interfaces;
    var sd := ScannedDetails(cd, h.interfaces);
    AddedWithoutTracking(sd, CLONEABLE in h.interfaces);
    assert VisitedHeader(h, cd).interfaces[|h.interfaces|..] == AddedInterfaces(sd, CLONEABLE in h.interfaces);
  }

  /** Without change tracking neither change-tracking interface is appended. */
  lemma AddedWithoutTracking(cd: ClassDetails, cloneable: bool)
    requires !cd.shouldWeaveChangeTracking
    ensures CHANGE_TRACKER !in AddedInterfaces(cd, cloneable) && TW_CT !in AddedInterfaces(cd, cloneable)
  {
    AddedInterfacesConditions(cd, cloneable);
    assert APPENDABLE[7] == CHANGE_TRACKER && APPENDABLE[8] == TW_CT;
  }

  /** A class that implements `Cloneable` itself does not get it a second time. */
  lemma CloneableOnce(h: ClassHeader, cd: ClassDetails)
    requires PERSISTENCE_WEAVED !in h.interfaces
    ensures var added := VisitedHeader(h, cd).interfaces[|h.interfaces|..];
      CLONEABLE in added <==> CLONEABLE !in h.interfaces && cd.shouldWeaveInternal && cd.IsRoot()
  {
    var sd := ScannedDetails(cd, h.interfaces);
    AddedInterfacesConditions(sd, CLONEABLE in h.interfaces);
    assert APPENDABLE[0] == CLONEABLE;
    assert VisitedHeader(h, cd).interfaces[|h.interfaces|..] == AddedInterfaces(sd, CLONEABLE in h.interfaces);
  }
}
