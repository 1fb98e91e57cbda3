/**
 * `EclipseLinkASMClassWriter`: the class writer that stamps every class it
 * writes with the class-file version of the running Java SE. The version
 * is chosen once, by `getLatestOPCodeVersion`, from a table built out of
 * the `V…` constants of ASM's `Opcodes`, in declaration order. Reflection
 * over `Opcodes` and the reading of `java.specification.version` are
 * inputs here: the declared fields, and what reading the property gave.
 */
module AsmVersion {
  import opened JavaLang
  import opened Asm

  /** A static int field of `Opcodes`: its name and its value. */
  datatype OpcodeField = OpcodeField(name: string, value: int)

  /**
   * The outcome of reading `java.specification.version`: the property
   * (null when it is not set), or a read the security manager refused.
   */
  datatype PropertyRead = Read(property: Option<string>) | Denied

  predicate IsDigit(c: char) {
    '0' <= c <= '9'
  }

  predicate AllDigits(s: string) {
    forall i :: 0 <= i < |s| ==> IsDigit(s[i])
  }

  /**
   * The whole name matches `^V\d((_\d)?|\d*)`: a `V`, a digit, and then
   * nothing, more digits, or an underscore and exactly one digit.
   */
  predicate IsVersionField(name: string) {
    |name| >= 2 && name[0] == 'V' && IsDigit(name[1])
    && (AllDigits(name[2..]) || (|name| == 4 && name[2] == '_' && IsDigit(name[3])))
  }

  /** The table key of a field: every `V` removed, every `_` turned into `.`. */
  function VersionKey(name: string): string {
    ReplaceChar(RemoveChar(name, 'V'), '_', '.')
  }

  // ---------------------------------------------------------------- the keys

  lemma {:induction false} RemoveAbsent(s: string, a: char)
    requires a !in s
    ensures RemoveChar(s, a) == s
  {
    if |s| > 0 {
      assert s == [s[0]] + s[1..];
      RemoveAbsent(s[1..], a);
    }
  }

  /** The key of a version field is its name after the `V`, with `.` for `_`. */
  lemma VersionKeyOf(name: string)
    requires IsVersionField(name)
    ensures VersionKey(name) == ReplaceChar(name[1..], '_', '.')
    ensures '.' !in name[1..]
  {
    assert name == [name[0]] + name[1..];
    assert 'V' !in name[1..] by {
      forall i | 1 <= i < |name| ensures name[i] != 'V' {
        if i >= 2 && !AllDigits(name[2..]) {
          assert name[i] == '_' || IsDigit(name[i]);
        } else if i >= 2 {
          assert name[2..][i - 2] == name[i];
        }
      }
    }
    RemoveAbsent(name[1..], 'V');
    assert RemoveChar(name, 'V') == [] + RemoveChar(name[1..], 'V');
    forall i | 1 <= i < |name| ensures name[i] != '.' {
      if i >= 2 && AllDigits(name[2..]) {
        assert name[2..][i - 2] == name[i];
      }
    }
  }

  /** `V1_8` becomes `1.8`; `V1_10` and `V_PREVIEW` are not version fields. */
  lemma VersionKeyExamples()
    ensures IsVersionField("V1_8") && VersionKey("V1_8") == "1.8"
    ensures !IsVersionField("V1_10") && !IsVersionField("V_PREVIEW")
  {
    VersionKeyOf("V1_8");
    assert "V1_8"[1..] == ['1', '_', '8'];
    assert !IsVersionField("V1_10") by {
      assert "V1_10"[2..][0] == '_';
    }
  }

  /** Two version fields never share a key, so no `put` of the table replaces another field's entry. */
  lemma VersionKeyInjective(a: string, b: string)
    requires IsVersionField(a) && IsVersionField(b)
    ensures VersionKey(a) == VersionKey(b) ==> a == b
  {
    VersionKeyOf(a);
    VersionKeyOf(b);
    if VersionKey(a) == VersionKey(b) {
      var ta, tb := a[1..], b[1..];
      forall i | 0 <= i < |ta| ensures ta[i] == tb[i] {
        assert ReplaceChar(ta, '_', '.')[i] == ReplaceChar(tb, '_', '.')[i];
        assert ta[i] != '.' && tb[i] != '.';
      }
      assert a == [a[0]] + ta && b == [b[0]] + tb;
    }
  }

  // ---------------------------------------------------------------- the table

  /**
   * The insertion order of the `LinkedHashMap` after the loop over
   * `fields`: every key of the mapping, once.
   */
  function TableKeys(fields: seq<OpcodeField>): (keys: seq<string>)
    ensures forall i, j :: 0 <= i < j < |keys| ==> keys[i] != keys[j]
    ensures forall k :: k in TableValues(fields) <==> k in keys
  {
    if fields == [] then []
    else
      var keys, f := TableKeys(fields[..|fields| - 1]), fields[|fields| - 1];
      if IsVersionField(f.name) && VersionKey(f.name) !in keys then keys + [VersionKey(f.name)] else keys
  }

  /** The mapping of the `LinkedHashMap` after the loop over `fields`: a later `put` replaces the value. */
  function TableValues(fields: seq<OpcodeField>): map<string, int> {
    if fields == [] then map[]
    else
      var values, f := TableValues(fields[..|fields| - 1]), fields[|fields| - 1];
      if IsVersionField(f.name) then values[VersionKey(f.name) := f.value] else values
  }

  /** The order lists every key of the mapping, once. */
  ghost predicate Table(keys: seq<string>, values: map<string, int>) {
    (forall i, j :: 0 <= i < j < |keys| ==> keys[i] != keys[j])
    && (forall k :: k in values <==> k in keys)
  }

  /** A key is in the table exactly when some version field has it. */
  lemma {:induction false} TableHas(fields: seq<OpcodeField>, k: string)
    ensures k in TableValues(fields) <==>
      exists i :: 0 <= i < |fields| && IsVersionField(fields[i].name) && VersionKey(fields[i].name) == k
    decreases |fields|
  {
    if fields != [] {
      var init := fields[..|fields| - 1];
      TableHas(init, k);
      if k in TableValues(init) {
        var i :| 0 <= i < |init| && IsVersionField(init[i].name) && VersionKey(init[i].name) == k;
        assert fields[i] == init[i];
      }
      if exists i :: 0 <= i < |fields| && IsVersionField(fields[i].name) && VersionKey(fields[i].name) == k {
        var i :| 0 <= i < |fields| && IsVersionField(fields[i].name) && VersionKey(fields[i].name) == k;
        if i < |init| {
          assert init[i] == fields[i];
        }
      }
    }
  }

  /** The value of a key is that of the last version field with that key. */
  lemma {:induction false} TableLastPut(fields: seq<OpcodeField>, i: nat)
    requires i < |fields| && IsVersionField(fields[i].name)
    requires forall j :: i < j < |fields| && IsVersionField(fields[j].name) ==> VersionKey(fields[j].name) != VersionKey(fields[i].name)
    ensures VersionKey(fields[i].name) in TableValues(fields)
    ensures TableValues(fields)[VersionKey(fields[i].name)] == fields[i].value
    decreases |fields|
  {
    var init := fields[..|fields| - 1];
    if i < |fields| - 1 {
      assert init[i] == fields[i];
      forall j | i < j < |init| && IsVersionField(init[j].name)
        ensures VersionKey(init[j].name) != VersionKey(init[i].name)
      {
        assert init[j] == fields[j];
      }
      TableLastPut(init, i);
    }
  }

  /** The keys of the version fields, in declaration order, repeats included. */
  function MatchingKeys(fields: seq<OpcodeField>): seq<string> {
    if fields == [] then []
    else
      var f := fields[|fields| - 1];
      MatchingKeys(fields[..|fields| - 1]) + (if IsVersionField(f.name) then [VersionKey(f.name)] else [])
  }

  lemma {:induction false} MatchingKeysFrom(fields: seq<OpcodeField>, k: string)
    requires k in MatchingKeys(fields)
    ensures exists i :: 0 <= i < |fields| && IsVersionField(fields[i].name) && VersionKey(fields[i].name) == k
    decreases |fields|
  {
    var init := fields[..|fields| - 1];
    if k in MatchingKeys(init) {
      MatchingKeysFrom(init, k);
      var i :| 0 <= i < |init| && IsVersionField(init[i].name) && VersionKey(init[i].name) == k;
      assert fields[i] == init[i];
    }
  }

  /**
   * The fields of a class have distinct names, so every version field gets
   * its own entry, in declaration order.
   */
  lemma {:induction false} TableKeysOfDistinctNames(fields: seq<OpcodeField>)
    requires forall i, j :: 0 <= i < j < |fields| ==> fields[i].name != fields[j].name
    ensures TableKeys(fields) == MatchingKeys(fields)
    decreases |fields|
  {
    if fields != [] {
      var init, f := fields[..|fields| - 1], fields[|fields| - 1];
      TableKeysOfDistinctNames(init);
      if IsVersionField(f.name) && VersionKey(f.name) in MatchingKeys(init) {
        MatchingKeysFrom(init, VersionKey(f.name));
        var i :| 0 <= i < |init| && IsVersionField(init[i].name) && VersionKey(init[i].name) == VersionKey(f.name);
        assert init[i] == fields[i];
        VersionKeyInjective(init[i].name, f.name);
        assert false;
      }
    }
  }

  /** The loop of `getLatestOPCodeVersion` that fills the `LinkedHashMap` from the fields of `Opcodes`. */
  method VersionTable(fields: seq<OpcodeField>) returns (keys: seq<string>, values: map<string, int>)
    ensures keys == TableKeys(fields) && values == TableValues(fields)
  {
    keys, values := [], map[];
    var n := 0;
    while n < |fields|
      invariant 0 <= n <= |fields|
      invariant keys == TableKeys(fields[..n]) && values == TableValues(fields[..n])
    {
      var f := fields[n];
      assert fields[..n + 1][..n] == fields[..n] && fields[..n + 1][n] == f;
      ghost var next := fields[..n + 1];
      if IsVersionField(f.name) {
        var key := VersionKey(f.name);
        if key !in values {
          keys := keys + [key];
        }
        values := values[key := f.value];
        assert values == TableValues(next);
      } else {
        assert values == TableValues(next);
      }
      n := n + 1;
    }
    assert fields[..n] == fields;
  }

  // ---------------------------------------------------------------- the choice

  /**
   * The version `getLatestOPCodeVersion` returns for a table: the entry of
   * the running version; for an unknown version the latest entry when the
   * latest key sorts before it as a string, the oldest entry otherwise. An
   * empty table and a property that is not set end in an exception.
   */
  function Choose(keys: seq<string>, values: map<string, int>, read: PropertyRead): Result<int>
    requires Table(keys, values)
  {
    if |keys| == 0 then Thrown(IndexOutOfBounds)
    else
      var oldest, latest := keys[0], keys[|keys| - 1];
      var v := if read.Read? then read.property else Some(oldest);
      if v.Some? && v.value in values then Ok(values[v.value])
      else if v.None? then Thrown(NullPointer)
      else if CompareTo(latest, v.value) < 0 then Ok(values[latest])
      else Ok(values[oldest])
  }

  /** The version chosen from the table of the fields of `Opcodes`. */
  function Selected(fields: seq<OpcodeField>, read: PropertyRead): Result<int> {
    Choose(TableKeys(fields), TableValues(fields), read)
  }

  /**
   * `getLatestOPCodeVersion`: the table is built from the fields of
   * `Opcodes`, then the entry for the running Java SE version is chosen.
   */
  method GetLatestOPCodeVersion(fields: seq<OpcodeField>, read: PropertyRead) returns (r: Result<int>)
    ensures r == Selected(fields, read)
  {
    var keys, values := VersionTable(fields);
    if |keys| == 0 {
      // versions.get(0)
      return Thrown(IndexOutOfBounds);
    }
    var oldest, latest := keys[0], keys[|keys| - 1];
    // default to the oldest supported version
    var v: Option<string> := Some(oldest);
    if read.Read? {
      v := read.property;
    }
    var version: Option<int> := None;
    if v.Some? && v.value in values {
      version := Some(values[v.value]);
    }
    if version.None? {
      if v.None? {
        // latest.compareTo(null)
        return Thrown(NullPointer);
      }
      if CompareTo(latest, v.value) < 0 {
        // too new
        version := Some(values[latest]);
      } else {
        // too old
        var key := oldest;
        version := Some(values[key]);
      }
    }
    r := Ok(version.value);
  }

  /** Without a single version field, `versions.get(0)` throws. */
  lemma SelectedEmpty(fields: seq<OpcodeField>, read: PropertyRead)
    requires forall i :: 0 <= i < |fields| ==> !IsVersionField(fields[i].name)
    ensures Selected(fields, read) == Thrown(IndexOutOfBounds)
  {
    if TableKeys(fields) != [] {
      var k := TableKeys(fields)[0];
      TableHas(fields, k);
    }
  }

  /** A known version selects its own entry. */
  lemma SelectedKnown(fields: seq<OpcodeField>, v: string)
    requires v in TableValues(fields)
    ensures Selected(fields, Read(Some(v))) == Ok(TableValues(fields)[v])
  {
  }

  /** An unknown version that sorts after the latest key selects the latest entry. */
  lemma SelectedTooNew(fields: seq<OpcodeField>, v: string)
    requires var keys := TableKeys(fields); |keys| > 0 && v !in TableValues(fields) && CompareTo(keys[|keys| - 1], v) < 0
    ensures var keys := TableKeys(fields); Selected(fields, Read(Some(v))) == Ok(TableValues(fields)[keys[|keys| - 1]])
  {
    var keys, values := TableKeys(fields), TableValues(fields);
    assert Selected(fields, Read(Some(v))) == Choose(keys, values, Read(Some(v)));
  }

  /** Any other unknown version selects the oldest entry. */
  lemma SelectedTooOld(fields: seq<OpcodeField>, v: string)
    requires var keys := TableKeys(fields); |keys| > 0 && v !in TableValues(fields) && CompareTo(keys[|keys| - 1], v) >= 0
    ensures Selected(fields, Read(Some(v))) == Ok(TableValues(fields)[TableKeys(fields)[0]])
  {
    var keys, values := TableKeys(fields), TableValues(fields);
    assert Selected(fields, Read(Some(v))) == Choose(keys, values, Read(Some(v)));
  }

  /** A refused property read leaves the oldest version in place. */
  lemma SelectedDenied(fields: seq<OpcodeField>)
    requires TableKeys(fields) != []
    ensures Selected(fields, Denied) == Ok(TableValues(fields)[TableKeys(fields)[0]])
  {
  }

  /**
   * With a version field present, the choice fails only when the property
   * is not set, and is otherwise one of the values of the table.
   */
  lemma SelectedInTable(fields: seq<OpcodeField>, read: PropertyRead)
    requires TableKeys(fields) != []
    ensures Selected(fields, read).Ok? <==> read != Read(None)
    ensures Selected(fields, read).Ok? ==> Selected(fields, read).value in TableValues(fields).Values
  {
    var keys := TableKeys(fields);
    assert keys[0] in TableValues(fields) && keys[|keys| - 1] in TableValues(fields);
  }

  lemma ThreeAfterTwentyOne()
    ensures CompareTo("21", "3") < 0
  {
    assert "21"[0] == '2' && "3"[0] == '3';
  }

  /**
   * "Too new" is string order: when the latest known version is 21, an
   * unknown version 3 sorts after it and gets the latest entry, not the
   * oldest.
   */
  lemma TooNewIsStringOrder(fields: seq<OpcodeField>)
    requires var keys := TableKeys(fields); |keys| > 0 && keys[|keys| - 1] == "21" && "3" !in TableValues(fields)
    ensures Selected(fields, Read(Some("3"))) == Ok(TableValues(fields)["21"])
  {
    ThreeAfterTwentyOne();
    SelectedTooNew(fields, "3");
  }

  // ---------------------------------------------------------------- the writer

  /** An `EclipseLinkASMClassWriter`: an ASM class writer and the version chosen for the running VM. */
  class EclipseLinkClassWriter {
    /** The ASM `ClassWriter` this class extends. */
    const writer: ClassWriter
    /** The static `version`, set when the class is initialised. */
    const version: int

    /** Initialisation fails, and no writer is made, when `getLatestOPCodeVersion` throws. */
    constructor (fields: seq<OpcodeField>, read: PropertyRead)
      requires TableKeys(fields) != [] && read != Read(None)
      ensures fresh(writer) && writer.out == ClassFile(None, [], [], false)
      ensures Selected(fields, read) == Ok(version)
      ensures version in TableValues(fields).Values
    {
      SelectedInTable(fields, read);
      var r := GetLatestOPCodeVersion(fields, read);
      version := r.value;
      writer := new ClassWriter();
    }

    /** `visit` without a version: the header is visited with the chosen version. */
    method Visit(access: int, name: string, signature: Option<string>, superName: string, interfaces: seq<string>)
      modifies writer
      ensures writer.out == old(writer.out).(header := Some(ClassHeader(version, access, name, signature, superName, interfaces)))
      ensures writer.out.header.value.version == version
    {
      writer.Visit(ClassHeader(version, access, name, signature, superName, interfaces));
    }
  }
}
