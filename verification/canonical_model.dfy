/**
 * The string helpers of `CanonicalModelProcessor`, the annotation processor
 * that writes the canonical metamodel classes: splitting a qualified name,
 * reducing a type to the name the generated source can use while
 * collecting the imports it needs, and the sorted import block of a
 * generated class.
 */
module CanonicalModel {
  import opened JavaLang

  /** The import every generated class gets. */
  const STATIC_METAMODEL := "jakarta.persistence.metamodel.StaticMetamodel"

  // ---------------------------------------------------------------- getName, getPackage

  /** `getName`: the text after the last `.`, or the whole name. */
  function GetName(qualifiedName: string): string {
    if IndexOf(qualifiedName, '.') > -1 then qualifiedName[LastIndexOf(qualifiedName, '.') + 1..] else qualifiedName
  }

  /** `getPackage`: the text before the last `.`, or the empty string. */
  function GetPackage(qualifiedName: string): string {
    if IndexOf(qualifiedName, '.') > -1 then qualifiedName[..LastIndexOf(qualifiedName, '.')] else ""
  }

  /** A qualified name is its package, a dot and its simple name; the simple name has no dot. */
  lemma NameRoundTrip(q: string)
    ensures '.' !in GetName(q)
    ensures '.' in q ==> GetPackage(q) + "." + GetName(q) == q
    ensures '.' !in q ==> GetName(q) == q && GetPackage(q) == ""
  {
    if '.' in q {
      var d := LastIndexOf(q, '.');
      assert q == q[..d] + "." + q[d + 1..];
      SuffixWithout(q, '.', d + 1);
    }
  }

  // ---------------------------------------------------------------- getUnqualifiedType

  /** What `getUnqualifiedType` works on: the type trimmed, every `$` made a `.`. */
  function Normalized(t: string): (r: string)
    ensures |r| <= |t|
  {
    ReplaceChar(Trim(t), '$', '.')
  }

  /**
   * The import stored for a short class name seen for the first time, as
   * written: the array suffix is cut only when `[` sits after the second
   * character of the short name.
   */
  function StoredImportAsWritten(shortClassName: string, t: string): string {
    if IndexOf(shortClassName, '[') > 1 && IndexOf(t, '[') >= 0 then t[..IndexOf(t, '[')] else t
  }

  /** The import stored for a new short class name, as intended: any array suffix is cut. */
  function StoredImport(shortClassName: string, t: string): string {
    if IndexOf(shortClassName, '[') > -1 && IndexOf(t, '[') >= 0 then t[..IndexOf(t, '[')] else t
  }

  /** The result of `getUnqualifiedType` and the import map it leaves. */
  datatype Unqualified = Unqualified(result: Result<string>, imports: map<string, string>)

  /** `s1 + "<" + s2 + ">"`, or the first exception. */
  function Join2(a: Result<string>, b: Result<string>): Result<string> {
    if a.Thrown? then a else if b.Thrown? then b else Ok(a.value + "<" + b.value + ">")
  }

  /** `s1 + "<" + s2 + ", " + s3 + ">"`, or the first exception. */
  function Join3(a: Result<string>, b: Result<string>, c: Result<string>): Result<string> {
    if a.Thrown? then a else if b.Thrown? then b else if c.Thrown? then c
    else Ok(a.value + "<" + b.value + ", " + c.value + ">")
  }

  /**
   * `getUnqualifiedType(type, imports)`: the name the generated source
   * uses for `type`, and the imports after it. `genericType` is
   * `TypeVisitor.GENERIC_TYPE`.
   */
  function Unqualify(genericType: string, t0: string, imports: map<string, string>): Unqualified
    decreases |t0|, 2
  {
    UnqualifyNormal(genericType, Normalized(t0), imports)
  }

  /** `getUnqualifiedType` after the type is normalised: the five kinds of type. */
  function UnqualifyNormal(genericType: string, t: string, imports: map<string, string>): Unqualified
    decreases |t|, 1
  {
    if Contains(t, "void") then Unqualified(Ok(genericType), imports)
    else if StartsWith(t, "java.lang") then Unqualified(Ok(t[LastIndexOf(t, '.') + 1..]), imports)
    else if IndexOf(t, '<') > -1 then UnqualifyGeneric(genericType, t, imports)
    else if IndexOf(t, '.') > -1 then UnqualifyQualified(t, imports)
    else Unqualified(Ok(t), imports)
  }

  /**
   * A qualified class: its short name when that is free (recording the
   * import) or imported from the same package, its full name otherwise.
   */
  function UnqualifyQualified(t: string, imports: map<string, string>): Unqualified
    requires '.' in t
  {
    var shortClassName := t[LastIndexOf(t, '.') + 1..];
    if shortClassName in imports then
      if imports[shortClassName] == t then Unqualified(Ok(shortClassName), imports)
      else Unqualified(Ok(t), imports)
    else Unqualified(Ok(shortClassName), imports[shortClassName := StoredImport(shortClassName, t)])
  }

  /**
   * A generic type `raw<generic>`. The parts are reduced left to right,
   * each seeing the imports the previous one left; an exception stops the
   * reduction with the imports collected so far.
   */
  function UnqualifyGeneric(genericType: string, t: string, imports: map<string, string>): Unqualified
    requires '<' in t
    decreases |t|, 0
  {
    var lt := IndexOf(t, '<');
    if lt + 1 > |t| - 1 then Unqualified(Thrown(StringIndexOutOfBounds), imports)
    else
      var raw, generic := t[..lt], t[lt + 1..|t| - 1];
      if Contains(raw, "Map") then UnqualifyMap(genericType, raw, generic, imports)
      else UnqualifyList(genericType, raw, generic, imports)
  }

  /** A map type: `raw<key, value>`, the arguments split at the first comma. */
  function UnqualifyMap(genericType: string, raw: string, generic: string, imports: map<string, string>): Unqualified
    decreases |raw| + |generic| + 1, 3
  {
    if IndexOf(generic, ',') < 0 then Unqualified(Thrown(StringIndexOutOfBounds), imports)
    else
      var key, value := generic[..IndexOf(generic, ',')], generic[IndexOf(generic, ',') + 1..];
      var r := Unqualify(genericType, raw, imports);
      if r.result.Thrown? then r
      else
        var k := Unqualify(genericType, key, r.imports);
        if k.result.Thrown? then k
        else
          var v := Unqualify(genericType, value, k.imports);
          Unqualified(Join3(r.result, k.result, v.result), v.imports)
  }

  /** Any other generic type: `raw<generic>`, the argument reduced as one type. */
  function UnqualifyList(genericType: string, raw: string, generic: string, imports: map<string, string>): Unqualified
    decreases |raw| + |generic| + 1, 3
  {
    var r := Unqualify(genericType, raw, imports);
    if r.result.Thrown? then r
    else
      var g := Unqualify(genericType, generic, r.imports);
      Unqualified(Join2(r.result, g.result), g.imports)
  }

  /** The `HashMap<String, String>` of imports a generated class collects. */
  class ImportMap {
    var entries: map<string, string>

    constructor ()
      ensures entries == map[]
    {
      entries := map[];
    }
  }

  /** `getUnqualifiedType`, recursive, writing into `imports` as it goes. */
  method GetUnqualifiedType(genericType: string, t0: string, imports: ImportMap) returns (r: Result<string>)
    modifies imports
    ensures Unqualified(r, imports.entries) == Unqualify(genericType, t0, old(imports.entries))
    decreases |t0|, 2
  {
    // remove leading and trailing white space, then make inner-class names dotted
    var t := Trim(t0);
    t := ReplaceChar(t, '$', '.');
    assert Unqualify(genericType, t0, old(imports.entries)) == UnqualifyNormal(genericType, t, old(imports.entries));
    if Contains(t, "void") {
      return Ok(genericType);
    } else if StartsWith(t, "java.lang") {
      return Ok(t[LastIndexOf(t, '.') + 1..]);
    } else if IndexOf(t, '<') > -1 {
      r := GetUnqualifiedGeneric(genericType, t, imports);
    } else if IndexOf(t, '.') > -1 {
      r := GetUnqualifiedQualified(t, imports);
    } else {
      return Ok(t);
    }
  }

  /** The qualified-class branch of `getUnqualifiedType`. */
  method GetUnqualifiedQualified(t: string, imports: ImportMap) returns (r: Result<string>)
    requires '.' in t
    modifies imports
    ensures Unqualified(r, imports.entries) == UnqualifyQualified(t, old(imports.entries))
  {
    var shortClassName := t[LastIndexOf(t, '.') + 1..];
    if shortClassName in imports.entries {
      if imports.entries[shortClassName] == t {
        // the same class from the same package
        return Ok(t[LastIndexOf(t, '.') + 1..]);
      } else {
        // the same short name from another package: keep the qualification
        return Ok(t);
      }
    } else {
      // a new import; an array type is imported without its []
      var bracket := IndexOf(shortClassName, '[');
      if bracket > -1 {
        imports.entries := imports.entries[shortClassName := t[..IndexOf(t, '[')]];
      } else {
        imports.entries := imports.entries[shortClassName := t];
      }
      return Ok(shortClassName);
    }
  }

  /** The generic branch of `getUnqualifiedType`. */
  method GetUnqualifiedGeneric(genericType: string, t: string, imports: ImportMap) returns (r: Result<string>)
    requires '<' in t
    modifies imports
    ensures Unqualified(r, imports.entries) == UnqualifyGeneric(genericType, t, old(imports.entries))
    decreases |t|, 0
  {
    var lt := IndexOf(t, '<');
    if lt + 1 > |t| - 1 {
      // type.substring(lt + 1, type.length() - 1)
      return Thrown(StringIndexOutOfBounds);
    }
    var raw := t[..lt];
    var generic := t[lt + 1..|t| - 1];
    if Contains(raw, "Map") {
      r := GetUnqualifiedMap(genericType, raw, generic, imports);
    } else {
      r := GetUnqualifiedList(genericType, raw, generic, imports);
    }
  }

  /** The map branch: the raw type, then the key type, then the value type. */
  method GetUnqualifiedMap(genericType: string, raw: string, generic: string, imports: ImportMap) returns (r: Result<string>)
    modifies imports
    ensures Unqualified(r, imports.entries) == UnqualifyMap(genericType, raw, generic, old(imports.entries))
    decreases |raw| + |generic| + 1, 3
  {
    var comma := IndexOf(generic, ',');
    if comma < 0 {
      // generic.substring(0, -1)
      return Thrown(StringIndexOutOfBounds);
    }
    var key := generic[..comma];
    var value := generic[comma + 1..];
    var a := GetUnqualifiedType(genericType, raw, imports);
    if a.Thrown? {
      return a;
    }
    var b := GetUnqualifiedType(genericType, key, imports);
    if b.Thrown? {
      return b;
    }
    var c := GetUnqualifiedType(genericType, value, imports);
    return Join3(a, b, c);
  }

  /** The other generic branch: the raw type, then its argument. */
  method GetUnqualifiedList(genericType: string, raw: string, generic: string, imports: ImportMap) returns (r: Result<string>)
    modifies imports
    ensures Unqualified(r, imports.entries) == UnqualifyList(genericType, raw, generic, old(imports.entries))
    decreases |raw| + |generic| + 1, 3
  {
    var a := GetUnqualifiedType(genericType, raw, imports);
    if a.Thrown? {
      return a;
    }
    var b := GetUnqualifiedType(genericType, generic, imports);
    return Join2(a, b);
  }

  /** An import, once collected, is never replaced or dropped. */
  lemma {:induction false} ImportsKept(genericType: string, t0: string, imports: map<string, string>, k: string)
    requires k in imports
    ensures var out := Unqualify(genericType, t0, imports).imports; k in out && out[k] == imports[k]
    decreases |t0|, 2
  {
    var t := Normalized(t0);
    assert Unqualify(genericType, t0, imports) == UnqualifyNormal(genericType, t, imports);
    if !Contains(t, "void") && !StartsWith(t, "java.lang") && IndexOf(t, '<') > -1 {
      GenericImportsKept(genericType, t, imports, k);
    }
  }

  lemma {:induction false} GenericImportsKept(genericType: string, t: string, imports: map<string, string>, k: string)
    requires k in imports && '<' in t
    ensures var out := UnqualifyGeneric(genericType, t, imports).imports; k in out && out[k] == imports[k]
    decreases |t|, 0
  {
    var lt := IndexOf(t, '<');
    if lt + 1 <= |t| - 1 {
      var raw, generic := t[..lt], t[lt + 1..|t| - 1];
      if Contains(raw, "Map") {
        MapImportsKept(genericType, raw, generic, imports, k);
      } else {
        ListImportsKept(genericType, raw, generic, imports, k);
      }
    }
  }

  lemma {:induction false} MapImportsKept(genericType: string, raw: string, generic: string, imports: map<string, string>, k: string)
    requires k in imports
    ensures var out := UnqualifyMap(genericType, raw, generic, imports).imports; k in out && out[k] == imports[k]
    decreases |raw| + |generic| + 1, 3
  {
    if IndexOf(generic, ',') >= 0 {
      var key, value := generic[..IndexOf(generic, ',')], generic[IndexOf(generic, ',') + 1..];
      ImportsKept(genericType, raw, imports, k);
      var r := Unqualify(genericType, raw, imports);
      ImportsKept(genericType, key, r.imports, k);
      var kk := Unqualify(genericType, key, r.imports);
      ImportsKept(genericType, value, kk.imports, k);
    }
  }

  lemma {:induction false} ListImportsKept(genericType: string, raw: string, generic: string, imports: map<string, string>, k: string)
    requires k in imports
    ensures var out := UnqualifyList(genericType, raw, generic, imports).imports; k in out && out[k] == imports[k]
    decreases |raw| + |generic| + 1, 3
  {
    ImportsKept(genericType, raw, imports, k);
    var r := Unqualify(genericType, raw, imports);
    ImportsKept(genericType, generic, r.imports, k);
  }

  /** A `void` type is the generic placeholder and adds no import. */
  lemma VoidIsGeneric(genericType: string, t0: string, imports: map<string, string>)
    requires Contains(Normalized(t0), "void")
    ensures Unqualify(genericType, t0, imports) == Unqualified(Ok(genericType), imports)
  {
  }

  /** A `java.lang` type is reduced to its simple name and adds no import. */
  lemma JavaLangIsSimpleName(genericType: string, t0: string, imports: map<string, string>)
    requires !Contains(Normalized(t0), "void") && StartsWith(Normalized(t0), "java.lang")
    ensures Unqualify(genericType, t0, imports) == Unqualified(Ok(GetName(Normalized(t0))), imports)
  {
    var t := Normalized(t0);
    assert t[4] == '.';
  }

  /**
   * A qualified, non-generic type: its short name when that is free or
   * already imported from the same package, which then records the import;
   * the full name when the short name is taken by another package.
   */
  lemma QualifiedType(genericType: string, t0: string, imports: map<string, string>)
    requires var t := Normalized(t0); !Contains(t, "void") && !StartsWith(t, "java.lang") && '<' !in t && '.' in t
    ensures var t := Normalized(t0); var s := GetName(t); var u := Unqualify(genericType, t0, imports);
      && (s in imports && imports[s] == t ==> u == Unqualified(Ok(s), imports))
      && (s in imports && imports[s] != t ==> u == Unqualified(Ok(t), imports))
      && (s !in imports ==> u == Unqualified(Ok(s), imports[s := StoredImport(s, t)]))
  {
  }

  /** A type with no package is kept as it is. */
  lemma UnqualifiedTypeKept(genericType: string, t0: string, imports: map<string, string>)
    requires var t := Normalized(t0); !Contains(t, "void") && !StartsWith(t, "java.lang") && '<' !in t && '.' !in t
    ensures Unqualify(genericType, t0, imports) == Unqualified(Ok(Normalized(t0)), imports)
  {
  }

  /** The first `substring` failure: a `<` that closes the type. */
  lemma OpenGenericFails(genericType: string, t0: string, imports: map<string, string>)
    requires var t := Normalized(t0); !Contains(t, "void") && !StartsWith(t, "java.lang") && '<' in t
    requires var t := Normalized(t0); IndexOf(t, '<') == |t| - 1
    ensures Unqualify(genericType, t0, imports) == Unqualified(Thrown(StringIndexOutOfBounds), imports)
  {
    var t := Normalized(t0);
    assert Unqualify(genericType, t0, imports) == UnqualifyGeneric(genericType, t, imports);
  }

  /** The second `substring` failure: a map type whose arguments have no comma. */
  lemma MapWithoutCommaFails(genericType: string, t0: string, imports: map<string, string>)
    requires var t := Normalized(t0); !Contains(t, "void") && !StartsWith(t, "java.lang") && '<' in t
    requires var t := Normalized(t0); var lt := IndexOf(t, '<');
      lt < |t| - 1 && Contains(t[..lt], "Map") && ',' !in t[lt + 1..|t| - 1]
    ensures Unqualify(genericType, t0, imports) == Unqualified(Thrown(StringIndexOutOfBounds), imports)
  {
    var t := Normalized(t0);
    var lt := IndexOf(t, '<');
    assert Unqualify(genericType, t0, imports) == UnqualifyGeneric(genericType, t, imports);
    assert UnqualifyGeneric(genericType, t, imports) == UnqualifyMap(genericType, t[..lt], t[lt + 1..|t| - 1], imports);
  }

  /** A suffix whose every position differs from `c` does not contain `c`. */
  lemma SuffixWithout(s: string, c: char, from: nat)
    requires from <= |s| && forall j :: from <= j < |s| ==> s[j] != c
    ensures c !in s[from..]
  {
  }

  /** The simple name of a string without `c` has no `c` either. */
  lemma NameWithout(x: string, c: char)
    requires c !in x
    ensures c !in GetName(x)
  {
    if IndexOf(x, '.') > -1 {
      var d := LastIndexOf(x, '.');
      SuffixWithout(x, c, d + 1);
    }
  }

  /** The import recorded for a short class name never ends in an array suffix. */
  lemma StoredImportIsClassName(t: string)
    ensures '[' !in GetName(StoredImport(GetName(t), t))
  {
    var s := GetName(t);
    if IndexOf(s, '[') > -1 && IndexOf(t, '[') >= 0 {
      NameWithout(t[..IndexOf(t, '[')], '[');
    } else {
      NameRoundTrip(t);
      if '.' in t {
        var p := GetPackage(t);
        assert t == p + "." + s;
        assert LastIndexOf(t, '.') == |p| by {
          assert t[|p|] == '.';
          forall j | |p| < j < |t| ensures t[j] != '.' {
            assert t[j] == s[j - |p| - 1];
          }
        }
      }
    }
  }

  /**
   * As written, a one-letter array class such as `x.A[]` is imported with
   * its suffix, since the `[` of `A[]` sits at index 1.
   */
  lemma OneLetterArrayAsWritten(p: string, c: char)
    requires '.' !in p && '[' !in p && c != '.' && c != '['
    ensures var t := p + "." + [c] + "[]";
      && GetName(t) == [c] + "[]"
      && StoredImportAsWritten(GetName(t), t) == t
      && StoredImport(GetName(t), t) == p + "." + [c]
  {
    var t := p + "." + [c] + "[]";
    OneLetterArrayIndices(p, c, t);
  }

  /** Where the dot and the brackets of `p.c[]` are. */
  lemma OneLetterArrayIndices(p: string, c: char, t: string)
    requires '.' !in p && '[' !in p && c != '.' && c != '['
    requires t == p + "." + [c] + "[]"
    ensures LastIndexOf(t, '.') == |p| && t[|p| + 1..] == [c] + "[]"
    ensures IndexOf(t[|p| + 1..], '[') == 1 && IndexOf(t, '[') == |p| + 2 && t[..|p| + 2] == p + "." + [c]
  {
    var n := |p|;
    assert t[n] == '.' && t[n + 1] == c && t[n + 2] == '[' && t[n + 3] == ']' && |t| == n + 4;
    LastIndexOfAt(t, '.', n);
    var s := t[n + 1..];
    assert s == [c] + "[]";
    IndexOfAt(s, '[', 1);
    assert t[..n + 2] == p + "." + [c];
    IndexOfAt(t, '[', n + 2);
  }

  /** The first `c` of `s` is at `i`. */
  lemma IndexOfAt(s: string, c: char, i: nat)
    requires i < |s| && s[i] == c && c !in s[..i]
    ensures IndexOf(s, c) == i
  {
  }

  /** The last `c` of `s` is at `i`. */
  lemma LastIndexOfAt(s: string, c: char, i: nat)
    requires i < |s| && s[i] == c && forall j :: i < j < |s| ==> s[j] != c
    ensures LastIndexOf(s, c) == i
  {
  }

  // ---------------------------------------------------------------- writeImportStatements

  /** Ascending in the order of `String.compareTo`. */
  predicate Sorted(s: seq<string>) {
    forall i, j :: 0 <= i < j < |s| ==> StringLe(s[i], s[j])
  }

  /** `x` placed before the first element it does not follow. */
  function Insert(s: seq<string>, x: string): (r: seq<string>)
    ensures multiset(r) == multiset(s) + multiset{x}
  {
    if s == [] then [x]
    else if StringLe(x, s[0]) then [x] + s
    else
      assert s == [s[0]] + s[1..];
      [s[0]] + Insert(s[1..], x)
  }

  /** `Collections.sort` on a list of strings, as an insertion sort. */
  function SortStrings(s: seq<string>): seq<string> {
    if s == [] then [] else Insert(SortStrings(s[..|s| - 1]), s[|s| - 1])
  }

  lemma {:induction false} InsertSorted(s: seq<string>, x: string)
    requires Sorted(s)
    ensures Sorted(Insert(s, x))
  {
    if s != [] && !StringLe(x, s[0]) {
      InsertSorted(s[1..], x);
      var r := Insert(s, x);
      var tail := Insert(s[1..], x);
      assert r == [s[0]] + tail;
      StringLeTotal(x, s[0]);
      forall j | 0 < j < |r| ensures StringLe(s[0], r[j]) {
        assert r[j] == tail[j - 1];
        assert r[j] in multiset(tail);
        assert r[j] in multiset(s[1..]) + multiset{x};
        if r[j] != x {
          assert r[j] in s[1..];
        }
      }
    } else if s != [] {
      forall j | 0 <= j < |s| ensures StringLe(x, s[j]) {
        if j > 0 {
          StringLeTransitive(x, s[0], s[j]);
        }
      }
    }
  }

  /** What `Collections.sort` promises: the elements, in ascending order. */
  lemma {:induction false} SortStringsSorts(s: seq<string>)
    ensures Sorted(SortStrings(s)) && multiset(SortStrings(s)) == multiset(s)
    decreases |s|
  {
    if s != [] {
      SortStringsSorts(s[..|s| - 1]);
      InsertSorted(SortStrings(s[..|s| - 1]), s[|s| - 1]);
      assert s == s[..|s| - 1] + [s[|s| - 1]];
    }
  }

  /** The first element of a sorted sequence precedes every element. */
  lemma SortedHeadFirst(a: seq<string>, x: string)
    requires Sorted(a) && x in multiset(a)
    ensures StringLe(a[0], x)
  {
    var j :| 0 <= j < |a| && a[j] == x;
    if j == 0 {
      CompareToZero(x, x);
    }
  }

  /**
   * Strings have one ascending order: any sorted permutation is the one
   * `SortStrings` builds, so the model does not depend on the sort used.
   */
  lemma {:induction false} SortedUnique(a: seq<string>, b: seq<string>)
    requires Sorted(a) && Sorted(b) && multiset(a) == multiset(b)
    ensures a == b
    decreases |a|
  {
    assert |multiset(a)| == |a| && |multiset(b)| == |b|;
    if a != [] {
      SortedHeadFirst(b, a[0]);
      SortedHeadFirst(a, b[0]);
      CompareToAntisymmetric(a[0], b[0]);
      CompareToZero(a[0], b[0]);
      TailMultiset(a);
      TailMultiset(b);
      SortedUnique(a[1..], b[1..]);
      assert a == [a[0]] + a[1..] && b == [b[0]] + b[1..];
    }
  }

  lemma TailMultiset(a: seq<string>)
    requires a != []
    ensures multiset(a[1..]) == multiset(a) - multiset{a[0]}
  {
    assert a == [a[0]] + a[1..];
  }

  /**
   * The list `writeImportStatements` sorts: the collected imports, the
   * `StaticMetamodel` annotation, and the parent class when the parent is
   * a managed class of another package.
   */
  function ImportList(typeImports: seq<string>, parentManaged: bool, qualifiedParent: string, childPackage: string): seq<string> {
    typeImports + [STATIC_METAMODEL]
    + (if parentManaged && GetPackage(qualifiedParent) != childPackage then [qualifiedParent] else [])
  }

  /** The text written for sorted imports: one `import` line each, then a blank line. */
  function ImportText(imports: seq<string>): seq<string> {
    if imports == [] then ["\n"] else ["import " + imports[0] + ";\n"] + ImportText(imports[1..])
  }

  /**
   * `writeImportStatements`: writes the import block and returns the simple
   * name of the managed parent class, if any. `typeImports` is the map's
   * values in its iteration order, and `parentManaged` says whether the
   * parent is an entity, embeddable or mapped superclass of the unit.
   * The writer's output is the returned sequence of appended strings.
   */
  method WriteImportStatements(typeImports: seq<string>, parentManaged: bool, qualifiedParent: string, childPackage: string)
    returns (parentCanonicalName: Option<string>, written: seq<string>)
    ensures parentCanonicalName == if parentManaged then Some(GetName(qualifiedParent)) else None
    ensures written == ImportText(SortStrings(ImportList(typeImports, parentManaged, qualifiedParent, childPackage)))
  {
    var imps;
    parentCanonicalName, imps := CollectImports(typeImports, parentManaged, qualifiedParent, childPackage);
    imps := SortStrings(imps);
    written := WriteImports(imps);
  }

  /** The list `writeImportStatements` builds before sorting it, and the parent's simple name. */
  method CollectImports(typeImports: seq<string>, parentManaged: bool, qualifiedParent: string, childPackage: string)
    returns (parentCanonicalName: Option<string>, imps: seq<string>)
    ensures parentCanonicalName == if parentManaged then Some(GetName(qualifiedParent)) else None
    ensures imps == ImportList(typeImports, parentManaged, qualifiedParent, childPackage)
  {
    imps := typeImports;
    imps := imps + [STATIC_METAMODEL];
    parentCanonicalName := None;
    if parentManaged {
      parentCanonicalName := Some(GetName(qualifiedParent));
      var parentPackage := GetPackage(qualifiedParent);
      if parentPackage != childPackage {
        imps := imps + [qualifiedParent];
      }
    }
  }

  /** The writer loop of `writeImportStatements`: an `import` line per element, then a blank line. */
  method WriteImports(imps: seq<string>) returns (written: seq<string>)
    ensures written == ImportText(imps)
  {
    written := [];
    var i := 0;
    while i < |imps|
      invariant 0 <= i <= |imps|
      invariant |written| == i
      invariant forall k :: 0 <= k < i ==> written[k] == "import " + imps[k] + ";\n"
    {
      written := written + ["import " + imps[i] + ";\n"];
      i := i + 1;
    }
    assert written == LinesOf(imps);
    TextIsLines(imps);
    written := written + ["\n"];
  }

  /**
   * The import block names exactly the collected imports, the annotation
   * and the foreign managed parent, each as often as listed, in ascending order.
   */
  lemma {:induction false} ImportBlock(typeImports: seq<string>, parentManaged: bool, qualifiedParent: string, childPackage: string)
    ensures var l := ImportList(typeImports, parentManaged, qualifiedParent, childPackage);
      var sorted := SortStrings(l);
      && Sorted(sorted)
      && multiset(sorted) == multiset(typeImports) + multiset{STATIC_METAMODEL}
           + (if parentManaged && GetPackage(qualifiedParent) != childPackage then multiset{qualifiedParent} else multiset{})
      && ImportText(sorted) == LinesOf(sorted) + ["\n"]
  {
    var l := ImportList(typeImports, parentManaged, qualifiedParent, childPackage);
    SortStringsSorts(l);
    TextIsLines(SortStrings(l));
  }

  /** The `import` line of each element, in order. */
  function LinesOf(imports: seq<string>): (r: seq<string>)
    ensures |r| == |imports| && forall i :: 0 <= i < |imports| ==> r[i] == "import " + imports[i] + ";\n"
  {
    seq(|imports|, i requires 0 <= i < |imports| => "import " + imports[i] + ";\n")
  }

  lemma {:induction false} TextIsLines(imports: seq<string>)
    ensures ImportText(imports) == LinesOf(imports) + ["\n"]
    decreases |imports|
  {
    if imports != [] {
      TextIsLines(imports[1..]);
      assert LinesOf(imports) == ["import " + imports[0] + ";\n"] + LinesOf(imports[1..]);
    }
  }
}
