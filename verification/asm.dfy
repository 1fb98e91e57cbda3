/**
 * The slice of the ASM bytecode library that the weaver drives, as data:
 * instruction kinds with their operands, labels as numbers, the field and
 * method declarations a class visitor receives, and a class writer that
 * records them. Nothing here computes frames or stack sizes; the class
 * writer is created with COMPUTE_FRAMES and does that itself.
 */
module Asm {
  import opened JavaLang

  /** A jump target. Labels are numbered in the order a method body creates them. */
  type Label = nat

  /** The sort of an ASM `Type` (`Type.getSort()`). */
  datatype Sort = VOID | BOOLEAN | CHAR | BYTE | SHORT | INT | FLOAT | LONG | DOUBLE | ARRAY | OBJECT

  /** The parts of an ASM `Type` the weaver queries: its sort and its descriptor. */
  datatype JType = JType(sort: Sort, descriptor: string)

  /** The opcodes the weaver emits. */
  datatype Opcode =
    | ALOAD | ASTORE | ILOAD
    | GETFIELD | PUTFIELD
    | INVOKEVIRTUAL | INVOKESPECIAL | INVOKESTATIC | INVOKEINTERFACE
    | IFNULL | IFNONNULL | IFEQ | IFNE | IF_ACMPEQ | IF_ACMPNE | GOTO
    | NEW | CHECKCAST | DUP | ACONST_NULL | ICONST_0 | ICONST_1
    | RETURN | ARETURN | IRETURN
    /** `t.getOpcode(ILOAD)`: the load instruction for a value of sort `sort`. */
    | LoadOf(sort: Sort)
    /** `t.getOpcode(IRETURN)`: the return instruction for a value of sort `sort`. */
    | ReturnOf(sort: Sort)

  /** One call on an ASM `MethodVisitor`. */
  datatype Instr =
    | VarInsn(op: Opcode, local: nat)
    | FieldInsn(op: Opcode, owner: string, name: string, desc: string)
    | MethodInsn(op: Opcode, owner: string, name: string, desc: string, isInterface: bool)
    | JumpInsn(op: Opcode, target: Label)
    /** `visitLabel(l)`: the position `l` stands for. */
    | LabelMark(mark: Label)
    | TypeInsn(op: Opcode, typ: string)
    | Ldc(constant: string)
    | Insn(op: Opcode)
    /** `visitFrame(F_SAME, 0, null, 0, null)`. */
    | SameFrame

  /** The access flags the weaver uses. */
  datatype Access = Public | Protected | ProtectedTransient

  /** A field declaration together with the annotations visited on it. */
  datatype FieldDecl = FieldDecl(access: Access, name: string, desc: string, annotations: seq<string>)

  /** A method declaration together with the code visited into it. */
  datatype MethodDecl = MethodDecl(access: Access, name: string, desc: string, code: seq<Instr>)

  /** The arguments of `ClassVisitor.visit`. A null signature is `None`. */
  datatype ClassHeader = ClassHeader(
    version: int, access: int, name: string, signature: Option<string>,
    superName: string, interfaces: seq<string>)

  /** What a class writer has received so far. */
  datatype ClassFile = ClassFile(
    header: Option<ClassHeader>, fields: seq<FieldDecl>, methods: seq<MethodDecl>, ended: bool)

  /** A jump to `l` that a later `visitLabel(l)` resolves. */
  predicate ResolvedAt(code: seq<Instr>, i: nat)
    requires i < |code| && code[i].JumpInsn?
  {
    exists j :: i < j < |code| && code[j] == LabelMark(code[i].target)
  }

  /**
   * The branch discipline the class writer relies on: every jump goes
   * forward to a label that the body places, and no label is placed twice.
   */
  predicate LabelsResolved(code: seq<Instr>) {
    && (forall i :: 0 <= i < |code| && code[i].JumpInsn? ==> ResolvedAt(code, i))
    && (forall i, j :: 0 <= i < j < |code| && code[i].LabelMark? ==> code[j] != code[i])
  }

  /** `x` is visited somewhere before `y`. */
  predicate Before(code: seq<Instr>, x: Instr, y: Instr) {
    exists i, j :: 0 <= i < j < |code| && code[i] == x && code[j] == y
  }

  /** Neither a jump nor a label: code that falls through to the next instruction. */
  predicate Straight(code: seq<Instr>) {
    forall i :: 0 <= i < |code| ==> !code[i].JumpInsn? && !code[i].LabelMark?
  }

  /** The labels a body places. */
  function Marks(code: seq<Instr>): set<Label> {
    set i | 0 <= i < |code| && code[i].LabelMark? :: code[i].mark
  }

  /** Regrouping a concatenation of three pieces. */
  lemma Regroup<T>(a: seq<T>, b: seq<T>, c: seq<T>)
    ensures a + (b + c) == a + b + c
  {
  }

  /**
   * A label placed after code that places none and whose jumps go either to
   * that label or to labels the rest of the body places, followed by a rest
   * that resolves on its own: the shape of a compiled `if`, nested or not.
   */
  lemma {:induction false} MarkResolved(head: seq<Instr>, l: Label, rest: seq<Instr>)
    requires forall i :: 0 <= i < |head| ==> !head[i].LabelMark? && (head[i].JumpInsn? ==> head[i].target == l || head[i].target in Marks(rest))
    requires LabelsResolved(rest) && l !in Marks(rest)
    ensures LabelsResolved(head + [LabelMark(l)] + rest)
    ensures Marks(head + [LabelMark(l)] + rest) == {l} + Marks(rest)
  {
    var code := head + [LabelMark(l)] + rest;
    var k := |head| + 1;
    forall i | 0 <= i < |code| && code[i].JumpInsn?
      ensures ResolvedAt(code, i)
    {
      if i < |head| {
        var t := head[i].target;
        if t == l {
          assert code[|head|] == LabelMark(t);
        } else {
          var j :| 0 <= j < |rest| && rest[j].LabelMark? && rest[j].mark == t;
          assert code[k + j] == rest[j];
        }
      } else {
        assert code[i] == rest[i - k] && ResolvedAt(rest, i - k);
        var j :| i - k < j < |rest| && rest[j] == LabelMark(rest[i - k].target);
        assert code[k + j] == rest[j];
      }
    }
    forall i, j | 0 <= i < j < |code| && code[i].LabelMark?
      ensures code[j] != code[i]
    {
      if i == |head| {
        if j > |head| {
          assert code[j] == rest[j - k];
          assert rest[j - k].LabelMark? ==> rest[j - k].mark in Marks(rest);
        }
      } else if i > |head| {
        assert code[i] == rest[i - k] && code[j] == rest[j - k];
      }
    }
    forall m | m in Marks(code) ensures m in {l} + Marks(rest) {
      var i :| 0 <= i < |code| && code[i].LabelMark? && code[i].mark == m;
      if i > |head| { assert code[i] == rest[i - k]; }
    }
    forall m | m in {l} + Marks(rest) ensures m in Marks(code) {
      if m == l {
        assert code[|head|].mark == l;
      } else {
        var i :| 0 <= i < |rest| && rest[i].LabelMark? && rest[i].mark == m;
        assert code[k + i] == rest[i];
      }
    }
  }

  /** Two bodies that resolve their own labels and share none resolve together. */
  lemma {:induction false} ResolvedConcat(a: seq<Instr>, b: seq<Instr>)
    requires LabelsResolved(a) && LabelsResolved(b)
    requires Marks(a) !! Marks(b)
    ensures LabelsResolved(a + b)
    ensures Marks(a + b) == Marks(a) + Marks(b)
  {
    var code := a + b;
    forall i | 0 <= i < |code| && code[i].JumpInsn?
      ensures ResolvedAt(code, i)
    {
      if i < |a| {
        assert code[i] == a[i] && ResolvedAt(a, i);
        var j :| i < j < |a| && a[j] == LabelMark(a[i].target);
        assert code[j] == a[j];
      } else {
        assert code[i] == b[i - |a|] && ResolvedAt(b, i - |a|);
        var j :| i - |a| < j < |b| && b[j] == LabelMark(b[i - |a|].target);
        assert code[|a| + j] == b[j];
      }
    }
    forall i, j | 0 <= i < j < |code| && code[i].LabelMark?
      ensures code[j] != code[i]
    {
      if i < |a| && j < |a| {
        assert code[i] == a[i] && code[j] == a[j];
      } else if i < |a| {
        assert code[i] == a[i] && code[j] == b[j - |a|];
        assert a[i].mark in Marks(a);
        assert b[j - |a|].LabelMark? ==> b[j - |a|].mark in Marks(b);
      } else {
        assert code[i] == b[i - |a|] && code[j] == b[j - |a|];
      }
    }
    forall m | m in Marks(code) ensures m in Marks(a) + Marks(b) {
      var i :| 0 <= i < |code| && code[i].LabelMark? && code[i].mark == m;
      if i < |a| { assert code[i] == a[i]; } else { assert code[i] == b[i - |a|]; }
    }
    forall m | m in Marks(a) + Marks(b) ensures m in Marks(code) {
      if m in Marks(a) {
        var i :| 0 <= i < |a| && a[i].LabelMark? && a[i].mark == m;
        assert code[i] == a[i];
      } else {
        var i :| 0 <= i < |b| && b[i].LabelMark? && b[i].mark == m;
        assert code[|a| + i] == b[i];
      }
    }
  }

  /** The labels `0` to `n - 1`. */
  function Below(n: nat): (r: set<Label>)
    ensures forall l: int :: l in r <==> 0 <= l < n
  {
    if n == 0 then {} else Below(n - 1) + {n - 1}
  }

  /**
   * A guard whose jumps all go to `l`, a straight body, and `l` placed
   * after it: the shape of a compiled `if` without `else`.
   */
  lemma GuardedResolved(guard: seq<Instr>, body: seq<Instr>, l: Label)
    requires forall i :: 0 <= i < |guard| ==> !guard[i].LabelMark? && (guard[i].JumpInsn? ==> guard[i].target == l)
    requires Straight(body)
    ensures LabelsResolved(guard + body + [LabelMark(l)])
    ensures Marks(guard + body + [LabelMark(l)]) == {l}
  {
    var head := guard + body;
    forall i | 0 <= i < |head|
      ensures !head[i].LabelMark? && (head[i].JumpInsn? ==> head[i].target == l || head[i].target in Marks([]))
    {
      if i < |guard| { assert head[i] == guard[i]; } else { assert head[i] == body[i - |guard|]; }
    }
    StraightResolved([]);
    MarkResolved(head, l, []);
    assert head + [LabelMark(l)] + [] == guard + body + [LabelMark(l)];
  }

  /** The blocks of a body laid out one after the other. */
  function Flatten(blocks: seq<seq<Instr>>): seq<Instr> {
    if blocks == [] then [] else Flatten(blocks[..|blocks| - 1]) + blocks[|blocks| - 1]
  }

  /** Laying out one more block appends it. */
  lemma FlattenSnoc(blocks: seq<seq<Instr>>, b: seq<Instr>)
    ensures Flatten(blocks + [b]) == Flatten(blocks) + b
  {
    assert (blocks + [b])[..|blocks|] == blocks;
  }

  /** An instruction of the laid-out body comes from one of its blocks, and conversely. */
  lemma {:induction false} FlattenMembers(blocks: seq<seq<Instr>>)
    ensures forall x :: x in Flatten(blocks) <==> exists k :: 0 <= k < |blocks| && x in blocks[k]
  {
    if blocks != [] {
      var n := |blocks| - 1;
      FlattenMembers(blocks[..n]);
      assert forall k :: 0 <= k < n ==> blocks[..n][k] == blocks[k];
    }
  }

  /**
   * Blocks each of which resolves its own jumps and places only the label
   * numbered by its position: together they place labels 0 to n-1 once
   * each and resolve every jump. This is how a loop that creates one
   * label per iteration lays out its body.
   */
  lemma {:induction false} FlattenResolved(blocks: seq<seq<Instr>>)
    requires forall k :: 0 <= k < |blocks| ==> LabelsResolved(blocks[k]) && Marks(blocks[k]) == {k}
    ensures LabelsResolved(Flatten(blocks)) && Marks(Flatten(blocks)) == Below(|blocks|)
  {
    if blocks != [] {
      var n := |blocks| - 1;
      assert forall k :: 0 <= k < n ==> blocks[..n][k] == blocks[k];
      FlattenResolved(blocks[..n]);
      ResolvedConcat(Flatten(blocks[..n]), blocks[n]);
      assert Below(|blocks|) == Below(n) + {n};
    }
  }

  /** A resolved body between straight-line code resolves. */
  lemma ResolvedBetween(pre: seq<Instr>, mid: seq<Instr>, post: seq<Instr>)
    requires Straight(pre) && LabelsResolved(mid) && Straight(post)
    ensures LabelsResolved(pre + mid + post)
  {
    StraightResolved(pre);
    StraightResolved(post);
    ResolvedConcat(pre, mid);
    ResolvedConcat(pre + mid, post);
  }

  /** Straight-line code places no label and resolves trivially. */
  lemma StraightResolved(code: seq<Instr>)
    requires Straight(code)
    ensures LabelsResolved(code) && Marks(code) == {}
  {
  }

  /** The receiving end of the weaver: the next visitor in ASM's chain. */
  class ClassWriter {
    var out: ClassFile

    constructor ()
      ensures out == ClassFile(None, [], [], false)
    {
      out := ClassFile(None, [], [], false);
    }

    /** `visit(version, access, name, signature, superName, interfaces)`. */
    method Visit(h: ClassHeader)
      modifies this
      ensures out == old(out).(header := Some(h))
    {
      out := out.(header := Some(h));
    }

    /** `visitField(...)` followed by the annotations and `visitEnd()` on the field visitor. */
    method VisitField(f: FieldDecl)
      modifies this
      ensures out == old(out).(fields := old(out).fields + [f])
    {
      out := out.(fields := out.fields + [f]);
    }

    /** `visitMethod(...)` whose code has been visited up to `visitMaxs`. */
    method VisitMethod(m: MethodDecl)
      modifies this
      ensures out == old(out).(methods := old(out).methods + [m])
    {
      out := out.(methods := out.methods + [m]);
    }

    /** `visitEnd()`. */
    method VisitEnd()
      modifies this
      ensures out == old(out).(ended := true)
    {
      out := out.(ended := true);
    }
  }
}
