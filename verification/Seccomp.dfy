/**
 The seccomp filter compiler (stele/containment/seccomp.py) against an
 interpreter for classic BPF: the emitted program returns exactly the verdict
 of the policy, for every architecture word, system call number and argument.
 */
module Seccomp {
  import opened Wrappers

  const WORD: nat := 0x1_0000_0000
  const RET_KILL: nat := 0x80000000
  const RET_ALLOW: nat := 0x7FFF0000
  const RET_EPERM: nat := 0x00050001   // SECCOMP_RET_ERRNO | EPERM
  const RET_ENOSYS: nat := 0x00050026  // SECCOMP_RET_ERRNO | ENOSYS
  const CLONE_NEW_MASK: nat := 0x7E020000
  const X32_BIT: nat := 0x40000000
  const TIOCSTI: nat := 0x5412
  const TIOCLINUX: nat := 0x541C

  const LD_W_ABS: nat := 0x20
  const JEQ_K: nat := 0x15
  const JGE_K: nat := 0x35
  const JSET_K: nat := 0x45
  const RET_K: nat := 0x06

  // ---- The machine -------------------------------------------------------

  /** One sock_filter: (code, jt, jf, k). */
  datatype Insn = Insn(code: nat, jt: nat, jf: nat, k: nat)

  /** struct seccomp_data: a 32-bit number and ABI word, six 64-bit arguments. */
  datatype Call = Call(nr: nat, arch: nat, ip: nat, args: seq<nat>) {
    ghost predicate Valid() {
      && nr < WORD && arch < WORD && ip < WORD * WORD
      && |args| == 6 && forall i :: 0 <= i < 6 ==> args[i] < WORD * WORD
    }
  }

  /** The little-endian 32-bit word of seccomp_data at a byte offset. */
  function Load(c: Call, offset: nat): (w: Option<nat>)
    requires c.Valid()
    ensures w.Some? ==> w.value < WORD
  {
    if offset % 4 != 0 || offset >= 64 then None
    else if offset == 0 then Some(c.nr)
    else if offset == 4 then Some(c.arch)
    else
      var wide := if offset < 16 then c.ip else c.args[(offset - 16) / 8];
      Some(if offset % 8 == 0 then wide % WORD else wide / WORD)
  }

  predicate AnyBit(x: nat, mask: nat)
    requires x < WORD && mask < WORD
  {
    (x as bv32) & (mask as bv32) != 0
  }

  /** Ret: the filter's verdict. Fell: control ran off the end with this
      accumulator. Bad: an instruction the kernel would not accept. */
  datatype Outcome = Ret(verdict: nat) | Fell(acc: nat) | Bad

  /** What one instruction does to the accumulator and the program counter. */
  datatype Effect = Halt(verdict: nat) | Skip(count: nat, acc: nat) | Stuck

  function Step(i: Insn, acc: nat, c: Call): (e: Effect)
    requires acc < WORD && c.Valid()
    ensures e.Skip? ==> e.acc < WORD
  {
    if i.k >= WORD then Stuck
    else if i.code == RET_K then Halt(i.k)
    else if i.code == LD_W_ABS then
      var w := Load(c, i.k);
      if w.Some? then Skip(0, w.value) else Stuck
    else if i.code == JEQ_K then Skip(if acc == i.k then i.jt else i.jf, acc)
    else if i.code == JGE_K then Skip(if acc >= i.k then i.jt else i.jf, acc)
    else if i.code == JSET_K then Skip(if AnyBit(acc, i.k) then i.jt else i.jf, acc)
    else Stuck
  }

  function Run(prog: seq<Insn>, pc: nat, acc: nat, c: Call): (o: Outcome)
    requires pc <= |prog| && acc < WORD && c.Valid()
    ensures o.Fell? ==> o.acc < WORD
    decreases |prog| - pc
  {
    if pc == |prog| then Fell(acc)
    else
      match Step(prog[pc], acc, c)
      case Halt(v) => Ret(v)
      case Skip(n, a) => if pc + 1 + n <= |prog| then Run(prog, pc + 1 + n, a, c) else Bad
      case Stuck => Bad
  }

  /** A known code, fields that fit their widths, an aligned in-range load, and
      jumps over fewer than `room` instructions. */
  ghost predicate Fits(x: Insn, room: int) {
    && x.code in {LD_W_ABS, JEQ_K, JGE_K, JSET_K, RET_K}
    && x.jt < 256 && x.jf < 256 && x.k < WORD
    && (x.code == LD_W_ABS ==> x.k % 4 == 0 && x.k < 64)
    && (x.code in {JEQ_K, JGE_K, JSET_K} ==> x.jt < room && x.jf < room)
  }

  /** A fragment: its jumps land inside it or exactly at its end. */
  ghost predicate Closed(prog: seq<Insn>) {
    forall i :: 0 <= i < |prog| ==> Fits(prog[i], |prog| - i)
  }

  /** The kernel's load-time check on a whole program. */
  ghost predicate Accepted(prog: seq<Insn>) {
    && prog != [] && prog[|prog| - 1].code == RET_K
    && forall i :: 0 <= i < |prog| ==> Fits(prog[i], |prog| - i - 1)
  }

  lemma ClosedConcat(p: seq<Insn>, q: seq<Insn>)
    requires Closed(p) && Closed(q)
    ensures Closed(p + q)
  {
    forall i | 0 <= i < |p + q| ensures Fits((p + q)[i], |p + q| - i) {
      if i < |p| { assert Fits(p[i], |p| - i); } else { assert Fits(q[i - |p|], |q| - (i - |p|)); }
    }
  }

  lemma ClosedThenReturn(p: seq<Insn>, last: Insn)
    requires Closed(p) && last.code == RET_K && last.jt == last.jf == 0 && last.k < WORD
    ensures Accepted(p + [last])
  {
    forall i | 0 <= i < |p + [last]| ensures Fits((p + [last])[i], |p| - i) {
      if i < |p| { assert Fits(p[i], |p| - i); }
    }
  }

  /** An accepted program always halts at a return. */
  lemma {:induction false} AcceptedReturns(prog: seq<Insn>, pc: nat, acc: nat, c: Call)
    requires Accepted(prog) && pc < |prog| && acc < WORD && c.Valid()
    ensures Run(prog, pc, acc, c).Ret?
    decreases |prog| - pc
  {
    assert Fits(prog[pc], |prog| - pc - 1);
    var e := Step(prog[pc], acc, c);
    if e.Skip? {
      AcceptedReturns(prog, pc + 1 + e.count, e.acc, c);
    }
  }

  // ---- Composition of program fragments ----------------------------------

  /** Continue with q wherever p ran off its end. */
  function Then(o: Outcome, q: seq<Insn>, c: Call): Outcome
    requires (o.Fell? ==> o.acc < WORD) && c.Valid()
  {
    if o.Fell? then Run(q, 0, o.acc, c) else o
  }

  /** Relative jumps make q relocatable. */
  lemma {:induction false} Relocate(p: seq<Insn>, q: seq<Insn>, pc: nat, acc: nat, c: Call)
    requires pc <= |q| && acc < WORD && c.Valid()
    ensures Run(p + q, |p| + pc, acc, c) == Run(q, pc, acc, c)
    decreases |q| - pc
  {
    if pc < |q| {
      assert (p + q)[|p| + pc] == q[pc];
      var e := Step(q[pc], acc, c);
      if e.Skip? && pc + 1 + e.count <= |q| {
        Relocate(p, q, pc + 1 + e.count, e.acc, c);
        assert |p| + (pc + 1 + e.count) == (|p| + pc) + 1 + e.count;
      }
    }
  }

  /** Running p + q is running p and then q, provided p has no bad step of its own. */
  lemma {:induction false} Sequence(p: seq<Insn>, q: seq<Insn>, pc: nat, acc: nat, c: Call)
    requires pc <= |p| && acc < WORD && c.Valid()
    requires Run(p, pc, acc, c) != Bad
    ensures Run(p + q, pc, acc, c) == Then(Run(p, pc, acc, c), q, c)
    decreases |p| - pc
  {
    if pc == |p| {
      Relocate(p, q, 0, acc, c);
    } else {
      assert (p + q)[pc] == p[pc];
      var e := Step(p[pc], acc, c);
      if e.Skip? {
        Sequence(p, q, pc + 1 + e.count, e.acc, c);
      }
    }
  }

  // ---- The policy --------------------------------------------------------

  /** What one architecture contributes: its ABI word, whether x32 numbers are
      refused, the kill-list and ENOSYS-list numbers, and the two inspected calls. */
  datatype Table = Table(
    auditArch: nat, rejectX32: bool, killed: seq<nat>, enosys: seq<nat>, clone: nat, ioctl: nat)
  {
    ghost predicate Valid() {
      && auditArch < WORD && clone < WORD && ioctl < WORD
      && (forall i :: 0 <= i < |killed| ==> killed[i] < WORD)
      && (forall i :: 0 <= i < |enosys| ==> enosys[i] < WORD)
    }
  }

  /** The documented policy, as sets of calls: nothing here mentions a program. */
  function Policy(t: Table, c: Call): nat
    requires t.Valid() && c.Valid()
  {
    if c.arch != t.auditArch then RET_KILL
    else if t.rejectX32 && c.nr >= X32_BIT then RET_KILL
    else if c.nr in t.killed then RET_KILL
    else if c.nr in t.enosys then RET_ENOSYS
    else if c.nr == t.clone then
      if AsksForNamespace(c.args[0] % WORD) then RET_KILL else RET_ALLOW
    else if c.nr == t.ioctl && c.args[1] % WORD in {TIOCSTI, TIOCLINUX} then RET_EPERM
    else RET_ALLOW
  }

  const CLONE_FLAGS: seq<nat> :=  // NEWNS, NEWCGROUP, NEWUTS, NEWIPC, NEWUSER, NEWPID, NEWNET
    [0x00020000, 0x02000000, 0x04000000, 0x08000000, 0x10000000, 0x20000000, 0x40000000]

  predicate AsksForNamespace(flags: nat)
    requires flags < WORD
  {
    exists i | 0 <= i < 7 :: AnyBit(flags, CLONE_FLAGS[i])
  }

  lemma MaskIsTheFlags(flags: nat)
    requires flags < WORD
    ensures AnyBit(flags, CLONE_NEW_MASK) <==> AsksForNamespace(flags)
  {
    MaskBits(flags as bv32);
    assert AnyBit(flags, CLONE_NEW_MASK) == (flags as bv32 & 0x7E020000 != 0);
    assert AnyBit(flags, CLONE_FLAGS[0]) == (flags as bv32 & 0x00020000 != 0);
    assert AnyBit(flags, CLONE_FLAGS[1]) == (flags as bv32 & 0x02000000 != 0);
    assert AnyBit(flags, CLONE_FLAGS[2]) == (flags as bv32 & 0x04000000 != 0);
    assert AnyBit(flags, CLONE_FLAGS[3]) == (flags as bv32 & 0x08000000 != 0);
    assert AnyBit(flags, CLONE_FLAGS[4]) == (flags as bv32 & 0x10000000 != 0);
    assert AnyBit(flags, CLONE_FLAGS[5]) == (flags as bv32 & 0x20000000 != 0);
    assert AnyBit(flags, CLONE_FLAGS[6]) == (flags as bv32 & 0x40000000 != 0);
  }

  lemma MaskBits(x: bv32)
    ensures x & 0x7E020000 != 0 <==>
      (x & 0x00020000 != 0 || x & 0x02000000 != 0 || x & 0x04000000 != 0 || x & 0x08000000 != 0
       || x & 0x10000000 != 0 || x & 0x20000000 != 0 || x & 0x40000000 != 0)
  {
  }

  // ---- The compiler ------------------------------------------------------

  function Stmt(code: nat, k: nat): Insn { Insn(code, 0, 0, k) }

  function Jump(code: nat, k: nat, jt: nat, jf: nat): Insn { Insn(code, jt, jf, k) }

  function ArgLow(index: nat): nat { 16 + 8 * index }

  datatype Rule = Rule(nr: nat, verdict: nat)

  function Rules(t: Table): (rs: seq<Rule>)
    ensures |rs| == |t.killed| + |t.enosys|
  {
    seq(|t.killed|, i requires 0 <= i < |t.killed| => Rule(t.killed[i], RET_KILL))
    + seq(|t.enosys|, i requires 0 <= i < |t.enosys| => Rule(t.enosys[i], RET_ENOSYS))
  }

  /** The verdict of the first rule that names nr. */
  function FirstMatch(rules: seq<Rule>, nr: nat): Option<nat> {
    if rules == [] then None
    else if FirstMatch(rules[..|rules| - 1], nr).Some? then FirstMatch(rules[..|rules| - 1], nr)
    else if rules[|rules| - 1].nr == nr then Some(rules[|rules| - 1].verdict)
    else None
  }

  lemma {:induction false} FirstMatchIsAny(rules: seq<Rule>, nr: nat, verdict: nat)
    requires forall i :: 0 <= i < |rules| ==> rules[i].verdict == verdict
    ensures FirstMatch(rules, nr) ==
      if exists i :: 0 <= i < |rules| && rules[i].nr == nr then Some(verdict) else None
  {
    if rules != [] {
      var front := rules[..|rules| - 1];
      FirstMatchIsAny(front, nr, verdict);
      assert forall i :: 0 <= i < |front| ==> rules[i] == front[i];
    }
  }

  lemma {:induction false} FirstMatchConcat(p: seq<Rule>, q: seq<Rule>, nr: nat)
    ensures FirstMatch(p + q, nr) == if FirstMatch(p, nr).Some? then FirstMatch(p, nr) else FirstMatch(q, nr)
  {
    if q == [] {
      assert p + q == p;
    } else {
      FirstMatchConcat(p, q[..|q| - 1], nr);
      assert (p + q)[..|p + q| - 1] == p + q[..|q| - 1];
    }
  }

  /** First match over the rule list is membership in the two name lists. */
  lemma RulesMeanTheLists(t: Table, nr: nat)
    ensures FirstMatch(Rules(t), nr) ==
      if nr in t.killed then Some(RET_KILL) else if nr in t.enosys then Some(RET_ENOSYS) else None
  {
    var p := seq(|t.killed|, i requires 0 <= i < |t.killed| => Rule(t.killed[i], RET_KILL));
    var q := seq(|t.enosys|, i requires 0 <= i < |t.enosys| => Rule(t.enosys[i], RET_ENOSYS));
    FirstMatchConcat(p, q, nr);
    FirstMatchIsAny(p, nr, RET_KILL);
    FirstMatchIsAny(q, nr, RET_ENOSYS);
    if nr in t.killed {
      var i :| 0 <= i < |t.killed| && t.killed[i] == nr;
      assert p[i].nr == nr;
    } else if nr in t.enosys {
      var i :| 0 <= i < |t.enosys| && t.enosys[i] == nr;
      assert q[i].nr == nr;
    }
  }

  /** What the program emitted so far must do once the rules in `done` are compiled. */
  function AfterRules(t: Table, done: seq<Rule>, c: Call): (o: Outcome)
    requires t.Valid() && c.Valid()
    ensures o.Fell? ==> o.acc < WORD
  {
    if c.arch != t.auditArch || (t.rejectX32 && c.nr >= X32_BIT) then Ret(RET_KILL)
    else match FirstMatch(done, c.nr) case Some(v) => Ret(v) case None => Fell(c.nr)
  }

  /** `if acc == k (or >=) then return verdict`, else fall through. */
  lemma RuleBlock(code: nat, k: nat, verdict: nat, acc: nat, c: Call)
    requires (code == JEQ_K || code == JGE_K) && k < WORD && verdict < WORD && acc < WORD && c.Valid()
    ensures var b := [Jump(code, k, 0, 1), Stmt(RET_K, verdict)];
      && Closed(b)
      && Run(b, 0, acc, c) == if acc == k || (code == JGE_K && acc > k) then Ret(verdict) else Fell(acc)
  {
    var b := [Jump(code, k, 0, 1), Stmt(RET_K, verdict)];
    assert Run(b, 1, acc, c) == Ret(verdict);
    assert Run(b, 2, acc, c) == Fell(acc);
    assert Step(b[0], acc, c).Skip?;
  }

  /** The ABI check and the load of the call number. */
  function Prologue(arch: nat): seq<Insn> {
    [Stmt(LD_W_ABS, 4), Jump(JEQ_K, arch, 1, 0), Stmt(RET_K, RET_KILL), Stmt(LD_W_ABS, 0)]
  }

  lemma PrologueBlock(arch: nat, c: Call)
    requires arch < WORD && c.Valid()
    ensures Closed(Prologue(arch))
    ensures Run(Prologue(arch), 0, 0, c) == if c.arch == arch then Fell(c.nr) else Ret(RET_KILL)
  {
    var b := Prologue(arch);
    assert Run(b, 4, c.nr, c) == Fell(c.nr);
    assert Run(b, 3, c.arch, c) == Fell(c.nr);
    assert Run(b, 2, c.arch, c) == Ret(RET_KILL);
    assert Step(b[1], c.arch, c) == Skip(if c.arch == arch then 1 else 0, c.arch);
    assert Run(b, 1, c.arch, c) == if c.arch == arch then Fell(c.nr) else Ret(RET_KILL);
  }

  function CloneBlock(clone: nat): seq<Insn> {
    [Jump(JEQ_K, clone, 0, 4), Stmt(LD_W_ABS, ArgLow(0)), Jump(JSET_K, CLONE_NEW_MASK, 0, 1),
     Stmt(RET_K, RET_KILL), Stmt(RET_K, RET_ALLOW)]
  }

  lemma CloneBlockRuns(clone: nat, acc: nat, c: Call)
    requires clone < WORD && acc < WORD && c.Valid()
    ensures Closed(CloneBlock(clone))
    ensures Run(CloneBlock(clone), 0, acc, c) ==
      if acc != clone then Fell(acc)
      else if AsksForNamespace(c.args[0] % WORD) then Ret(RET_KILL) else Ret(RET_ALLOW)
  {
    var b := CloneBlock(clone);
    var flags := c.args[0] % WORD;
    MaskIsTheFlags(flags);
    assert Run(b, 5, acc, c) == Fell(acc);
    assert Run(b, 4, flags, c) == Ret(RET_ALLOW);
    assert Run(b, 3, flags, c) == Ret(RET_KILL);
    assert Step(b[2], flags, c) == Skip(if AnyBit(flags, CLONE_NEW_MASK) then 0 else 1, flags);
    assert Run(b, 2, flags, c) == Ret(if AsksForNamespace(flags) then RET_KILL else RET_ALLOW);
    assert Step(b[1], acc, c) == Skip(0, flags);
    assert Run(b, 1, acc, c) == Run(b, 2, flags, c);
    assert Step(b[0], acc, c) == Skip(if acc == clone then 0 else 4, acc);
  }

  const INJECTION: seq<nat> := [TIOCSTI, TIOCLINUX]

  /** The refused commands compiled so far refuse exactly those commands. */
  ghost predicate RefusesExactly(block: seq<Insn>, cmds: seq<nat>) {
    && Closed(block)
    && forall a: nat, c: Call {:trigger Run(block, 0, a, c)} | a < WORD && c.Valid() ::
         Run(block, 0, a, c) == if a in cmds then Ret(RET_EPERM) else Fell(a)
  }

  lemma RefuseOneMore(block: seq<Insn>, cmds: seq<nat>, cmd: nat)
    requires RefusesExactly(block, cmds) && cmd < WORD
    ensures RefusesExactly(block + [Jump(JEQ_K, cmd, 0, 1), Stmt(RET_K, RET_EPERM)], cmds + [cmd])
  {
    var more := [Jump(JEQ_K, cmd, 0, 1), Stmt(RET_K, RET_EPERM)];
    assert Closed(more);
    ClosedConcat(block, more);
    forall a: nat, c: Call | a < WORD && c.Valid()
      ensures Run(block + more, 0, a, c) == if a in cmds + [cmd] then Ret(RET_EPERM) else Fell(a)
    {
      Sequence(block, more, 0, a, c);
      RuleBlock(JEQ_K, cmd, RET_EPERM, a, c);
    }
  }

  function IoctlHead(ioctl: nat, skip: nat): seq<Insn> {
    [Jump(JEQ_K, ioctl, 0, skip), Stmt(LD_W_ABS, ArgLow(1))]
  }

  lemma IoctlHeadRuns(ioctl: nat, tail: seq<Insn>, acc: nat, c: Call)
    requires ioctl < WORD && acc < WORD && c.Valid() && |tail| + 1 < 256 && Closed(tail)
    ensures Closed(IoctlHead(ioctl, |tail| + 1) + tail)
    ensures Run(IoctlHead(ioctl, |tail| + 1) + tail, 0, acc, c) ==
      if acc != ioctl then Fell(acc) else Run(tail, 0, c.args[1] % WORD, c)
  {
    var head := IoctlHead(ioctl, |tail| + 1);
    var b := head + tail;
    var cmd := c.args[1] % WORD;
    forall i | 0 <= i < |b| ensures Fits(b[i], |b| - i) {
      if i >= 2 { assert Fits(tail[i - 2], |tail| - (i - 2)); }
    }
    Relocate(head, tail, 0, cmd, c);
    assert Step(b[1], acc, c) == Skip(0, cmd);
    assert Run(b, 1, acc, c) == Run(b, 2, cmd, c);
    assert Step(b[0], acc, c) == Skip(if acc == ioctl then 0 else |tail| + 1, acc);
  }

  lemma IoctlBlockRuns(ioctl: nat, refuse: seq<Insn>, cmds: seq<nat>, acc: nat, c: Call)
    requires ioctl < WORD && acc < WORD && c.Valid() && RefusesExactly(refuse, cmds)
    requires |refuse| + 2 < 256
    ensures var b := IoctlHead(ioctl, |refuse| + 2) + (refuse + [Stmt(RET_K, RET_ALLOW)]);
      && Closed(b)
      && Run(b, 0, acc, c) ==
           if acc != ioctl then Fell(acc)
           else if c.args[1] % WORD in cmds then Ret(RET_EPERM) else Ret(RET_ALLOW)
  {
    var last := [Stmt(RET_K, RET_ALLOW)];
    var cmd := c.args[1] % WORD;
    ClosedConcat(refuse, last);
    Sequence(refuse, last, 0, cmd, c);
    assert Run(last, 0, cmd, c) == Ret(RET_ALLOW);
    IoctlHeadRuns(ioctl, refuse + last, acc, c);
  }

  /** The rule list, then clone, then ioctl, then allow: the whole policy. */
  lemma Finish(t: Table, front: seq<Insn>, refuse: seq<Insn>, ioctlBlock: seq<Insn>)
    requires t.Valid() && Closed(front) && RefusesExactly(refuse, INJECTION) && |refuse| == 4
    requires forall c: Call {:trigger Run(front, 0, 0, c)} | c.Valid() :: Run(front, 0, 0, c) == AfterRules(t, Rules(t), c)
    requires ioctlBlock == IoctlHead(t.ioctl, 6) + (refuse + [Stmt(RET_K, RET_ALLOW)])
    ensures Implements(front + CloneBlock(t.clone) + ioctlBlock + [Stmt(RET_K, RET_ALLOW)], t)
  {
    var clone, last := CloneBlock(t.clone), Stmt(RET_K, RET_ALLOW);
    var two := front + clone;
    var three := two + ioctlBlock;
    var some := Call(0, 0, 0, [0, 0, 0, 0, 0, 0]);
    CloneBlockRuns(t.clone, 0, some);
    IoctlBlockRuns(t.ioctl, refuse, INJECTION, 0, some);
    ClosedConcat(front, clone);
    ClosedConcat(two, ioctlBlock);
    ClosedThenReturn(three, last);
    forall c: Call | c.Valid() ensures Run(three + [last], 0, 0, c) == Ret(Policy(t, c)) {
      RulesMeanTheLists(t, c.nr);
      Sequence(front, clone, 0, 0, c);
      CloneBlockRuns(t.clone, c.nr, c);
      Sequence(two, ioctlBlock, 0, 0, c);
      IoctlBlockRuns(t.ioctl, refuse, INJECTION, c.nr, c);
      Sequence(three, [last], 0, 0, c);
      assert Run([last], 0, c.nr, c) == Ret(RET_ALLOW);
    }
  }

  /** The compiled program returns the policy's verdict on every call, and the
      kernel accepts it. */
  ghost predicate Implements(prog: seq<Insn>, t: Table)
    requires t.Valid()
  {
    && Accepted(prog)
    && forall c: Call {:trigger Run(prog, 0, 0, c)} | c.Valid() :: Run(prog, 0, 0, c) == Ret(Policy(t, c))
  }

  method Compile(t: Table) returns (prog: seq<Insn>)
    requires t.Valid()
    ensures Implements(prog, t)
    ensures |prog| == 17 + (if t.rejectX32 then 2 else 0) + 2 * (|t.killed| + |t.enosys|)
  {
    prog := Prologue(t.auditArch);
    forall c: Call | c.Valid()
      ensures Run(prog, 0, 0, c) == if c.arch == t.auditArch then Fell(c.nr) else Ret(RET_KILL)
    {
      PrologueBlock(t.auditArch, c);
    }
    if t.rejectX32 {
      var x32 := [Jump(JGE_K, X32_BIT, 0, 1), Stmt(RET_K, RET_KILL)];
      assert Closed(x32);
      ClosedConcat(prog, x32);
      forall c: Call | c.Valid() ensures Run(prog + x32, 0, 0, c) == AfterRules(t, [], c) {
        Sequence(prog, x32, 0, 0, c);
        RuleBlock(JGE_K, X32_BIT, RET_KILL, c.nr, c);
      }
      prog := prog + x32;
    }
    var rules := Rules(t);
    var start := |prog|;
    for r := 0 to |rules|
      invariant Closed(prog) && |prog| == start + 2 * r
      invariant forall c: Call {:trigger Run(prog, 0, 0, c)} | c.Valid() :: Run(prog, 0, 0, c) == AfterRules(t, rules[..r], c)
    {
      var block := [Jump(JEQ_K, rules[r].nr, 0, 1), Stmt(RET_K, rules[r].verdict)];
      assert Closed(block);
      ClosedConcat(prog, block);
      assert rules[..r + 1][..r] == rules[..r];
      forall c: Call | c.Valid() ensures Run(prog + block, 0, 0, c) == AfterRules(t, rules[..r + 1], c) {
        Sequence(prog, block, 0, 0, c);
        RuleBlock(JEQ_K, rules[r].nr, rules[r].verdict, c.nr, c);
      }
      prog := prog + block;
    }
    assert rules[..|rules|] == rules;

    var refuse: seq<Insn> := [];
    for i := 0 to |INJECTION|
      invariant RefusesExactly(refuse, INJECTION[..i]) && |refuse| == 2 * i
    {
      RefuseOneMore(refuse, INJECTION[..i], INJECTION[i]);
      assert INJECTION[..i + 1] == INJECTION[..i] + [INJECTION[i]];
      refuse := refuse + [Jump(JEQ_K, INJECTION[i], 0, 1), Stmt(RET_K, RET_EPERM)];
    }
    var ioctlBlock := IoctlHead(t.ioctl, 2 * |INJECTION| + 2) + (refuse + [Stmt(RET_K, RET_ALLOW)]);
    var last := Stmt(RET_K, RET_ALLOW);
    ghost var front := prog;
    prog := prog + CloneBlock(t.clone) + ioctlBlock + [last];
    Finish(t, front, refuse, ioctlBlock);
  }

  // ---- struct.pack("<HBBI") ----------------------------------------------

  type byte = n: nat | n < 256

  function PackInsn(i: Insn): seq<byte>
    requires i.code < 65536 && i.jt < 256 && i.jf < 256 && i.k < WORD
  {
    [i.code % 256, i.code / 256, i.jt, i.jf,
     i.k % 256, i.k / 256 % 256, i.k / 65536 % 256, i.k / 16777216]
  }

  function UnpackInsn(b: seq<byte>): Insn
    requires |b| == 8
  {
    Insn(b[0] as int + 256 * b[1] as int, b[2], b[3],
         b[4] as int + 256 * b[5] as int + 65536 * b[6] as int + 16777216 * b[7] as int)
  }

  function Unpack(b: seq<byte>): (prog: seq<Insn>)
    requires |b| % 8 == 0
    ensures |prog| == |b| / 8
  {
    if b == [] then [] else [UnpackInsn(b[..8])] + Unpack(b[8..])
  }

  lemma PackInsnInverts(i: Insn)
    requires i.code < 65536 && i.jt < 256 && i.jf < 256 && i.k < WORD
    ensures UnpackInsn(PackInsn(i)) == i
  {
    assert i.k / 65536 == (i.k / 256) / 256;
    assert i.k / 16777216 == (i.k / 65536) / 256;
  }

  lemma {:induction false} UnpackAppend(b: seq<byte>, i: Insn)
    requires |b| % 8 == 0 && i.code < 65536 && i.jt < 256 && i.jf < 256 && i.k < WORD
    ensures Unpack(b + PackInsn(i)) == Unpack(b) + [i]
  {
    var all := b + PackInsn(i);
    if b == [] {
      PackInsnInverts(i);
      assert all == PackInsn(i);
      assert all[..8] == PackInsn(i) && all[8..] == [];
    } else {
      UnpackAppend(b[8..], i);
      assert all[..8] == b[..8] && all[8..] == b[8..] + PackInsn(i);
    }
  }

  method Pack(prog: seq<Insn>) returns (bytes: seq<byte>)
    requires Accepted(prog)
    ensures |bytes| == 8 * |prog| && Unpack(bytes) == prog
  {
    bytes := [];
    for n := 0 to |prog|
      invariant |bytes| == 8 * n && Unpack(bytes) == prog[..n]
    {
      assert Fits(prog[n], |prog| - n - 1);
      UnpackAppend(bytes, prog[n]);
      bytes := bytes + PackInsn(prog[n]);
    }
    assert prog[..|prog|] == prog;
  }

  // ---- The two architectures ---------------------------------------------

  /** The calls the policy names. */
  datatype Syscall =
    | Ptrace | ProcessVmReadv | ProcessVmWritev | Kcmp | PidfdGetfd | ProcessMadvise | Keyctl | AddKey
    | RequestKey | Bpf | PerfEventOpen | Userfaultfd | KexecLoad | KexecFileLoad | InitModule | FinitModule
    | DeleteModule | Mount | Umount2 | PivotRoot | Chroot | Unshare | Setns | OpenTree | MoveMount | Fsopen
    | Fsconfig | Fsmount | Fspick | MountSetattr | OpenByHandleAt | NameToHandleAt | Acct | Swapon | Swapoff
    | Reboot | Syslog | Quotactl | QuotactlFd | LookupDcookie | Iopl | Ioperm | Uselib | SysctlOld | Clone3
    | IoUringSetup | IoUringEnter | IoUringRegister | Clone | Ioctl

  function KilledCalls(): seq<Syscall> {
    [Ptrace, ProcessVmReadv, ProcessVmWritev, Kcmp, PidfdGetfd, ProcessMadvise, Keyctl, AddKey, RequestKey,
    Bpf, PerfEventOpen, Userfaultfd, KexecLoad, KexecFileLoad, InitModule, FinitModule, DeleteModule, Mount,
    Umount2, PivotRoot, Chroot, Unshare, Setns, OpenTree, MoveMount, Fsopen, Fsconfig, Fsmount, Fspick,
    MountSetattr, OpenByHandleAt, NameToHandleAt, Acct, Swapon, Swapoff, Reboot, Syslog, Quotactl,
    QuotactlFd, LookupDcookie, Iopl, Ioperm, Uselib, SysctlOld]
  }

  function EnosysCalls(): seq<Syscall> {
    [Clone3, IoUringSetup, IoUringEnter, IoUringRegister]
  }

  datatype Arch = X86_64 | AArch64 {
    function Audit(): nat { if X86_64? then 0xC000003E else 0xC00000B7 }

    /** The call's number here, if this architecture has the call. */
    function Number(s: Syscall): (n: Option<nat>)
      ensures n.Some? ==> n.value < WORD
    {
      if X86_64? then
        match s
        case Ptrace => Some(101)
        case ProcessVmReadv => Some(310)
        case ProcessVmWritev => Some(311)
        case Kcmp => Some(312)
        case PidfdGetfd => Some(438)
        case ProcessMadvise => Some(440)
        case Keyctl => Some(250)
        case AddKey => Some(248)
        case RequestKey => Some(249)
        case Bpf => Some(321)
        case PerfEventOpen => Some(298)
        case Userfaultfd => Some(323)
        case KexecLoad => Some(246)
        case KexecFileLoad => Some(320)
        case InitModule => Some(175)
        case FinitModule => Some(313)
        case DeleteModule => Some(176)
        case Mount => Some(165)
        case Umount2 => Some(166)
        case PivotRoot => Some(155)
        case Chroot => Some(161)
        case Unshare => Some(272)
        case Setns => Some(308)
        case OpenTree => Some(428)
        case MoveMount => Some(429)
        case Fsopen => Some(430)
        case Fsconfig => Some(431)
        case Fsmount => Some(432)
        case Fspick => Some(433)
        case MountSetattr => Some(442)
        case OpenByHandleAt => Some(304)
        case NameToHandleAt => Some(303)
        case Acct => Some(163)
        case Swapon => Some(167)
        case Swapoff => Some(168)
        case Reboot => Some(169)
        case Syslog => Some(103)
        case Quotactl => Some(179)
        case QuotactlFd => Some(443)
        case LookupDcookie => Some(212)
        case Iopl => Some(172)
        case Ioperm => Some(173)
        case Uselib => Some(134)
        case SysctlOld => Some(156)
        case Clone3 => Some(435)
        case IoUringSetup => Some(425)
        case IoUringEnter => Some(426)
        case IoUringRegister => Some(427)
        case Clone => Some(56)
        case Ioctl => Some(16)
      else
        match s
        case Ptrace => Some(117)
        case ProcessVmReadv => Some(270)
        case ProcessVmWritev => Some(271)
        case Kcmp => Some(272)
        case PidfdGetfd => Some(438)
        case ProcessMadvise => Some(440)
        case Keyctl => Some(219)
        case AddKey => Some(217)
        case RequestKey => Some(218)
        case Bpf => Some(280)
        case PerfEventOpen => Some(241)
        case Userfaultfd => Some(282)
        case KexecLoad => Some(104)
        case KexecFileLoad => Some(294)
        case InitModule => Some(105)
        case FinitModule => Some(273)
        case DeleteModule => Some(106)
        case Mount => Some(40)
        case Umount2 => Some(39)
        case PivotRoot => Some(41)
        case Chroot => Some(51)
        case Unshare => Some(97)
        case Setns => Some(268)
        case OpenTree => Some(428)
        case MoveMount => Some(429)
        case Fsopen => Some(430)
        case Fsconfig => Some(431)
        case Fsmount => Some(432)
        case Fspick => Some(433)
        case MountSetattr => Some(442)
        case OpenByHandleAt => Some(265)
        case NameToHandleAt => Some(264)
        case Acct => Some(89)
        case Swapon => Some(224)
        case Swapoff => Some(225)
        case Reboot => Some(142)
        case Syslog => Some(116)
        case Quotactl => Some(60)
        case QuotactlFd => Some(443)
        case LookupDcookie => Some(18)
        case Iopl => None
        case Ioperm => None
        case Uselib => None
        case SysctlOld => None
        case Clone3 => Some(435)
        case IoUringSetup => Some(425)
        case IoUringEnter => Some(426)
        case IoUringRegister => Some(427)
        case Clone => Some(220)
        case Ioctl => Some(29)
    }
  }

  /** The call each number names, read the other way round. */
  function X86Call(n: nat): Option<Syscall> {
    match n
    case 101 => Some(Ptrace)
    case 310 => Some(ProcessVmReadv)
    case 311 => Some(ProcessVmWritev)
    case 312 => Some(Kcmp)
    case 438 => Some(PidfdGetfd)
    case 440 => Some(ProcessMadvise)
    case 250 => Some(Keyctl)
    case 248 => Some(AddKey)
    case 249 => Some(RequestKey)
    case 321 => Some(Bpf)
    case 298 => Some(PerfEventOpen)
    case 323 => Some(Userfaultfd)
    case 246 => Some(KexecLoad)
    case 320 => Some(KexecFileLoad)
    case 175 => Some(InitModule)
    case 313 => Some(FinitModule)
    case 176 => Some(DeleteModule)
    case 165 => Some(Mount)
    case 166 => Some(Umount2)
    case 155 => Some(PivotRoot)
    case 161 => Some(Chroot)
    case 272 => Some(Unshare)
    case 308 => Some(Setns)
    case 428 => Some(OpenTree)
    case 429 => Some(MoveMount)
    case 430 => Some(Fsopen)
    case 431 => Some(Fsconfig)
    case 432 => Some(Fsmount)
    case 433 => Some(Fspick)
    case 442 => Some(MountSetattr)
    case 304 => Some(OpenByHandleAt)
    case 303 => Some(NameToHandleAt)
    case 163 => Some(Acct)
    case 167 => Some(Swapon)
    case 168 => Some(Swapoff)
    case 169 => Some(Reboot)
    case 103 => Some(Syslog)
    case 179 => Some(Quotactl)
    case 443 => Some(QuotactlFd)
    case 212 => Some(LookupDcookie)
    case 172 => Some(Iopl)
    case 173 => Some(Ioperm)
    case 134 => Some(Uselib)
    case 156 => Some(SysctlOld)
    case 435 => Some(Clone3)
    case 425 => Some(IoUringSetup)
    case 426 => Some(IoUringEnter)
    case 427 => Some(IoUringRegister)
    case 56 => Some(Clone)
    case 16 => Some(Ioctl)
    case _ => None
  }

  function AArchCall(n: nat): Option<Syscall> {
    match n
    case 117 => Some(Ptrace)
    case 270 => Some(ProcessVmReadv)
    case 271 => Some(ProcessVmWritev)
    case 272 => Some(Kcmp)
    case 438 => Some(PidfdGetfd)
    case 440 => Some(ProcessMadvise)
    case 219 => Some(Keyctl)
    case 217 => Some(AddKey)
    case 218 => Some(RequestKey)
    case 280 => Some(Bpf)
    case 241 => Some(PerfEventOpen)
    case 282 => Some(Userfaultfd)
    case 104 => Some(KexecLoad)
    case 294 => Some(KexecFileLoad)
    case 105 => Some(InitModule)
    case 273 => Some(FinitModule)
    case 106 => Some(DeleteModule)
    case 40 => Some(Mount)
    case 39 => Some(Umount2)
    case 41 => Some(PivotRoot)
    case 51 => Some(Chroot)
    case 97 => Some(Unshare)
    case 268 => Some(Setns)
    case 428 => Some(OpenTree)
    case 429 => Some(MoveMount)
    case 430 => Some(Fsopen)
    case 431 => Some(Fsconfig)
    case 432 => Some(Fsmount)
    case 433 => Some(Fspick)
    case 442 => Some(MountSetattr)
    case 265 => Some(OpenByHandleAt)
    case 264 => Some(NameToHandleAt)
    case 89 => Some(Acct)
    case 224 => Some(Swapon)
    case 225 => Some(Swapoff)
    case 142 => Some(Reboot)
    case 116 => Some(Syslog)
    case 60 => Some(Quotactl)
    case 443 => Some(QuotactlFd)
    case 18 => Some(LookupDcookie)
    case 435 => Some(Clone3)
    case 425 => Some(IoUringSetup)
    case 426 => Some(IoUringEnter)
    case 427 => Some(IoUringRegister)
    case 220 => Some(Clone)
    case 29 => Some(Ioctl)
    case _ => None
  }

  lemma X86Inverts(s: Syscall)
    requires X86_64.Number(s).Some?
    ensures X86Call(X86_64.Number(s).value) == Some(s)
  {
  }

  lemma AArchInverts(s: Syscall)
    requires AArch64.Number(s).Some?
    ensures AArchCall(AArch64.Number(s).value) == Some(s)
  {
  }

  /** A call has its own number on each architecture: no rule shadows another. */
  lemma NumbersDistinct(a: Arch, s: Syscall, t: Syscall)
    requires a.Number(s).Some? && a.Number(s) == a.Number(t)
    ensures s == t
  {
    if a.X86_64? {
      X86Inverts(s);
      X86Inverts(t);
    } else {
      AArchInverts(s);
      AArchInverts(t);
    }
  }

  function Numbers(a: Arch, names: seq<Syscall>): (ns: seq<nat>)
    ensures forall n :: n in ns <==> exists s :: s in names && a.Number(s) == Some(n)
    ensures forall i :: 0 <= i < |ns| ==> ns[i] < WORD
    ensures |ns| <= |names|
  {
    if names == [] then []
    else
      var rest := Numbers(a, names[1..]);
      assert names == [names[0]] + names[1..];
      match a.Number(names[0])
      case Some(n) => [n] + rest
      case None => rest
  }

  datatype Class = Kills | Enosys | Inspected

  /** Every named call is in exactly one of the three classes. */
  function ClassOf(s: Syscall): Class {
    match s
    case Clone3 => Enosys
    case IoUringSetup => Enosys
    case IoUringEnter => Enosys
    case IoUringRegister => Enosys
    case Clone => Inspected
    case Ioctl => Inspected
    case _ => Kills
  }

  lemma KilledCallsAreTheKills(s: Syscall)
    ensures s in KilledCalls() <==> ClassOf(s) == Kills
  {
  }

  lemma EnosysCallsAreTheEnosys(s: Syscall)
    ensures s in EnosysCalls() <==> ClassOf(s) == Enosys
  {
  }

  function TableFor(a: Arch, killed: seq<Syscall>, enosys: seq<Syscall>): (t: Table)
    ensures t.Valid()
  {
    Table(a.Audit(), a.X86_64?, Numbers(a, killed), Numbers(a, enosys), a.Number(Clone).value, a.Number(Ioctl).value)
  }

  /** The table of one architecture, from the two name lists. */
  function TableOf(a: Arch): (t: Table)
    ensures t.Valid()
  {
    TableFor(a, KilledCalls(), EnosysCalls())
  }

  /** Membership in the compiled number lists, by name. */
  lemma ListedByName(a: Arch, killed: seq<Syscall>, enosys: seq<Syscall>, nr: nat, s: Syscall)
    requires a.Number(s) == Some(nr)
    requires forall t :: t in killed <==> ClassOf(t) == Kills
    requires forall t :: t in enosys <==> ClassOf(t) == Enosys
    ensures nr in Numbers(a, killed) <==> ClassOf(s) == Kills
    ensures nr in Numbers(a, enosys) <==> ClassOf(s) == Enosys
    ensures a.Number(Clone) == Some(nr) <==> s == Clone
    ensures a.Number(Ioctl) == Some(nr) <==> s == Ioctl
  {
    forall t | a.Number(t) == Some(nr) ensures t == s {
      NumbersDistinct(a, s, t);
    }
  }

  /** Policy, read off the two name lists. */
  lemma PolicyOfTable(a: Arch, killed: seq<Syscall>, enosys: seq<Syscall>, c: Call)
    requires c.Valid() && c.arch == a.Audit() && (a.X86_64? ==> c.nr < X32_BIT)
    ensures Policy(TableFor(a, killed, enosys), c) ==
      if c.nr in Numbers(a, killed) then RET_KILL
      else if c.nr in Numbers(a, enosys) then RET_ENOSYS
      else if a.Number(Clone) == Some(c.nr) then
        if AsksForNamespace(c.args[0] % WORD) then RET_KILL else RET_ALLOW
      else if a.Number(Ioctl) == Some(c.nr) && c.args[1] % WORD in {TIOCSTI, TIOCLINUX} then RET_EPERM
      else RET_ALLOW
  {
  }

  /** The policy by call name, on a native call, for the lists of the two classes
      (KilledCalls and EnosysCalls are those lists): every kill-listed call
      kills, every ENOSYS-listed call fails softly, clone and ioctl are
      inspected, and a number that names no listed call is allowed. */
  lemma PolicyByName(a: Arch, killed: seq<Syscall>, enosys: seq<Syscall>, c: Call)
    requires c.Valid() && c.arch == a.Audit() && (a.X86_64? ==> c.nr < X32_BIT)
    requires forall t :: t in killed <==> ClassOf(t) == Kills
    requires forall t :: t in enosys <==> ClassOf(t) == Enosys
    ensures forall s :: a.Number(s) == Some(c.nr) ==>
      Policy(TableFor(a, killed, enosys), c) ==
        match ClassOf(s)
        case Kills => RET_KILL
        case Enosys => RET_ENOSYS
        case Inspected =>
          if s == Clone && AsksForNamespace(c.args[0] % WORD) then RET_KILL
          else if s == Ioctl && c.args[1] % WORD in {TIOCSTI, TIOCLINUX} then RET_EPERM
          else RET_ALLOW
    ensures (forall s :: a.Number(s) != Some(c.nr)) ==> Policy(TableFor(a, killed, enosys), c) == RET_ALLOW
  {
    PolicyOfTable(a, killed, enosys, c);
    forall s | a.Number(s) == Some(c.nr)
      ensures c.nr in Numbers(a, killed) <==> ClassOf(s) == Kills
      ensures c.nr in Numbers(a, enosys) <==> ClassOf(s) == Enosys
      ensures a.Number(Clone) == Some(c.nr) <==> s == Clone
      ensures a.Number(Ioctl) == Some(c.nr) <==> s == Ioctl
    {
      ListedByName(a, killed, enosys, c.nr, s);
    }
  }

  function Lower(s: string): string {
    seq(|s|, i requires 0 <= i < |s| => if 'A' <= s[i] <= 'Z' then s[i] + ' ' else s[i])
  }

  /** The supported architecture a platform.machine() value names, if any. */
  function NormalizeMachine(machine: string): Option<Arch> {
    var m := Lower(machine);
    if m == "x86_64" || m == "amd64" then Some(X86_64)
    else if m == "aarch64" || m == "arm64" then Some(AArch64)
    else None
  }

  /** build_filter: the packed bytes decode to a program that implements the policy
      of the named architecture; any other machine is refused. */
  method BuildFilter(machine: string) returns (r: Result<seq<byte>, string>)
    ensures r.Ok? <==> NormalizeMachine(machine).Some?
    ensures r.Ok? ==>
      && |r.value| % 8 == 0 && |r.value| <= 8 * 4096
      && Implements(Unpack(r.value), TableOf(NormalizeMachine(machine).value))
  {
    var arch := NormalizeMachine(machine);
    if arch.None? {
      return Err("no seccomp policy for this architecture");
    }
    var prog := Compile(TableOf(arch.value));
    var bytes := Pack(prog);
    return Ok(bytes);
  }
}
