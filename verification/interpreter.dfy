/**
 * A small evaluator for the opcodes of the time-locked contract, following
 * Bitcoin script semantics: IF/ELSE/ENDIF with an execution stack,
 * CHECKSIG/CHECKSIGVERIFY against an uninterpreted signature checker,
 * CHECKLOCKTIMEVERIFY as in the "Summary" section of BIP 65, and the
 * pay-to-script-hash spending rule of BIP 16.
 */
module Interpreter {
  import opened Wrappers
  import opened Bitcoin

  /** A stack item. Numbers and data are kept apart instead of as byte strings. */
  datatype Value = Num(n: int) | Bytes(blob: Blob)

  /** The main stack; its top is the last element. */
  type Stack = seq<Value>

  /** Interpreter state: the main stack and one flag per open IF (true = executing). */
  datatype Machine = Machine(stack: Stack, branches: seq<bool>)

  /**
   * What a script can observe of the spending transaction: the transaction,
   * the index of the input being verified and the signature checker.
   */
  datatype Env = Env(tx: Tx, inputIndex: nat, checkSig: (Signature, PubKey, Digest) -> bool)

  function Top(s: Stack): Value
    requires |s| > 0
  {
    s[|s| - 1]
  }

  function Pop(s: Stack): Stack
    requires |s| > 0
  {
    s[..|s| - 1]
  }

  /** Truth of a stack item; an abstract data push is never an encoding of zero. */
  predicate CastToBool(v: Value)
  {
    match v
    case Num(n) => n != 0
    case Bytes(_) => true
  }

  /** The item CHECKSIG leaves: 1 for success, 0 otherwise. */
  function BoolValue(b: bool): (v: Value)
    ensures CastToBool(v) == b
  {
    Num(if b then 1 else 0)
  }

  /** Ops are executed only while every enclosing IF branch is taken. */
  predicate Executing(m: Machine)
  {
    false !in m.branches
  }

  /** The value a push element puts on the stack. */
  function PushedValue(e: Element): Value
    requires !e.Op?
  {
    match e
    case PushNum(n) => Num(n)
    case PushData(b) => Bytes(b)
  }

  predicate PushOnly(p: Program)
  {
    forall i | 0 <= i < |p| :: !p[i].Op?
  }

  /** The values a push-only program leaves, bottom first. */
  function Pushed(p: Program): (s: Stack)
    requires PushOnly(p)
    ensures |s| == |p|
  {
    seq(|p|, i requires 0 <= i < |p| => PushedValue(p[i]))
  }

  /** Signature check of a CHECKSIG: a signature item, a key item, and the checker's verdict. */
  predicate SigOk(sig: Value, key: Value, env: Env, scriptCode: Program)
  {
    && sig.Bytes? && sig.blob.SigBlob?
    && key.Bytes? && key.blob.KeyBlob?
    && env.checkSig(sig.blob.sig, key.blob.key, SigHash(env.tx, env.inputIndex, scriptCode))
  }

  /**
   * The CHECKLOCKTIMEVERIFY condition of BIP 65 for operand `n`: not negative,
   * the same kind of lock time (height or timestamp) as the transaction's, not
   * above the transaction's lock time, and the input not final.
   */
  predicate LockTimeSatisfied(n: int, env: Env)
  {
    && 0 <= n
    && ((n < LockTimeThreshold) == (env.tx.lockTime < LockTimeThreshold))
    && n <= env.tx.lockTime
    && env.inputIndex < |env.tx.inputs|
    && env.tx.inputs[env.inputIndex].sequence != SequenceFinal
  }

  /** Effect of an executed non-flow element on the stack; None is a script failure. */
  function Apply(e: Element, s: Stack, env: Env, scriptCode: Program): Option<Stack>
  {
    match e
    case PushNum(n) => Some(s + [Num(n)])
    case PushData(b) => Some(s + [Bytes(b)])
    case Op(OpDrop) =>
      if |s| == 0 then None else Some(Pop(s))
    case Op(OpCheckSig) =>
      if |s| < 2 then None
      else Some(s[..|s| - 2] + [BoolValue(SigOk(s[|s| - 2], s[|s| - 1], env, scriptCode))])
    case Op(OpCheckSigVerify) =>
      if |s| < 2 || !SigOk(s[|s| - 2], s[|s| - 1], env, scriptCode) then None
      else Some(s[..|s| - 2])
    case Op(OpCheckLockTimeVerify) =>
      if |s| == 0 || !Top(s).Num? || !LockTimeSatisfied(Top(s).n, env) then None
      else Some(s)
    case Op(_) => Some(s)  // IF, ELSE and ENDIF are handled by Step
  }

  /**
   * Executes one element; None is a script failure. IF, ELSE and ENDIF are
   * processed even inside a branch that is not taken; everything else only
   * while executing.
   */
  function Step(e: Element, m: Machine, env: Env, scriptCode: Program): Option<Machine>
  {
    var s := m.stack;
    if e == Op(OpIf) then
      if !Executing(m) then Some(m.(branches := m.branches + [false]))
      else if |s| == 0 then None
      else Some(Machine(Pop(s), m.branches + [CastToBool(Top(s))]))
    else if e == Op(OpElse) then
      if |m.branches| == 0 then None
      else Some(m.(branches := m.branches[..|m.branches| - 1] + [!m.branches[|m.branches| - 1]]))
    else if e == Op(OpEndIf) then
      if |m.branches| == 0 then None
      else Some(m.(branches := m.branches[..|m.branches| - 1]))
    else if !Executing(m) then Some(m)
    else match Apply(e, s, env, scriptCode)
      case None => None
      case Some(s') => Some(m.(stack := s'))
  }

  /** Executes `p` from position `pc` on. */
  function Exec(p: Program, pc: nat, m: Machine, env: Env, scriptCode: Program): Option<Machine>
    decreases |p| - pc
  {
    if pc >= |p| then Some(m)
    else match Step(p[pc], m, env, scriptCode)
      case None => None
      case Some(m') => Exec(p, pc + 1, m', env, scriptCode)
  }

  /** Runs a whole script on a stack; an IF left open at the end is a failure. */
  function RunScript(p: Program, stack: Stack, env: Env, scriptCode: Program): Option<Stack>
  {
    match Exec(p, 0, Machine(stack, []), env, scriptCode)
    case None => None
    case Some(m) => if m.branches == [] then Some(m.stack) else None
  }

  /** A script run succeeds when it leaves a true item on top. */
  predicate Accepted(r: Option<Stack>)
  {
    r.Some? && |r.value| > 0 && CastToBool(Top(r.value))
  }

  /**
   * BIP 16 spend of an output locked by HASH160 <scriptHash> EQUAL: the scriptSig
   * is push-only, its top item is a serialized script hashing to scriptHash,
   * and that redeem script, run on the remaining items, succeeds.
   */
  predicate VerifyP2SH(scriptSig: Program, scriptHash: Hash, env: Env, hash160: Program -> Hash)
  {
    && PushOnly(scriptSig)
    && match RunScript(scriptSig, [], env, scriptSig)
       case None => false
       case Some(s) =>
         && |s| > 0
         && Top(s).Bytes? && Top(s).blob.ScriptBlob?
         && hash160(Top(s).blob.program) == scriptHash
         && Accepted(RunScript(Top(s).blob.program, Pop(s), env, Top(s).blob.program))
  }

  /** Input `index` of `tx` validly spends an output locked by `spent`. */
  predicate VerifyInput(tx: Tx, index: nat, spent: OutputScript,
                        checkSig: (Signature, PubKey, Digest) -> bool, hash160: Program -> Hash)
  {
    && index < |tx.inputs|
    && spent.PayToScriptHash?
    && VerifyP2SH(tx.inputs[index].scriptSig, spent.scriptHash, Env(tx, index, checkSig), hash160)
  }

  /** A signature checker that accepts every honestly made signature. */
  ghost predicate AcceptsHonest(checkSig: (Signature, PubKey, Digest) -> bool)
  {
    forall k: PrivKey, d: Digest :: checkSig(Signature(k, d), PubOf(k), d)
  }

  /** A signature checker that accepts a signature only for its signer's key and its own digest. */
  ghost predicate Unforgeable(checkSig: (Signature, PubKey, Digest) -> bool)
  {
    forall s: Signature, pk: PubKey, d: Digest :: checkSig(s, pk, d) ==> PubOf(s.signer) == pk && s.digest == d
  }

  /** Running push-only code from `pc` appends the remaining pushed values and opens no IF. */
  lemma {:induction false} ExecPushOnly(p: Program, pc: nat, stack: Stack, env: Env, scriptCode: Program)
    requires PushOnly(p) && pc <= |p|
    ensures Exec(p, pc, Machine(stack, []), env, scriptCode) == Some(Machine(stack + Pushed(p)[pc..], []))
    decreases |p| - pc
  {
    if pc < |p| {
      var v := PushedValue(p[pc]);
      assert Pushed(p)[pc] == v;
      assert Step(p[pc], Machine(stack, []), env, scriptCode) == Some(Machine(stack + [v], []));
      ExecPushOnly(p, pc + 1, stack + [v], env, scriptCode);
      assert Pushed(p)[pc..] == [v] + Pushed(p)[pc + 1..];
      assert stack + [v] + Pushed(p)[pc + 1..] == stack + Pushed(p)[pc..];
    } else {
      assert stack + Pushed(p)[pc..] == stack;
    }
  }

  /** A push-only script leaves exactly its pushed values, in push order. */
  lemma RunPushOnly(p: Program, stack: Stack, env: Env, scriptCode: Program)
    requires PushOnly(p)
    ensures RunScript(p, stack, env, scriptCode) == Some(stack + Pushed(p))
  {
    ExecPushOnly(p, 0, stack, env, scriptCode);
    assert Pushed(p)[0..] == Pushed(p);
  }
}
