/**
 * The time-locked contract of CLTVRefund: the redeem script builder, the
 * scriptSig builder, and what the redeem script demands of a spender, stated
 * per branch.
 */
module Contract {
  import opened Wrappers
  import opened Bitcoin
  import opened Interpreter

  /** Positions of the flow-control opcodes in the redeem script. */
  const IfAt: nat := 0
  const ElseAt: nat := 3
  const EndIfAt: nat := 7

  /**
   * createTimeLockedContract:
   *   IF <service> CHECKSIGVERIFY ELSE <expiry> CHECKLOCKTIMEVERIFY DROP ENDIF <user> CHECKSIG
   */
  function RedeemScript(service: PubKey, user: PubKey, expiry: int): (r: Program)
    ensures |r| == 10
    ensures r[IfAt] == Op(OpIf) && r[ElseAt] == Op(OpElse) && r[EndIfAt] == Op(OpEndIf)
    // the service key is checked only inside the IF branch
    ensures forall i | 0 <= i < |r| && r[i].PushData? && r[i].data == KeyBlob(service) && service != user ::
      IfAt < i < ElseAt
    // the expiry is pushed, and the lock time checked, only inside the ELSE branch
    ensures forall i | 0 <= i < |r| && (r[i].PushNum? || r[i] == Op(OpCheckLockTimeVerify)) :: ElseAt < i < EndIfAt
    // the user key is checked after ENDIF, on both paths
    ensures forall i | 0 <= i < |r| && r[i].PushData? && r[i].data == KeyBlob(user) && service != user ::
      EndIfAt < i
    ensures r[|r| - 1] == Op(OpCheckSig)
    // each key and the expiry is pushed first thing in the part of the script that checks it
    ensures r[IfAt + 1] == PushData(KeyBlob(service))
    ensures r[ElseAt + 1] == PushNum(expiry)
    ensures r[EndIfAt + 1] == PushData(KeyBlob(user))
  {
    [ Op(OpIf),
        PushData(KeyBlob(service)), Op(OpCheckSigVerify),
      Op(OpElse),
        PushNum(expiry), Op(OpCheckLockTimeVerify), Op(OpDrop),
      Op(OpEndIf),
      PushData(KeyBlob(user)), Op(OpCheckSig) ]
  }

  /** The redeem script is determined by, and determines, its two keys and its expiry. */
  lemma RedeemScriptInjective(service: PubKey, user: PubKey, expiry: int,
                              service': PubKey, user': PubKey, expiry': int)
    ensures RedeemScript(service, user, expiry) == RedeemScript(service', user', expiry')
            <==> service == service' && user == user' && expiry == expiry'
  {
  }

  /** The value pushed as branch selector: 0 selects ELSE (after expiry), 1 selects IF. */
  function Selector(spendAfterExpiry: bool): int
  {
    if spendAfterExpiry then 0 else 1
  }

  /** One push per signature, in the order given. */
  function PushSignatures(sigs: seq<Signature>): (r: Program)
    ensures |r| == |sigs|
    ensures forall i | 0 <= i < |sigs| :: r[i] == PushData(SigBlob(sigs[i]))
  {
    if |sigs| == 0 then []
    else PushSignatures(sigs[..|sigs| - 1]) + [PushData(SigBlob(sigs[|sigs| - 1]))]
  }

  /**
   * createScriptSig: a push of each signature in the order given, then the
   * branch selector, then the whole redeem script as one data push.
   */
  function ScriptSig(sigs: seq<Signature>, redeem: Program, spendAfterExpiry: bool): (r: Program)
    ensures |r| == |sigs| + 2
    ensures forall i | 0 <= i < |sigs| :: r[i] == PushData(SigBlob(sigs[i]))
    ensures r[|sigs|] == PushNum(Selector(spendAfterExpiry))
    ensures r[|sigs| + 1] == PushData(ScriptBlob(redeem))
    ensures PushOnly(r)
  {
    PushSignatures(sigs) + [PushNum(Selector(spendAfterExpiry)), PushData(ScriptBlob(redeem))]
  }

  /** The stack items of the given signatures, bottom first. */
  function SigValues(sigs: seq<Signature>): (s: Stack)
    ensures |s| == |sigs|
  {
    seq(|sigs|, i requires 0 <= i < |sigs| => Bytes(SigBlob(sigs[i])))
  }

  /** Running a scriptSig leaves the signatures in order, then the selector, then the redeem script. */
  lemma ScriptSigLeaves(sigs: seq<Signature>, redeem: Program, spendAfterExpiry: bool,
                        env: Env, scriptCode: Program)
    ensures RunScript(ScriptSig(sigs, redeem, spendAfterExpiry), [], env, scriptCode)
            == Some(SigValues(sigs) + [Num(Selector(spendAfterExpiry)), Bytes(ScriptBlob(redeem))])
  {
    var p := ScriptSig(sigs, redeem, spendAfterExpiry);
    RunPushOnly(p, [], env, scriptCode);
    assert [] + Pushed(p) == SigValues(sigs) + [Num(Selector(spendAfterExpiry)), Bytes(ScriptBlob(redeem))];
  }

  /** The two ways to satisfy the contract. */
  datatype Branch = Cooperative | Refund

  /** The branch a selector item enters: a true item enters IF, the cooperative branch. */
  function ChosenBranch(selector: Value): Branch
  {
    if CastToBool(selector) then Cooperative else Refund
  }

  lemma SelectorChoosesBranch(spendAfterExpiry: bool)
    ensures ChosenBranch(Num(Selector(spendAfterExpiry))) == if spendAfterExpiry then Refund else Cooperative
  {
  }

  /** The trailing check both branches share: the user's signature, with its verdict left on the stack. */
  function UserCheck(s: Stack, user: PubKey, env: Env, scriptCode: Program): Option<Stack>
  {
    if |s| == 0 then None
    else Some(Pop(s) + [BoolValue(SigOk(Top(s), Bytes(KeyBlob(user)), env, scriptCode))])
  }

  /**
   * What the contract does to a stack, stated per branch: the top item selects
   * the branch; the cooperative branch needs a service signature below it, the
   * refund branch needs the lock time to have been reached; both end with the
   * user's signature check.
   */
  function ContractOutcome(service: PubKey, user: PubKey, expiry: int, stack: Stack,
                           env: Env, scriptCode: Program): Option<Stack>
  {
    if |stack| == 0 then None
    else
      var rest := Pop(stack);
      match ChosenBranch(Top(stack))
      case Cooperative =>
        if |rest| == 0 || !SigOk(Top(rest), Bytes(KeyBlob(service)), env, scriptCode) then None
        else UserCheck(Pop(rest), user, env, scriptCode)
      case Refund =>
        if !LockTimeSatisfied(expiry, env) then None
        else UserCheck(rest, user, env, scriptCode)
  }

  /** The redeem script, run opcode by opcode, does exactly what the per-branch description says. */
  lemma RedeemScriptSemantics(service: PubKey, user: PubKey, expiry: int, stack: Stack, env: Env)
    ensures var r := RedeemScript(service, user, expiry);
            RunScript(r, stack, env, r) == ContractOutcome(service, user, expiry, stack, env, r)
  {
    var r := RedeemScript(service, user, expiry);
    if |stack| == 0 {
      assert Exec(r, 0, Machine(stack, []), env, r) == None;
    } else if CastToBool(Top(stack)) {
      CooperativeRun(service, user, expiry, stack, env);
    } else {
      RefundRun(service, user, expiry, stack, env);
    }
  }

  /** The IF branch: the service signature is checked, the ELSE part is skipped. */
  lemma CooperativeRun(service: PubKey, user: PubKey, expiry: int, stack: Stack, env: Env)
    requires |stack| > 0 && CastToBool(Top(stack))
    ensures var r := RedeemScript(service, user, expiry);
            RunScript(r, stack, env, r) == ContractOutcome(service, user, expiry, stack, env, r)
  {
    var r := RedeemScript(service, user, expiry);
    var rest := Pop(stack);
    var m1 := Machine(rest, [true]);
    assert [] + [CastToBool(Top(stack))] == [true];
    assert Step(r[0], Machine(stack, []), env, r) == Some(m1);
    assert Exec(r, 0, Machine(stack, []), env, r) == Exec(r, 1, m1, env, r);
    var m2 := Machine(rest + [Bytes(KeyBlob(service))], [true]);
    assert Exec(r, 1, m1, env, r) == Exec(r, 2, m2, env, r);
    if |rest| == 0 {
      assert Exec(r, 2, m2, env, r) == None;
    } else if !SigOk(Top(rest), Bytes(KeyBlob(service)), env, r) {
      assert m2.stack[|m2.stack| - 2] == Top(rest);
      assert Exec(r, 2, m2, env, r) == None;
    } else {
      var s := Pop(rest);
      assert m2.stack[..|m2.stack| - 2] == s;
      assert m2.stack[|m2.stack| - 2] == Top(rest);
      var m3 := Machine(s, [true]);
      assert Exec(r, 2, m2, env, r) == Exec(r, 3, m3, env, r);
      SkipElsePart(service, user, expiry, s, env);
      TrailingUserCheck(service, user, expiry, s, env);
    }
  }

  /** From ELSE to ENDIF when the IF branch was taken: nothing runs. */
  lemma SkipElsePart(service: PubKey, user: PubKey, expiry: int, s: Stack, env: Env)
    ensures var r := RedeemScript(service, user, expiry);
            Exec(r, 3, Machine(s, [true]), env, r) == Exec(r, 8, Machine(s, []), env, r)
  {
    var r := RedeemScript(service, user, expiry);
    var m4 := Machine(s, [false]);
    assert [true][..0] + [!true] == [false];
    assert Exec(r, 3, Machine(s, [true]), env, r) == Exec(r, 4, m4, env, r);
    assert Exec(r, 4, m4, env, r) == Exec(r, 5, m4, env, r);
    assert Exec(r, 5, m4, env, r) == Exec(r, 6, m4, env, r);
    assert Exec(r, 6, m4, env, r) == Exec(r, 7, m4, env, r);
    assert Exec(r, 7, m4, env, r) == Exec(r, 8, Machine(s, []), env, r);
  }

  /** The ELSE branch: the IF part is skipped, then the lock time is checked. */
  lemma RefundRun(service: PubKey, user: PubKey, expiry: int, stack: Stack, env: Env)
    requires |stack| > 0 && !CastToBool(Top(stack))
    ensures var r := RedeemScript(service, user, expiry);
            RunScript(r, stack, env, r) == ContractOutcome(service, user, expiry, stack, env, r)
  {
    var r := RedeemScript(service, user, expiry);
    var rest := Pop(stack);
    var m1 := Machine(rest, [false]);
    assert [] + [CastToBool(Top(stack))] == [false];
    assert Step(r[0], Machine(stack, []), env, r) == Some(m1);
    assert Exec(r, 0, Machine(stack, []), env, r) == Exec(r, 1, m1, env, r);
    SkipIfPart(service, user, expiry, rest, env);
    LockTimePart(service, user, expiry, rest, env);
    if LockTimeSatisfied(expiry, env) {
      TrailingUserCheck(service, user, expiry, rest, env);
    }
  }

  /** From IF to ELSE when the IF branch was not taken: nothing runs, then ELSE flips the branch. */
  lemma SkipIfPart(service: PubKey, user: PubKey, expiry: int, s: Stack, env: Env)
    ensures var r := RedeemScript(service, user, expiry);
            Exec(r, 1, Machine(s, [false]), env, r) == Exec(r, 4, Machine(s, [true]), env, r)
  {
    var r := RedeemScript(service, user, expiry);
    var m1 := Machine(s, [false]);
    assert !Executing(m1);
    assert Step(r[1], m1, env, r) == Some(m1);
    assert Exec(r, 1, m1, env, r) == Exec(r, 2, m1, env, r);
    assert Step(r[2], m1, env, r) == Some(m1);
    assert Exec(r, 2, m1, env, r) == Exec(r, 3, m1, env, r);
    assert [false][..0] + [!false] == [true];
    assert Step(r[3], m1, env, r) == Some(Machine(s, [true]));
    assert Exec(r, 3, m1, env, r) == Exec(r, 4, Machine(s, [true]), env, r);
  }

  /** <expiry> CHECKLOCKTIMEVERIFY DROP ENDIF, inside the taken ELSE branch. */
  lemma LockTimePart(service: PubKey, user: PubKey, expiry: int, s: Stack, env: Env)
    ensures var r := RedeemScript(service, user, expiry);
            Exec(r, 4, Machine(s, [true]), env, r)
            == if LockTimeSatisfied(expiry, env) then Exec(r, 8, Machine(s, []), env, r) else None
  {
    var r := RedeemScript(service, user, expiry);
    var m3 := Machine(s, [true]);
    var m4 := Machine(s + [Num(expiry)], [true]);
    assert Exec(r, 4, m3, env, r) == Exec(r, 5, m4, env, r);
    if LockTimeSatisfied(expiry, env) {
      assert Exec(r, 5, m4, env, r) == Exec(r, 6, m4, env, r);
      assert Pop(m4.stack) == s;
      assert Exec(r, 6, m4, env, r) == Exec(r, 7, m3, env, r);
      assert Exec(r, 7, m3, env, r) == Exec(r, 8, Machine(s, []), env, r);
    } else {
      assert Exec(r, 5, m4, env, r) == None;
    }
  }

  /** The part after ENDIF: push the user key and CHECKSIG. */
  lemma TrailingUserCheck(service: PubKey, user: PubKey, expiry: int, s: Stack, env: Env)
    ensures var r := RedeemScript(service, user, expiry);
            match Exec(r, 8, Machine(s, []), env, r)
            case None => UserCheck(s, user, env, r).None?
            case Some(m) => m.branches == [] && UserCheck(s, user, env, r) == Some(m.stack)
  {
    var r := RedeemScript(service, user, expiry);
    var m9 := Machine(s + [Bytes(KeyBlob(user))], []);
    assert Exec(r, 8, Machine(s, []), env, r) == Exec(r, 9, m9, env, r);
    if |s| > 0 {
      assert m9.stack[..|m9.stack| - 2] == Pop(s);
      assert m9.stack[|m9.stack| - 2] == Top(s);
      var m10 := Machine(Pop(s) + [BoolValue(SigOk(Top(s), Bytes(KeyBlob(user)), env, r))], []);
      assert Step(r[9], m9, env, r) == Some(m10);
      assert Exec(r, 9, m9, env, r) == Exec(r, 10, m10, env, r) == Some(m10);
    } else {
      assert Step(r[9], m9, env, r) == None;
    }
  }

  /**
   * BIP 16 spend of the contract's P2SH output with a scriptSig from
   * createScriptSig succeeds exactly when the contract accepts the pushed
   * signatures and selector.
   */
  lemma ContractSpendIff(service: PubKey, user: PubKey, expiry: int, sigs: seq<Signature>,
                         spendAfterExpiry: bool, env: Env, hash160: Program -> Hash)
    ensures var r := RedeemScript(service, user, expiry);
            VerifyP2SH(ScriptSig(sigs, r, spendAfterExpiry), hash160(r), env, hash160)
            <==> Accepted(ContractOutcome(service, user, expiry,
                                          SigValues(sigs) + [Num(Selector(spendAfterExpiry))], env, r))
  {
    var r := RedeemScript(service, user, expiry);
    var ss := ScriptSig(sigs, r, spendAfterExpiry);
    var below := SigValues(sigs) + [Num(Selector(spendAfterExpiry))];
    ScriptSigLeaves(sigs, r, spendAfterExpiry, env, ss);
    var st := below + [Bytes(ScriptBlob(r))];
    assert SigValues(sigs) + [Num(Selector(spendAfterExpiry)), Bytes(ScriptBlob(r))] == st;
    assert Top(st) == Bytes(ScriptBlob(r)) && Pop(st) == below;
    RedeemScriptSemantics(service, user, expiry, below, env);
  }

  /**
   * The before-expiry scriptSig [first, second, 1, redeem] spends exactly when
   * `second` is valid for the service key and `first` for the user key, over
   * the input's digest. Lock time and sequence play no part.
   */
  lemma CooperativeSpendIff(service: PubKey, user: PubKey, expiry: int, first: Signature,
                            second: Signature, env: Env, hash160: Program -> Hash)
    ensures var r := RedeemScript(service, user, expiry);
            var h := SigHash(env.tx, env.inputIndex, r);
            VerifyP2SH(ScriptSig([first, second], r, false), hash160(r), env, hash160)
            <==> env.checkSig(second, service, h) && env.checkSig(first, user, h)
  {
    var r := RedeemScript(service, user, expiry);
    ContractSpendIff(service, user, expiry, [first, second], false, env, hash160);
    var stack := SigValues([first, second]) + [Num(1)];
    assert stack == [Bytes(SigBlob(first)), Bytes(SigBlob(second)), Num(1)];
    assert Pop(stack) == [Bytes(SigBlob(first)), Bytes(SigBlob(second))];
  }

  /**
   * The after-expiry scriptSig [sig, 0, redeem] spends exactly when the BIP 65
   * lock-time condition holds for the expiry and `sig` is valid for the user key.
   */
  lemma RefundSpendIff(service: PubKey, user: PubKey, expiry: int, sig: Signature,
                       env: Env, hash160: Program -> Hash)
    ensures var r := RedeemScript(service, user, expiry);
            VerifyP2SH(ScriptSig([sig], r, true), hash160(r), env, hash160)
            <==> LockTimeSatisfied(expiry, env) && env.checkSig(sig, user, SigHash(env.tx, env.inputIndex, r))
  {
    ContractSpendIff(service, user, expiry, [sig], true, env, hash160);
    var stack := SigValues([sig]) + [Num(0)];
    assert stack == [Bytes(SigBlob(sig)), Num(0)];
    assert Pop(stack) == [Bytes(SigBlob(sig))];
  }

  /** Valid user and service signatures, in that order, spend at any lock time and sequence. */
  lemma CooperativeSpendAnyLockTime(userKey: PrivKey, serviceKey: PrivKey, expiry: int,
                                    env: Env, hash160: Program -> Hash)
    requires AcceptsHonest(env.checkSig)
    ensures var r := RedeemScript(PubOf(serviceKey), PubOf(userKey), expiry);
            var h := SigHash(env.tx, env.inputIndex, r);
            VerifyP2SH(ScriptSig([Signature(userKey, h), Signature(serviceKey, h)], r, false),
                       hash160(r), env, hash160)
  {
    var r := RedeemScript(PubOf(serviceKey), PubOf(userKey), expiry);
    var h := SigHash(env.tx, env.inputIndex, r);
    assert env.checkSig(Signature(userKey, h), PubOf(userKey), h);
    assert env.checkSig(Signature(serviceKey, h), PubOf(serviceKey), h);
    CooperativeSpendIff(PubOf(serviceKey), PubOf(userKey), expiry,
                        Signature(userKey, h), Signature(serviceKey, h), env, hash160);
  }

  /**
   * With distinct keys and an unforgeable checker, the two signatures in the
   * wrong order [service, user] never spend, whatever they sign.
   */
  lemma SwappedSignaturesRejected(userKey: PrivKey, serviceKey: PrivKey, expiry: int,
                                  userSig: Signature, serviceSig: Signature,
                                  env: Env, hash160: Program -> Hash)
    requires userKey != serviceKey
    requires userSig.signer == userKey && serviceSig.signer == serviceKey
    requires Unforgeable(env.checkSig)
    ensures var r := RedeemScript(PubOf(serviceKey), PubOf(userKey), expiry);
            !VerifyP2SH(ScriptSig([serviceSig, userSig], r, false), hash160(r), env, hash160)
  {
    var r := RedeemScript(PubOf(serviceKey), PubOf(userKey), expiry);
    var h := SigHash(env.tx, env.inputIndex, r);
    CooperativeSpendIff(PubOf(serviceKey), PubOf(userKey), expiry, serviceSig, userSig, env, hash160);
    if env.checkSig(userSig, PubOf(serviceKey), h) {
      PubOfInjective(userKey, serviceKey);
    }
  }

  /**
   * A refund spend succeeds only at a lock time of at least the expiry, of the
   * same kind (height or timestamp), on an input whose sequence is not final;
   * with a valid user signature those conditions also suffice.
   */
  lemma RefundOnlyAfterExpiry(userKey: PrivKey, service: PubKey, expiry: int, sig: Signature,
                              env: Env, hash160: Program -> Hash)
    ensures var r := RedeemScript(service, PubOf(userKey), expiry);
            VerifyP2SH(ScriptSig([sig], r, true), hash160(r), env, hash160)
            ==> && 0 <= expiry <= env.tx.lockTime
                && env.inputIndex < |env.tx.inputs|
                && env.tx.inputs[env.inputIndex].sequence != SequenceFinal
    ensures var r := RedeemScript(service, PubOf(userKey), expiry);
            && AcceptsHonest(env.checkSig)
            && sig == Signature(userKey, SigHash(env.tx, env.inputIndex, r))
            && 0 <= expiry <= env.tx.lockTime
            && (expiry < LockTimeThreshold <==> env.tx.lockTime < LockTimeThreshold)
            && env.inputIndex < |env.tx.inputs|
            && env.tx.inputs[env.inputIndex].sequence != SequenceFinal
            ==> VerifyP2SH(ScriptSig([sig], r, true), hash160(r), env, hash160)
  {
    RefundSpendIff(service, PubOf(userKey), expiry, sig, env, hash160);
  }
}
