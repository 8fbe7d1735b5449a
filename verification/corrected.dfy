/**
 * Claims signed per input. The listener signs input 0 only and copies that
 * scriptSig onto every input, so a deposit with several outputs to the
 * contract address yields a claim whose later inputs do not verify. Here each
 * input gets signatures over its own digest; the transaction is otherwise the
 * one the listener builds.
 */
module Corrected {
  import opened Wrappers
  import opened Bitcoin
  import opened Interpreter
  import opened Contract
  import opened Claim

  /** The scriptSig for input `i`, with signatures made for that input. */
  function InputScriptSig(s: Session, tx: Tx, i: nat): Program
  {
    var r := s.redeemScript;
    if s.spendAfterExpiry then
      ScriptSig([CalculateSignature(tx, i, s.userKey, r)], r, true)
    else
      ScriptSig([CalculateSignature(tx, i, s.userKey, r), CalculateSignature(tx, i, s.serviceKey, r)], r, false)
  }

  /** Every input of `tx` receives its own scriptSig; nothing a signature covers changes. */
  function SignEachInput(s: Session, tx: Tx): (r: Tx)
    ensures StripScriptSigs(r) == StripScriptSigs(tx)
    ensures |r.inputs| == |tx.inputs|
    ensures forall i | 0 <= i < |r.inputs| :: r.inputs[i].scriptSig == InputScriptSig(s, tx, i)
  {
    var r := tx.(inputs := seq(|tx.inputs|, i requires 0 <= i < |tx.inputs| =>
                                 tx.inputs[i].(scriptSig := InputScriptSig(s, tx, i))));
    assert StripScriptSigs(r).inputs == StripScriptSigs(tx).inputs;
    r
  }

  /**
   * The dispatcher with per-input signing: the same unsigned transaction as
   * onCoinsReceived, but input `i` carries signatures over its own digest.
   */
  function OnCoinsReceivedPerInput(s: Session, d: Deposit): (r: Result<Tx, ClaimError>)
    ensures r.Success? <==> s.network != MainNet
    ensures r.Success? ==>
      && StripScriptSigs(r.value) == (if s.spendAfterExpiry then PrepareSpendTx(s, d).value.(lockTime := s.expiry) else PrepareSpendTx(s, d).value)
      && forall i | 0 <= i < |r.value.inputs| ::
           r.value.inputs[i].scriptSig == ClaimScriptSig(s, SigHash(r.value, i, s.redeemScript))
  {
    match PrepareSpendTx(s, d)
    case Failure(e) => Failure(e)
    case Success(tx0) =>
      var tx := if s.spendAfterExpiry then SetSequences(tx0, 0).(lockTime := s.expiry) else tx0;
      assert tx == if s.spendAfterExpiry then tx0.(lockTime := s.expiry) else tx0;
      StripUnsigned(tx);
      Success(SignEachInput(s, tx))
  }

  /**
   * An input whose scriptSig carries the session's signatures over that
   * input's own digest is a valid spend of the contract output under an honest
   * checker, provided the lock time is reached when spending after expiry.
   */
  lemma OwnDigestSignaturesSpend(s: Session, tx: Tx, i: nat, checkSig: (Signature, PubKey, Digest) -> bool,
                                 hash160: Program -> Hash)
    requires WellFormed(s, hash160)
    requires AcceptsHonest(checkSig)
    requires i < |tx.inputs| && tx.inputs[i].scriptSig == InputScriptSig(s, tx, i)
    requires s.spendAfterExpiry ==> LockTimeSatisfied(s.expiry, Env(tx, i, checkSig))
    ensures VerifyInput(tx, i, PayToScriptHash(hash160(s.redeemScript)), checkSig, hash160)
  {
    var env := Env(tx, i, checkSig);
    var h := SigHash(tx, i, s.redeemScript);
    assert checkSig(Signature(s.userKey, h), PubOf(s.userKey), h);
    if s.spendAfterExpiry {
      RefundSpendIff(PubOf(s.serviceKey), PubOf(s.userKey), s.expiry, Signature(s.userKey, h), env, hash160);
    } else {
      assert checkSig(Signature(s.serviceKey, h), PubOf(s.serviceKey), h);
      CooperativeSpendIff(PubOf(s.serviceKey), PubOf(s.userKey), s.expiry,
                          Signature(s.userKey, h), Signature(s.serviceKey, h), env, hash160);
    }
  }

  /**
   * Every input of the per-input claim is a valid spend under an honest
   * signature checker; the after-expiry claim needs a non-negative expiry.
   */
  lemma PerInputClaimSpendsEveryInput(s: Session, d: Deposit, checkSig: (Signature, PubKey, Digest) -> bool,
                                      hash160: Program -> Hash, i: nat)
    requires WellFormed(s, hash160)
    requires AcceptsHonest(checkSig)
    requires s.spendAfterExpiry ==> 0 <= s.expiry
    requires OnCoinsReceivedPerInput(s, d).Success? && i < |OnCoinsReceivedPerInput(s, d).value.inputs|
    ensures var tx := OnCoinsReceivedPerInput(s, d).value;
            VerifyInput(tx, i, SpentScript(d, tx.inputs[i]), checkSig, hash160)
  {
    var tx := OnCoinsReceivedPerInput(s, d).value;
    var written := OnCoinsReceived(s, d).value;
    assert tx.inputs[i].prevOut == StripScriptSigs(tx).inputs[i].prevOut == written.inputs[i].prevOut;
    ClaimInputsSpendContract(s, d, hash160, i);
    assert tx.inputs[i].scriptSig == InputScriptSig(s, tx, i);
    if s.spendAfterExpiry {
      // the claim's lock time is the expiry itself, so both are of the same kind
      assert tx.lockTime == s.expiry;
      assert tx.inputs[i].sequence == StripScriptSigs(tx).inputs[i].sequence == 0;
    }
    OwnDigestSignaturesSpend(s, tx, i, checkSig, hash160);
  }
}
