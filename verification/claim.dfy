/**
 * The session state of CLTVRefund and its coins-received listener: the spend
 * transaction prepared from a deposit, the two claims, and the dispatcher
 * choosing between them.
 */
module Claim {
  import opened Wrappers
  import opened Bitcoin
  import opened Interpreter
  import opened Contract

  /** Blocks between the last seen height and the contract's expiry. */
  const ExpiryMargin: int := 3

  /** The fixed address claims pay back to. */
  const SendBackBase58: string := "mmtFy7wWbzFktUmc6JiudYprEu4bxR8Vun"

  /** Why a claim could not be built. */
  datatype ClaimError =
    /** Address.fromBase58 refuses the send-back address on this network. */
    | SendBackAddressRejected

  /** The fields of a running CLTVRefund instance that the listener reads. */
  datatype Session = Session(
    network: Network,
    spendAfterExpiry: bool,
    userKey: PrivKey,
    serviceKey: PrivKey,
    expiry: int,
    redeemScript: Program,
    address: Address)

  /** The redeem script holds the session's keys and expiry, and the address commits to it. */
  predicate WellFormed(s: Session, hash160: Program -> Hash)
  {
    && s.redeemScript == RedeemScript(PubOf(s.serviceKey), PubOf(s.userKey), s.expiry)
    && s.address == ScriptHashAddress(s.network, hash160(s.redeemScript))
  }

  /**
   * The protocol part of `run`: the expiry is three blocks past the last seen
   * height, the redeem script is built from it, and the deposit address is the
   * P2SH address of the redeem script.
   */
  function StartSession(network: Network, spendAfterExpiry: bool, lastSeenHeight: int,
                        userKey: PrivKey, serviceKey: PrivKey, hash160: Program -> Hash): (s: Session)
    ensures WellFormed(s, hash160)
    ensures s.expiry - lastSeenHeight == ExpiryMargin
    ensures s.network == network && s.spendAfterExpiry == spendAfterExpiry
    ensures s.userKey == userKey && s.serviceKey == serviceKey
  {
    var expiry := lastSeenHeight + ExpiryMargin;
    var redeem := RedeemScript(PubOf(serviceKey), PubOf(userKey), expiry);
    Session(network, spendAfterExpiry, userKey, serviceKey, expiry, redeem,
            ScriptHashAddress(network, hash160(redeem)))
  }

  /**
   * Address.fromBase58 of the send-back address. Its leading 'm' is the
   * version byte 111, which TestNet3 and RegTest accept and MainNet rejects.
   */
  function SendBackAddress(network: Network): (a: Option<Address>)
    ensures a.Some? <==> network != MainNet
    ensures a.Some? ==> OutputScriptFor(a.value) == PayToKeyHash(SendBackBase58)
  {
    if network == MainNet then None else Some(KeyHashAddress(network, SendBackBase58))
  }

  /** The output pays the session's P2SH address (getAddressFromP2SH, then equals). */
  predicate Matches(o: TxOut, s: Session)
  {
    AddressFromP2SH(o.script, s.network) == Some(s.address)
  }

  /** For a well-formed session, an output matches exactly when it is locked to the redeem script's hash. */
  lemma MatchesIff(o: TxOut, s: Session, hash160: Program -> Hash)
    requires WellFormed(s, hash160)
    ensures Matches(o, s) <==> o.script == PayToScriptHash(hash160(s.redeemScript))
  {
  }

  /** The value of the deposit output an input spends (0 if it names no output). */
  function ValueOf(i: TxIn, d: Deposit): int
  {
    if i.prevOut.index < |d.outputs| then d.outputs[i.prevOut.index].value else 0
  }

  /** The total value of the deposit outputs the inputs spend. */
  function InputValue(ins: seq<TxIn>, d: Deposit): int
  {
    if |ins| == 0 then 0 else InputValue(ins[..|ins| - 1], d) + ValueOf(ins[|ins| - 1], d)
  }

  /**
   * The input is one prepareSpendTx adds: it spends a matching output among
   * the first `n` of the deposit, has sequence 0 and no scriptSig yet.
   */
  predicate SpendsMatched(i: TxIn, d: Deposit, s: Session, n: nat)
  {
    && i.prevOut.txid == d.txid
    && i.prevOut.index < n
    && i.prevOut.index < |d.outputs|
    && Matches(d.outputs[i.prevOut.index], s)
    && i.sequence == 0
    && i.scriptSig == []
  }

  /** Inputs appear in the order of the outputs they spend, each output at most once. */
  predicate InOutputOrder(ins: seq<TxIn>)
  {
    forall j, k | 0 <= j < k < |ins| :: ins[j].prevOut.index < ins[k].prevOut.index
  }

  /** The loop of prepareSpendTx over the first `n` outputs: the inputs added and the amount summed. */
  function Gather(d: Deposit, s: Session, n: nat): (g: (seq<TxIn>, int))
    requires n <= |d.outputs|
  {
    if n == 0 then ([], 0)
    else
      var (ins, amount) := Gather(d, s, n - 1);
      var out := d.outputs[n - 1];
      if Matches(out, s) then
        (ins + [NewInput(OutPoint(d.txid, n - 1)).(sequence := 0)], amount + out.value)
      else
        (ins, amount)
  }

  /** One loop iteration: the input added for output `n - 1`, if it matches. */
  lemma GatherStep(d: Deposit, s: Session, n: nat)
    requires 0 < n <= |d.outputs|
    ensures var (ins, amount) := Gather(d, s, n - 1);
            var input := NewInput(OutPoint(d.txid, n - 1)).(sequence := 0);
            Gather(d, s, n) == if Matches(d.outputs[n - 1], s) then (ins + [input], amount + d.outputs[n - 1].value)
                               else (ins, amount)
  {
  }

  /** Every input the loop adds spends a matching output already visited, with sequence 0. */
  lemma {:induction false} GatherSpendsMatched(d: Deposit, s: Session, n: nat)
    requires n <= |d.outputs|
    ensures var g := Gather(d, s, n);
            forall j | 0 <= j < |g.0| :: SpendsMatched(g.0[j], d, s, n)
  {
    if n > 0 {
      GatherSpendsMatched(d, s, n - 1);
      GatherStep(d, s, n);
      var ins := Gather(d, s, n - 1).0;
      var g := Gather(d, s, n).0;
      forall j | 0 <= j < |g| ensures SpendsMatched(g[j], d, s, n) {
        if j < |ins| {
          assert g[j] == ins[j];
          assert SpendsMatched(ins[j], d, s, n - 1);
        }
      }
    }
  }

  /** Every matching output among the first `n` is spent by some input. */
  lemma {:induction false} GatherCoversMatches(d: Deposit, s: Session, n: nat)
    requires n <= |d.outputs|
    ensures var g := Gather(d, s, n);
            forall k | 0 <= k < n && Matches(d.outputs[k], s) ::
              exists j | 0 <= j < |g.0| :: g.0[j].prevOut.index == k
  {
    if n > 0 {
      GatherCoversMatches(d, s, n - 1);
      GatherStep(d, s, n);
      var ins := Gather(d, s, n - 1).0;
      var g := Gather(d, s, n).0;
      forall k | 0 <= k < n && Matches(d.outputs[k], s)
        ensures exists j | 0 <= j < |g| :: g[j].prevOut.index == k
      {
        if k == n - 1 {
          assert g[|ins|].prevOut.index == k;
        } else {
          var j :| 0 <= j < |ins| && ins[j].prevOut.index == k;
          assert g[j] == ins[j];
        }
      }
    }
  }

  /** The inputs follow the order of the outputs they spend. */
  lemma {:induction false} GatherOrdered(d: Deposit, s: Session, n: nat)
    requires n <= |d.outputs|
    ensures InOutputOrder(Gather(d, s, n).0)
  {
    if n > 0 {
      GatherOrdered(d, s, n - 1);
      GatherSpendsMatched(d, s, n - 1);
      GatherStep(d, s, n);
      var ins := Gather(d, s, n - 1).0;
      var g := Gather(d, s, n).0;
      if g != ins {
        forall j, k | 0 <= j < k < |g| ensures g[j].prevOut.index < g[k].prevOut.index {
          assert g[j] == ins[j];
          assert ins[j].prevOut.index < n - 1 by {
            assert SpendsMatched(ins[j], d, s, n - 1);
          }
          if k < |ins| {
            assert g[k] == ins[k];
          }
        }
      }
    }
  }

  /** The amount the loop sums is the total value of the outputs its inputs spend. */
  lemma {:induction false} GatherSummed(d: Deposit, s: Session, n: nat)
    requires n <= |d.outputs|
    ensures Gather(d, s, n).1 == InputValue(Gather(d, s, n).0, d)
  {
    if n > 0 {
      GatherSummed(d, s, n - 1);
      GatherStep(d, s, n);
      var ins := Gather(d, s, n - 1).0;
      var g := Gather(d, s, n).0;
      if g != ins {
        assert g[..|g| - 1] == ins;
        assert ValueOf(g[|g| - 1], d) == d.outputs[n - 1].value;
      }
    }
  }

  /**
   * After `n` iterations the loop has added one input per matching output
   * among the first `n`, in output order, and summed exactly their values.
   */
  lemma GatherSpec(d: Deposit, s: Session, n: nat)
    requires n <= |d.outputs|
    ensures var g := Gather(d, s, n);
            && (forall j | 0 <= j < |g.0| :: SpendsMatched(g.0[j], d, s, n))
            && (forall k | 0 <= k < n && Matches(d.outputs[k], s) ::
                  exists j | 0 <= j < |g.0| :: g.0[j].prevOut.index == k)
            && InOutputOrder(g.0)
            && g.1 == InputValue(g.0, d)
  {
    GatherSpendsMatched(d, s, n);
    GatherCoversMatches(d, s, n);
    GatherOrdered(d, s, n);
    GatherSummed(d, s, n);
  }

  /**
   * prepareSpendTx: one input per deposit output paying the contract address,
   * in output order, each with sequence 0; one output to the send-back
   * address worth the spent value minus MILLICOIN. Nothing guards against no
   * matching output or a value not above the fee.
   */
  function PrepareSpendTx(s: Session, d: Deposit): (r: Result<Tx, ClaimError>)
    ensures r.Success? <==> s.network != MainNet
    ensures r.Success? ==>
      && (forall j | 0 <= j < |r.value.inputs| :: SpendsMatched(r.value.inputs[j], d, s, |d.outputs|))
      && (forall k | 0 <= k < |d.outputs| && Matches(d.outputs[k], s) ::
            exists j | 0 <= j < |r.value.inputs| :: r.value.inputs[j].prevOut.index == k)
      && InOutputOrder(r.value.inputs)
      && r.value.outputs == [TxOut(InputValue(r.value.inputs, d) - Millicoin, PayToKeyHash(SendBackBase58))]
      && r.value.lockTime == DefaultLockTime
  {
    GatherSpec(d, s, |d.outputs|);
    var (ins, amount) := Gather(d, s, |d.outputs|);
    match SendBackAddress(s.network)
    case None => Failure(SendBackAddressRejected)
    case Some(to) => Success(Tx(ins, [TxOut(amount - Millicoin, OutputScriptFor(to))], DefaultLockTime))
  }

  /** With no matching output the spend has no input and an output of minus the fee. */
  lemma NoMatchNegativeOutput(s: Session, d: Deposit)
    requires s.network != MainNet
    requires forall k | 0 <= k < |d.outputs| :: !Matches(d.outputs[k], s)
    ensures PrepareSpendTx(s, d).value.inputs == []
    ensures PrepareSpendTx(s, d).value.outputs[0].value == -Millicoin
  {
  }

  /** Two deposit outputs paying the contract address give at least two inputs. */
  lemma TwoMatchesTwoInputs(s: Session, d: Deposit)
    requires s.network != MainNet
    requires |d.outputs| >= 2 && Matches(d.outputs[0], s) && Matches(d.outputs[1], s)
    ensures |PrepareSpendTx(s, d).value.inputs| >= 2
  {
  }

  /** Every input's sequence set to `n`; nothing else changes. */
  function SetSequences(tx: Tx, n: int): (r: Tx)
    ensures |r.inputs| == |tx.inputs| && r.outputs == tx.outputs && r.lockTime == tx.lockTime
    ensures forall i | 0 <= i < |r.inputs| :: r.inputs[i] == tx.inputs[i].(sequence := n)
  {
    tx.(inputs := seq(|tx.inputs|, i requires 0 <= i < |tx.inputs| => tx.inputs[i].(sequence := n)))
  }

  /** The same scriptSig set on every input; nothing a signature covers changes. */
  function AttachScriptSig(tx: Tx, scriptSig: Program): (r: Tx)
    ensures StripScriptSigs(r) == StripScriptSigs(tx)
    ensures |r.inputs| == |tx.inputs| && r.outputs == tx.outputs && r.lockTime == tx.lockTime
    ensures forall i | 0 <= i < |r.inputs| :: r.inputs[i] == tx.inputs[i].(scriptSig := scriptSig)
  {
    var r := tx.(inputs := seq(|tx.inputs|, i requires 0 <= i < |tx.inputs| => tx.inputs[i].(scriptSig := scriptSig)));
    assert StripScriptSigs(r).inputs == StripScriptSigs(tx).inputs;
    r
  }

  /** A transaction without scriptSigs is its own unsigned form. */
  lemma StripUnsigned(tx: Tx)
    requires forall i | 0 <= i < |tx.inputs| :: tx.inputs[i].scriptSig == []
    ensures StripScriptSigs(tx) == tx
  {
  }

  /**
   * spendFromLockedTx_beforeExpiry: user and service sign input 0; the
   * scriptSig [user sig, service sig, 1, redeem] goes on every input; the lock
   * time stays at its default.
   */
  function ClaimBeforeExpiry(s: Session, d: Deposit): (r: Result<Tx, ClaimError>)
    ensures r.Success? <==> s.network != MainNet
    ensures r.Success? ==>
      var tx := r.value;
      var h := SigHash(tx, 0, s.redeemScript);
      && StripScriptSigs(tx) == PrepareSpendTx(s, d).value
      && tx.lockTime == DefaultLockTime
      && forall i | 0 <= i < |tx.inputs| ::
           tx.inputs[i].scriptSig
           == ScriptSig([Signature(s.userKey, h), Signature(s.serviceKey, h)], s.redeemScript, false)
  {
    match PrepareSpendTx(s, d)
    case Failure(e) => Failure(e)
    case Success(tx) =>
      var sigUser := CalculateSignature(tx, 0, s.userKey, s.redeemScript);
      var sigService := CalculateSignature(tx, 0, s.serviceKey, s.redeemScript);
      var signed := AttachScriptSig(tx, ScriptSig([sigUser, sigService], s.redeemScript, false));
      StripUnsigned(tx);
      Success(signed)
  }

  /**
   * spendFromLockedTx_afterExpiry: every sequence set to 0, lock time set to
   * the expiry, then the user alone signs input 0; the scriptSig
   * [user sig, 0, redeem] goes on every input.
   */
  function ClaimAfterExpiry(s: Session, d: Deposit): (r: Result<Tx, ClaimError>)
    ensures r.Success? <==> s.network != MainNet
    ensures r.Success? ==>
      var tx := r.value;
      var h := SigHash(tx, 0, s.redeemScript);
      && StripScriptSigs(tx) == PrepareSpendTx(s, d).value.(lockTime := s.expiry)
      && tx.lockTime == s.expiry
      && forall i | 0 <= i < |tx.inputs| ::
           && tx.inputs[i].sequence == 0 < SequenceFinal
           && tx.inputs[i].scriptSig == ScriptSig([Signature(s.userKey, h)], s.redeemScript, true)
  {
    match PrepareSpendTx(s, d)
    case Failure(e) => Failure(e)
    case Success(tx0) =>
      var tx := SetSequences(tx0, 0).(lockTime := s.expiry);
      var sigUser := CalculateSignature(tx, 0, s.userKey, s.redeemScript);
      var signed := AttachScriptSig(tx, ScriptSig([sigUser], s.redeemScript, true));
      assert tx == tx0.(lockTime := s.expiry);
      StripUnsigned(tx);
      Success(signed)
  }

  /** The scriptSig a claim puts on its inputs, with the session's signatures over digest `h`. */
  function ClaimScriptSig(s: Session, h: Digest): Program
  {
    if s.spendAfterExpiry then ScriptSig([Signature(s.userKey, h)], s.redeemScript, true)
    else ScriptSig([Signature(s.userKey, h), Signature(s.serviceKey, h)], s.redeemScript, false)
  }

  /**
   * onCoinsReceived: the after-expiry claim when the session was started with
   * spendAfterExpiry, the before-expiry claim otherwise. The mode shows in
   * every input's scriptSig: one signature and selector 0, or two signatures
   * and selector 1.
   */
  function OnCoinsReceived(s: Session, d: Deposit): (r: Result<Tx, ClaimError>)
    ensures r.Success? <==> s.network != MainNet
    ensures r.Success? ==>
      && r.value.lockTime == (if s.spendAfterExpiry then s.expiry else DefaultLockTime)
      && forall i | 0 <= i < |r.value.inputs| ::
           var ss := r.value.inputs[i].scriptSig;
           && |ss| == (if s.spendAfterExpiry then 3 else 4)
           && ss[|ss| - 2] == PushNum(Selector(s.spendAfterExpiry))
           && ss[|ss| - 1] == PushData(ScriptBlob(s.redeemScript))
    // the claim spends exactly the prepared inputs, and every input carries the session's signatures over input 0
    ensures r.Success? ==>
      var h := SigHash(r.value, 0, s.redeemScript);
      && StripScriptSigs(r.value)
         == (if s.spendAfterExpiry then PrepareSpendTx(s, d).value.(lockTime := s.expiry) else PrepareSpendTx(s, d).value)
      && forall i | 0 <= i < |r.value.inputs| :: r.value.inputs[i].scriptSig == ClaimScriptSig(s, h)
  {
    if s.spendAfterExpiry then ClaimAfterExpiry(s, d) else ClaimBeforeExpiry(s, d)
  }

  /** The deposit output an input of a claim spends. */
  function SpentScript(d: Deposit, i: TxIn): OutputScript
  {
    if i.prevOut.index < |d.outputs| then d.outputs[i.prevOut.index].script else OtherScript
  }

  /** Every input of a claim spends an output locked to the redeem script's hash. */
  lemma ClaimInputsSpendContract(s: Session, d: Deposit, hash160: Program -> Hash, i: nat)
    requires WellFormed(s, hash160)
    requires OnCoinsReceived(s, d).Success? && i < |OnCoinsReceived(s, d).value.inputs|
    ensures SpentScript(d, OnCoinsReceived(s, d).value.inputs[i]) == PayToScriptHash(hash160(s.redeemScript))
  {
  }

  /**
   * The first input of either claim is a valid spend under an honest signature
   * checker; the after-expiry claim needs a non-negative expiry, which BIP 65
   * demands of the CHECKLOCKTIMEVERIFY operand.
   */
  lemma ClaimSpendsFirstInput(s: Session, d: Deposit, checkSig: (Signature, PubKey, Digest) -> bool,
                              hash160: Program -> Hash)
    requires WellFormed(s, hash160)
    requires AcceptsHonest(checkSig)
    requires s.spendAfterExpiry ==> 0 <= s.expiry
    requires OnCoinsReceived(s, d).Success? && |OnCoinsReceived(s, d).value.inputs| > 0
    ensures var tx := OnCoinsReceived(s, d).value;
            VerifyInput(tx, 0, SpentScript(d, tx.inputs[0]), checkSig, hash160)
  {
    var tx := OnCoinsReceived(s, d).value;
    var r := s.redeemScript;
    var env := Env(tx, 0, checkSig);
    var h := SigHash(tx, 0, r);
    ClaimInputsSpendContract(s, d, hash160, 0);
    assert checkSig(Signature(s.userKey, h), PubOf(s.userKey), h);
    if s.spendAfterExpiry {
      RefundSpendIff(PubOf(s.serviceKey), PubOf(s.userKey), s.expiry, Signature(s.userKey, h), env, hash160);
    } else {
      assert checkSig(Signature(s.serviceKey, h), PubOf(s.serviceKey), h);
      CooperativeSpendIff(PubOf(s.serviceKey), PubOf(s.userKey), s.expiry,
                          Signature(s.userKey, h), Signature(s.serviceKey, h), env, hash160);
    }
  }

  /**
   * Under an unforgeable checker, an input whose scriptSig carries the
   * session's signatures over a digest other than its own spends nothing.
   */
  lemma OtherDigestSignaturesFail(s: Session, tx: Tx, i: nat, h: Digest, spent: OutputScript,
                                  checkSig: (Signature, PubKey, Digest) -> bool, hash160: Program -> Hash)
    requires WellFormed(s, hash160)
    requires Unforgeable(checkSig)
    requires i < |tx.inputs| && tx.inputs[i].scriptSig == ClaimScriptSig(s, h)
    requires h != SigHash(tx, i, s.redeemScript)
    ensures !VerifyInput(tx, i, spent, checkSig, hash160)
  {
    var r := s.redeemScript;
    var env := Env(tx, i, checkSig);
    var hi := SigHash(tx, i, r);
    if spent == PayToScriptHash(hash160(r)) {
      if s.spendAfterExpiry {
        RefundSpendIff(PubOf(s.serviceKey), PubOf(s.userKey), s.expiry, Signature(s.userKey, h), env, hash160);
        assert !checkSig(Signature(s.userKey, h), PubOf(s.userKey), hi);
      } else {
        CooperativeSpendIff(PubOf(s.serviceKey), PubOf(s.userKey), s.expiry,
                            Signature(s.userKey, h), Signature(s.serviceKey, h), env, hash160);
        assert !checkSig(Signature(s.serviceKey, h), PubOf(s.serviceKey), hi);
      }
    } else if spent.PayToScriptHash? {
      // the pushed redeem script hashes to the contract's hash, not to the spent output's
      var sigs := if s.spendAfterExpiry then [Signature(s.userKey, h)]
                  else [Signature(s.userKey, h), Signature(s.serviceKey, h)];
      var ss := ScriptSig(sigs, r, s.spendAfterExpiry);
      assert tx.inputs[i].scriptSig == ss;
      ScriptSigLeaves(sigs, r, s.spendAfterExpiry, env, ss);
    }
  }

  /**
   * As written, every input carries the signatures made for input 0, so under
   * an unforgeable checker no input after the first is a valid spend.
   */
  lemma CopiedSignaturesFailLaterInputs(s: Session, d: Deposit, checkSig: (Signature, PubKey, Digest) -> bool,
                                        hash160: Program -> Hash, i: nat)
    requires WellFormed(s, hash160)
    requires Unforgeable(checkSig)
    requires OnCoinsReceived(s, d).Success? && 0 < i < |OnCoinsReceived(s, d).value.inputs|
    ensures var tx := OnCoinsReceived(s, d).value;
            !VerifyInput(tx, i, SpentScript(d, tx.inputs[i]), checkSig, hash160)
  {
    var tx := OnCoinsReceived(s, d).value;
    var h0 := SigHash(tx, 0, s.redeemScript);
    assert h0 != SigHash(tx, i, s.redeemScript);
    OtherDigestSignaturesFail(s, tx, i, h0, SpentScript(d, tx.inputs[i]), checkSig, hash160);
  }

  /**
   * Worked example: on RegTest, last seen height 100, spending after expiry, a
   * deposit of 5,000,000 satoshi to the contract address is claimed by one
   * input, one output of 4,900,000 satoshi to the send-back address, and lock
   * time 103.
   */
  lemma AfterExpiryExample(userKey: PrivKey, serviceKey: PrivKey, hash160: Program -> Hash, txid: Hash)
    ensures var s := StartSession(RegTest, true, 100, userKey, serviceKey, hash160);
            var d := Deposit(txid, [TxOut(5_000_000, PayToScriptHash(hash160(s.redeemScript)))]);
            && OnCoinsReceived(s, d).Success?
            && |OnCoinsReceived(s, d).value.inputs| == 1
            && OnCoinsReceived(s, d).value.inputs[0].prevOut == OutPoint(txid, 0)
            && OnCoinsReceived(s, d).value.outputs == [TxOut(4_900_000, PayToKeyHash(SendBackBase58))]
            && OnCoinsReceived(s, d).value.lockTime == 103
  {
    var s := StartSession(RegTest, true, 100, userKey, serviceKey, hash160);
    var d := Deposit(txid, [TxOut(5_000_000, PayToScriptHash(hash160(s.redeemScript)))]);
    ExamplePrepared(s, d, txid, hash160(s.redeemScript));
    var prepared := PrepareSpendTx(s, d).value;
    var tx := OnCoinsReceived(s, d).value;
    assert StripScriptSigs(tx) == prepared.(lockTime := 103);
    assert tx.inputs[0].prevOut == StripScriptSigs(tx).inputs[0].prevOut;
  }

  /** The transaction prepared for the worked example, before the claim sets its lock time and signs it. */
  lemma ExamplePrepared(s: Session, d: Deposit, txid: Hash, h: Hash)
    requires s.network != MainNet && s.address == ScriptHashAddress(s.network, h)
    requires d == Deposit(txid, [TxOut(5_000_000, PayToScriptHash(h))])
    ensures PrepareSpendTx(s, d).Success?
    ensures var prepared := PrepareSpendTx(s, d).value;
            && |prepared.inputs| == 1
            && prepared.inputs[0].prevOut == OutPoint(txid, 0)
            && prepared.outputs == [TxOut(4_900_000, PayToKeyHash(SendBackBase58))]
  {
    var prepared := PrepareSpendTx(s, d).value;
    assert Matches(d.outputs[0], s);
    var j :| 0 <= j < |prepared.inputs| && prepared.inputs[j].prevOut.index == 0;
    assert prepared.inputs[0].prevOut == OutPoint(txid, 0) by {
      assert SpendsMatched(prepared.inputs[0], d, s, 1);
    }
    assert InputValue(prepared.inputs, d) == 5_000_000 by {
      assert prepared.inputs[..0] == [];
    }
  }
}
