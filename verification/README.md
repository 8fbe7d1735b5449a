# CLTV refund protocol — Dafny model

This project models the protocol core of `cltv-refund-test`, a bitcoinj demo of a time-locked refund contract. A user's coins are locked to the P2SH address of a redeem script with two branches:

- **before expiry**: the service and the user both sign;
- **after expiry**: the user signs alone, and CHECKLOCKTIMEVERIFY (BIP 65) requires the spending transaction's lock time to have reached the expiry height.

When coins arrive, the listener builds a transaction that spends every output paying the contract address back to a fixed address, signs it for the configured branch and broadcasts it.

Keys, signatures, hashes and addresses are opaque. A private key is an identity (`PrivKey(id)`). A signature is the symbolic term "this key signed this digest". Signature validity is an uninterpreted predicate `checkSig` passed in as a parameter. Hash160 is an uninterpreted function `hash160`. Scripts are sequences of abstract elements: opcodes, number pushes and data pushes that carry a key, a signature or a serialized script.

Modules:

- `Wrappers`: `Option` and `Result`.
- `Bitcoin`: keys, signatures, SIGHASH_ALL digests, script elements, transactions, addresses, and the constants MILLICOIN, the final sequence number and the lock-time threshold.
- `Interpreter`: an evaluator for the contract's opcodes. It covers IF/ELSE/ENDIF with an execution stack, CHECKSIG and CHECKSIGVERIFY, and CHECKLOCKTIMEVERIFY as described in the "Summary" section of BIP 65. It also covers the pay-to-script-hash spending rule of BIP 16.
- `Contract`: `createTimeLockedContract` and `createScriptSig`. It also describes each branch's requirements on their own terms (`ContractOutcome`) and proves that the opcode-level run matches that description.
- `Claim`: the session state set up by `run`, `prepareSpendTx`, the two claim paths and the `onCoinsReceived` dispatcher.
- `Corrected`: the dispatcher with each input signed over its own digest (see Findings).
- `Cli`: the argument validation of `Run.main`.

Where the code's behaviour is surprising, the model follows it:

- `prepareSpendTx` raises no error of its own for a deposit with no matching output, or for funds not above the fee. It computes the output value as the matched sum minus 100,000 satoshi and does not check its sign (`Claim.NoMatchNegativeOutput`); bitcoinj's own refusal of a negative value is left out.
- Every added input gets sequence 0 in both modes. The before-expiry claim does not need a non-final sequence, but it gets one too.
- Both claim paths sign input 0 only and copy that scriptSig onto every input (see Findings).
- The send-back address `mmtFy7wWbzFktUmc6JiudYprEu4bxR8Vun` has the testnet version byte 111. `Address.fromBase58` accepts it on TestNet3 and RegTest and throws on MainNet. On MainNet, every claim therefore ends in `SendBackAddressRejected`.

## Model

| member | source | states |
|---|---|---|
| `Bitcoin.CalculateSignature` | src/main/java/com/coinblesk/cltvrefund/CLTVRefund.java:217-218 | a signature is made by the given key, for the given input index, over the SIGHASH_ALL digest of the transaction with the given script code. The digest is the same for every transaction that differs only in its scriptSigs, so attaching scriptSigs afterwards keeps the signature valid |
| `Bitcoin.AddressFromP2SH` | src/main/java/com/coinblesk/cltvrefund/CLTVRefund.java:257 | an output yields an address exactly when it is a P2SH output; the address is a script-hash address on the session's network, carrying the output's script hash |
| `Bitcoin.OutputScriptFor` | src/main/java/com/coinblesk/cltvrefund/CLTVRefund.java:268 | the output script made for a P2SH address reads back as that address; one made for a key-hash address is not P2SH |
| `Bitcoin.PubOfInjective` | src/main/java/com/coinblesk/cltvrefund/CLTVRefund.java:139-145 | the two key pairs are opaque and distinct: distinct private keys give distinct public keys |
| `Contract.RedeemScript` | src/main/java/com/coinblesk/cltvrefund/CLTVRefund.java:147-171 | the script has ten elements: IF at 0, ELSE at 3, ENDIF at 7. The service key appears only between IF and ELSE. The expiry push and CHECKLOCKTIMEVERIFY appear only between ELSE and ENDIF. The user key appears after ENDIF, and the script ends in CHECKSIG. The service key, the expiry and the user key are each pushed right after IF, ELSE and ENDIF respectively |
| `Contract.RedeemScriptInjective` | src/main/java/com/coinblesk/cltvrefund/CLTVRefund.java:162-171 | the script is determined by, and determines, the service key, the user key and the expiry |
| `Contract.RedeemScriptSemantics` | src/main/java/com/coinblesk/cltvrefund/CLTVRefund.java:147-171 | running the script on any stack gives the per-branch outcome. A true selector requires a service signature, then checks the user signature. A false selector requires the BIP 65 lock-time condition for the expiry, then checks the user signature |
| `Contract.PushSignatures` | src/main/java/com/coinblesk/cltvrefund/CLTVRefund.java:184 | one data push per signature, in the order supplied |
| `Contract.ScriptSig` | src/main/java/com/coinblesk/cltvrefund/CLTVRefund.java:173-188 | the scriptSig has \|sigs\| + 2 elements: the signatures in the supplied order, then selector 0 when spending after expiry and 1 otherwise, then the redeem script. It is push-only |
| `Contract.ScriptSigLeaves` | src/main/java/com/coinblesk/cltvrefund/CLTVRefund.java:173-188 | evaluating the scriptSig leaves the signatures bottom-first, then the selector, with the redeem script on top |
| `Contract.SelectorChoosesBranch` | src/main/java/com/coinblesk/cltvrefund/CLTVRefund.java:185 | the pushed selector enters the ELSE (refund) branch exactly when spending after expiry |
| `Contract.ContractSpendIff` | src/main/java/com/coinblesk/cltvrefund/CLTVRefund.java:73-85 | a BIP 16 spend of the contract's P2SH output with a built scriptSig succeeds exactly when the contract accepts the pushed signatures and selector |
| `Contract.CooperativeSpendIff` | src/main/java/com/coinblesk/cltvrefund/CLTVRefund.java:209-219 | the two-signature scriptSig spends exactly when the second signature is valid for the service key and the first for the user key. Lock time and sequence play no part |
| `Contract.RefundSpendIff` | src/main/java/com/coinblesk/cltvrefund/CLTVRefund.java:225-240 | the one-signature scriptSig spends exactly when the BIP 65 condition holds for the expiry and the signature is valid for the user key |
| `Contract.CooperativeSpendAnyLockTime` | src/main/java/com/coinblesk/cltvrefund/CLTVRefund.java:209-219 | with honest [user, service] signatures over the input's digest, the before-expiry spend succeeds at any lock time |
| `Contract.SwappedSignaturesRejected` | src/main/java/com/coinblesk/cltvrefund/CLTVRefund.java:217-219 | with distinct keys and an unforgeable checker, the signatures in the order [service, user] never spend |
| `Contract.RefundOnlyAfterExpiry` | src/main/java/com/coinblesk/cltvrefund/CLTVRefund.java:232-240 | a refund spend needs lock time ≥ expiry and a non-final input sequence. With a matching lock-time kind and an honest user signature, those conditions suffice |
| `Claim.StartSession` | src/main/java/com/coinblesk/cltvrefund/CLTVRefund.java:65-89 | the expiry is the last seen height + 3. The redeem script holds the two keys and the expiry. The address is the P2SH address of the redeem script's hash on the session's network |
| `Claim.SendBackAddress` | src/main/java/com/coinblesk/cltvrefund/CLTVRefund.java:266 | the fixed address parses on TestNet3 and RegTest, where it pays to that key hash, and fails on MainNet |
| `Claim.MatchesIff` | src/main/java/com/coinblesk/cltvrefund/CLTVRefund.java:257-258 | an output matches exactly when it is locked to the redeem script's hash |
| `Claim.GatherSpec` | src/main/java/com/coinblesk/cltvrefund/CLTVRefund.java:254-263 | after n iterations, every added input spends a matching output among the first n and has sequence 0. Every such output is spent, in output order. The sum is exactly the value of the spent outputs |
| `Claim.PrepareSpendTx` | src/main/java/com/coinblesk/cltvrefund/CLTVRefund.java:251-271 | one input per matching deposit output, in output order, each with sequence 0. Non-matching outputs contribute nothing. There is exactly one output, to the send-back address, worth the spent value minus MILLICOIN. The lock time is the default. The only failure is the MainNet address rejection |
| `Claim.NoMatchNegativeOutput` | src/main/java/com/coinblesk/cltvrefund/CLTVRefund.java:264-268 | nothing guards against zero matches: no matching output gives no input and an output of −100,000 |
| `Claim.TwoMatchesTwoInputs` | src/main/java/com/coinblesk/cltvrefund/CLTVRefund.java:256-262 | two matching outputs give at least two inputs |
| `Claim.SetSequences` | src/main/java/com/coinblesk/cltvrefund/CLTVRefund.java:233 | every input's sequence becomes the given value; nothing else changes |
| `Claim.AttachScriptSig` | src/main/java/com/coinblesk/cltvrefund/CLTVRefund.java:220 | every input receives the same scriptSig, and nothing a SIGHASH_ALL signature covers changes |
| `Claim.ClaimBeforeExpiry` | src/main/java/com/coinblesk/cltvrefund/CLTVRefund.java:213-223 | the claim is the prepared transaction with the default lock time. Every input carries the identical scriptSig [user sig, service sig, 1, redeem], with both signatures over the final transaction's input-0 digest |
| `Claim.ClaimAfterExpiry` | src/main/java/com/coinblesk/cltvrefund/CLTVRefund.java:229-244 | the claim is the prepared transaction with lock time = expiry. Every input has sequence 0 < 0xffffffff and carries the identical scriptSig [user sig, 0, redeem], with the signature over the final transaction's input-0 digest |
| `Claim.OnCoinsReceived` | src/main/java/com/coinblesk/cltvrefund/CLTVRefund.java:194-207 | the claim spends exactly the prepared inputs to the send-back address and fails exactly on MainNet. spendAfterExpiry selects the after-expiry path: lock time = expiry, and every input carries [user sig, 0, redeem]. Otherwise the before-expiry path runs: default lock time, and every input carries [user sig, service sig, 1, redeem]. Every signature is over input 0's digest of the final transaction |
| `Claim.ClaimInputsSpendContract` | src/main/java/com/coinblesk/cltvrefund/CLTVRefund.java:255-260 | every claim input spends an output locked to the redeem script's hash |
| `Claim.ClaimSpendsFirstInput` | src/main/java/com/coinblesk/cltvrefund/CLTVRefund.java:209-244 | under an honest checker, input 0 of either claim is a valid BIP 16 spend. The after-expiry claim needs a non-negative expiry |
| `Claim.OtherDigestSignaturesFail` | src/main/java/com/coinblesk/cltvrefund/CLTVRefund.java:217-241 | under an unforgeable checker, an input whose scriptSig carries the session's signatures over a digest other than its own spends no output at all |
| `Claim.CopiedSignaturesFailLaterInputs` | src/main/java/com/coinblesk/cltvrefund/CLTVRefund.java:217-220 | under an unforgeable checker, no claim input after the first is a valid spend |
| `Claim.AfterExpiryExample` | src/main/java/com/coinblesk/cltvrefund/CLTVRefund.java:229-270 | RegTest, height 100, a 5,000,000-satoshi deposit: one input, one output of 4,900,000 to the send-back address, lock time 103 |
| `Corrected.SignEachInput` | src/main/java/com/coinblesk/cltvrefund/CLTVRefund.java:217-220 | each input receives the scriptSig signed for its own index; nothing a signature covers changes |
| `Corrected.OnCoinsReceivedPerInput` | src/main/java/com/coinblesk/cltvrefund/CLTVRefund.java:194-244 | the result succeeds exactly off MainNet. Its unsigned form is the prepared spend transaction, with lockTime set to the expiry in the after-expiry mode. Input i carries signatures over input i's digest |
| `Corrected.OwnDigestSignaturesSpend` | src/main/java/com/coinblesk/cltvrefund/CLTVRefund.java:209-241 | an input whose scriptSig carries the session's signatures over that input's own digest spends the contract output under an honest checker, given the lock-time condition when spending after expiry |
| `Corrected.PerInputClaimSpendsEveryInput` | src/main/java/com/coinblesk/cltvrefund/CLTVRefund.java:217-241 | under an honest checker, every input of the per-input claim is a valid spend |
| `Cli.ParseNetwork` | src/main/java/com/coinblesk/cltvrefund/Run.java:17-26 | exactly "-regtest", "-testnet" and "-mainnet" select RegTest, TestNet3 and MainNet; each flag parses to its own network |
| `Cli.ParseSpendMode` | src/main/java/com/coinblesk/cltvrefund/Run.java:28-36 | exactly "-beforeLockTime" gives false and "-afterLockTime" gives true |
| `Cli.RunMain` | src/main/java/com/coinblesk/cltvrefund/Run.java:12-46 | a session starts exactly when there are two arguments, a network flag then a spend-mode flag, and it carries the configuration they select. Everything else is the usage exit with status −1 |
| `Cli.RunMainRoundTrip` | src/main/java/com/coinblesk/cltvrefund/Run.java:12-38 | every configuration is started by its own flags, and by no other command line |
| `Cli.FlagsAreCaseSensitive` | src/main/java/com/coinblesk/cltvrefund/Run.java:18-32 | flags differing in case or missing the leading dash lead to the usage exit |

## Left out

- Wallet and network plumbing (`initWallet`, `connectToLocalHost`, watched addresses, listener registration, the shutdown hook, `stop`). These are I/O and concurrency inside bitcoinj. The last seen block height is a parameter of `Claim.StartSession`.
- Broadcasting (`broadcastTx`: `commitTx`, peer-group broadcast, logging a failure). The claims return the transaction that would be broadcast.
- Key derivation from the SHA-256 of "user-alice" and "service-bob". The keys are opaque parameters, and `wallet.importKey` is not modelled.
- ECDSA, Hash160 and Base58Check. A signature is a symbolic term, validity is the parameter `checkSig`, Hash160 is the parameter `hash160`, and a key-hash address is identified by its Base58 text.
- Byte-level script encoding (`ScriptBuilder.number`, `smallNum`, `data`): the 5-byte limit on CHECKLOCKTIMEVERIFY's operand, script size and opcode-count limits, FindAndDelete, and the sighash type byte of encoded signatures.
- bitcoinj value rules not visible in the repository: Coin overflow, the refusal of a negative output value, and signing a transaction that has no input.
- Integer widths: the `int` height plus 3, the 32-bit lock time and sequence fields, and 64-bit Coin amounts are modelled as unbounded integers.
- Transaction finality (the block height against the lock time) is a consensus rule outside script evaluation, and it is not modelled.
- Logging and `System.out`. The usage exit is modelled as an outcome carrying status −1.
- Interpreter.CastToBool: data pushes are abstract and never encode zero, so any pushed key, signature or script is true.
- Interpreter.SigOk: a malformed key or signature item makes CHECKSIG return false; strict-encoding script errors are not modelled.
- Contract.RedeemScript: the placement clauses for the service and user keys are stated only when the two keys differ, because with equal keys the same push appears in both places.
- Claim.ClaimSpendsFirstInput: assumes a non-negative expiry in the after-expiry mode. BIP 65 fails a negative operand, and the source does not check the sign; `run` produces last seen height + 3, which is non-negative for any real chain.
- Corrected.PerInputClaimSpendsEveryInput: the same non-negative expiry assumption, for the same reason.

## Findings

| source | as written | input that shows it | evidently intended | confidence | as-written member | corrected member |
|---|---|---|---|---|---|---|
| src/main/java/com/coinblesk/cltvrefund/CLTVRefund.java:217-220 | both claim paths sign input 0 only (lines 217-218 and 239) and copy that scriptSig onto every input. A signature over input 0's digest does not verify for input i > 0 | a received transaction with two outputs paying the contract address: the claim has two inputs, and input 1 fails its signature check | each input is signed over its own digest | medium, not executed | `Claim.CopiedSignaturesFailLaterInputs` | `Corrected.PerInputClaimSpendsEveryInput` |
