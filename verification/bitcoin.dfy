/**
 * The Bitcoin data the refund protocol works on, with keys, signatures, hashes
 * and addresses made opaque. Scripts are sequences of abstract elements rather
 * than bytes: a push carries the pushed object itself.
 */
module Bitcoin {
  import opened Wrappers

  /** The three networks the program can be started on. */
  datatype Network = MainNet | TestNet3 | RegTest

  /** A private key. Only its identity matters; derivation from a seed is not modelled. */
  datatype PrivKey = PrivKey(id: nat)

  /** A public key, determined by its private key. */
  datatype PubKey = PubKey(id: nat)

  function PubOf(k: PrivKey): PubKey
  {
    PubKey(k.id)
  }

  /** Distinct private keys have distinct public keys. */
  lemma PubOfInjective(k: PrivKey, k': PrivKey)
    ensures PubOf(k) == PubOf(k') <==> k == k'
  {
  }

  /** A 160-bit hash, kept abstract. */
  type Hash = nat

  /** A script program: a sequence of abstract script elements. */
  type Program = seq<Element>

  /** The opcodes the time-locked contract uses. */
  datatype Opcode =
    | OpIf
    | OpElse
    | OpEndIf
    | OpDrop
    | OpCheckSig
    | OpCheckSigVerify
    | OpCheckLockTimeVerify

  /** One element of a script: an opcode, a number push, or a data push. */
  datatype Element =
    | Op(code: Opcode)
    | PushNum(n: int)
    | PushData(data: Blob)

  /** Pushed data: a public key, an encoded signature, or a serialized script. */
  datatype Blob =
    | KeyBlob(key: PubKey)
    | SigBlob(sig: Signature)
    | ScriptBlob(program: Program)

  /**
   * What a signature signs with SIGHASH_ALL: the transaction with every
   * scriptSig blanked, the index of the input being signed and the script code
   * standing in for that input's script.
   */
  datatype Digest = Digest(unsignedTx: Tx, inputIndex: nat, scriptCode: Program)

  /** A signature, as the symbolic term "signer signed digest". */
  datatype Signature = Signature(signer: PrivKey, digest: Digest)

  /** A reference to an output of an earlier transaction. */
  datatype OutPoint = OutPoint(txid: Hash, index: nat)

  datatype TxIn = TxIn(prevOut: OutPoint, sequence: int, scriptSig: Program)

  /** The locking script of an output, by standard form. */
  datatype OutputScript =
    | PayToScriptHash(scriptHash: Hash)
    | PayToKeyHash(base58: string)
    | OtherScript

  datatype TxOut = TxOut(value: int, script: OutputScript)

  datatype Tx = Tx(inputs: seq<TxIn>, outputs: seq<TxOut>, lockTime: int)

  /**
   * An address, tied to the network it was made for. A key-hash address is
   * identified by its Base58Check text; decoding it is not modelled.
   */
  datatype Address =
    | ScriptHashAddress(network: Network, scriptHash: Hash)
    | KeyHashAddress(network: Network, base58: string)

  /** A received transaction as the coins-received listener sees it. */
  datatype Deposit = Deposit(txid: Hash, outputs: seq<TxOut>)

  /** nSequence value that marks an input final (and disables CHECKLOCKTIMEVERIFY). */
  const SequenceFinal: int := 0xffff_ffff

  /** Lock-time values below this are block heights, the rest are timestamps. */
  const LockTimeThreshold: int := 500_000_000

  /** Coin.MILLICOIN in satoshi. */
  const Millicoin: int := 100_000

  /** The lock time of a freshly built transaction. */
  const DefaultLockTime: int := 0

  /** A new input spending `op`: empty scriptSig, final sequence number. */
  function NewInput(op: OutPoint): (i: TxIn)
    ensures i.prevOut == op && i.scriptSig == [] && i.sequence == SequenceFinal
  {
    TxIn(op, SequenceFinal, [])
  }

  /** The transaction with every scriptSig blanked, as SIGHASH_ALL serializes it. */
  function StripScriptSigs(tx: Tx): (u: Tx)
    ensures |u.inputs| == |tx.inputs|
    ensures forall i | 0 <= i < |u.inputs| ::
      u.inputs[i].prevOut == tx.inputs[i].prevOut
      && u.inputs[i].sequence == tx.inputs[i].sequence
      && u.inputs[i].scriptSig == []
    ensures u.outputs == tx.outputs && u.lockTime == tx.lockTime
  {
    Tx(seq(|tx.inputs|, i requires 0 <= i < |tx.inputs| => tx.inputs[i].(scriptSig := [])),
       tx.outputs, tx.lockTime)
  }

  /** The digest input `index` of `tx` is signed over, with `scriptCode` as its script. */
  function SigHash(tx: Tx, index: nat, scriptCode: Program): Digest
  {
    Digest(StripScriptSigs(tx), index, scriptCode)
  }

  /** Transaction.calculateSignature with SIGHASH_ALL: ECDSA signing made symbolic. */
  function CalculateSignature(tx: Tx, index: nat, key: PrivKey, scriptCode: Program): (s: Signature)
    ensures s.signer == key && s.digest.inputIndex == index
    // the signature commits to the SIGHASH_ALL digest, so attaching scriptSigs later keeps it valid
    ensures forall tx': Tx {:trigger SigHash(tx', index, scriptCode)} | StripScriptSigs(tx') == StripScriptSigs(tx) ::
      s.digest == SigHash(tx', index, scriptCode)
  {
    Signature(key, SigHash(tx, index, scriptCode))
  }

  /** TransactionOutput.getAddressFromP2SH: the P2SH address paid, or nothing for other scripts. */
  function AddressFromP2SH(s: OutputScript, network: Network): (a: Option<Address>)
    ensures a.Some? <==> s.PayToScriptHash?
    ensures a.Some? ==> a.value.ScriptHashAddress? && a.value.network == network
    ensures a.Some? ==> a.value.scriptHash == s.scriptHash
  {
    match s
    case PayToScriptHash(h) => Some(ScriptHashAddress(network, h))
    case _ => None
  }

  /** The locking script that pays an address. */
  function OutputScriptFor(a: Address): (s: OutputScript)
    ensures a.ScriptHashAddress? ==> AddressFromP2SH(s, a.network) == Some(a)
    ensures a.KeyHashAddress? ==> AddressFromP2SH(s, a.network) == None
  {
    match a
    case ScriptHashAddress(_, h) => PayToScriptHash(h)
    case KeyHashAddress(_, text) => PayToKeyHash(text)
  }
}
