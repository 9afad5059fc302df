/** Signed bytes, by what they decode to, and the check of an untrusted signer's answer
    (src/adapters/evm/signed-transaction-verifier.ts). Addresses and calldata are in lower case. */
module SignedTransaction {
  import opened CanonicalJson
  import Token

  type Address = Token.Address

  datatype Data = Empty | Create(init: Text) | Invoke(call: Token.Call)

  /** UnsignedTransactionRequest: everything a signature is asked for. */
  datatype Request = Request(
    chainId: nat, from: Address, to: Option<Address>, nonce: nat, value: nat, data: Data, gas: nat,
    maxFee: nat, priority: nat)

  /** Bytes a signer returns: the envelope, whether they parse, the parsed fields and the recovered signer.
      `seal` tells apart different signatures over the same fields. */
  datatype SignedTx = SignedTx(
    eip1559: bool, parses: bool, chainId: nat, nonce: nat, to: Option<Address>, value: nat, data: Data, gas: nat,
    maxFee: nat, priority: nat, signer: Option<Address>, seal: nat)

  /** keccak256, assumed injective. */
  datatype Hash = Keccak(tx: SignedTx)

  datatype Mismatch =
    | EnvelopeField | Unparsable | ChainIdField | NonceField | ToField | ValueField | DataField | GasField | MaxFeeField
    | PriorityField | FeePolicy | UnrecoverableSigner | SignerField | HashField

  /** The first check the bytes fail, in the order they are made. */
  function VerifySigned(tx: SignedTx, r: Request, expectedSigner: Address, claimed: Hash): Option<Mismatch> {
    if !tx.eip1559 then Some(EnvelopeField)
    else if !tx.parses then Some(Unparsable)
    else if tx.chainId != r.chainId then Some(ChainIdField)
    else if tx.nonce != r.nonce then Some(NonceField)
    else if tx.to != r.to then Some(ToField)
    else if tx.value != r.value then Some(ValueField)
    else if tx.data != r.data then Some(DataField)
    else if tx.gas != r.gas then Some(GasField)
    else if tx.maxFee != r.maxFee then Some(MaxFeeField)
    else if tx.priority != r.priority then Some(PriorityField)
    else if tx.priority > tx.maxFee then Some(FeePolicy)
    else if tx.signer.None? then Some(UnrecoverableSigner)
    else if tx.signer != Some(expectedSigner) then Some(SignerField)
    else if Keccak(tx) != claimed then Some(HashField)
    else None
  }

  /** The bytes decode to exactly this request, signed by its sender. */
  predicate Decodes(tx: SignedTx, r: Request) {
    && tx.chainId == r.chainId && tx.nonce == r.nonce && tx.to == r.to && tx.value == r.value && tx.data == r.data
    && tx.gas == r.gas && tx.maxFee == r.maxFee && tx.priority == r.priority && tx.signer == Some(r.from)
  }

  /** Accepted bytes are exactly a well-formed encoding of the committed request under its own hash, and a request
      whose fees are in order has an acceptable answer: an honest signer is never turned away. */
  lemma VerifyExactly(tx: SignedTx, r: Request, claimed: Hash)
    ensures VerifySigned(tx, r, r.from, claimed).None? <==>
            tx.eip1559 && tx.parses && Decodes(tx, r) && r.priority <= r.maxFee && claimed == Keccak(tx)
  {
  }

  function Honest(r: Request, seal: nat): SignedTx {
    SignedTx(true, true, r.chainId, r.nonce, r.to, r.value, r.data, r.gas, r.maxFee, r.priority, Some(r.from), seal)
  }

  lemma HonestAccepted(r: Request, seal: nat)
    ensures VerifySigned(Honest(r, seal), r, r.from, Keccak(Honest(r, seal))).None? <==> r.priority <= r.maxFee
  {
  }
}
