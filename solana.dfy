/** Handles for the values the core receives from the Solana SDK wrapper
    (pkg/solana). None of their behaviour is modelled: an RPC client is an
    identity, keys are byte strings, a signature is its printed (base58) form. */
module Solana {
  import opened Base

  /** A connected `*solana.Client`; only its identity matters to the core. */
  datatype Client = Client(rpcUrl: string, wsUrl: string)

  datatype PublicKey = PublicKey(bytes: seq<Byte>)

  /** A private key together with the public key the SDK derives from it
      (the Ed25519 derivation itself is not part of this model). */
  datatype PrivateKey = PrivateKey(secret: seq<Byte>, publicKey: PublicKey)

  /** A signature, as its `String()` form. */
  type Signature = string

  /** A ledger transaction: the account that pays its fee and the
      signatures attached so far, in order. */
  datatype Transaction = Transaction(feePayer: PublicKey, signatures: seq<Signature>)
}

/** The relay client of internal/jito: only its configuration is visible to the core. */
module Jito {
  datatype Client = Client(serverUrl: string, uuid: string)
}
