// Ideal cryptography shared by the other modules.
//
// A public key is named by its seed, a signature is the pair of signer and
// signed payload, and an agent id is the injective digest of the inception key.
module Crypto {
  type PrivateKey = nat

  datatype PublicKey = PublicKey(seed: PrivateKey)

  function PublicOf(key: PrivateKey): PublicKey {
    PublicKey(key)
  }

  // `Malformed` stands for bytes that verify under no key, undecodable base64 included.
  datatype Signature<+P> = Signed(signer: PublicKey, payload: P) | Malformed(text: string)

  function Sign<P>(payload: P, key: PrivateKey): Signature<P> {
    Signed(PublicOf(key), payload)
  }

  predicate Verify<P(==)>(payload: P, signature: Signature<P>, key: PublicKey) {
    signature == Signed(key, payload)
  }

  // `Derived(k)` is sha256(alg || base64(k)); `Named` is any other string a message may claim.
  datatype AgentId = Derived(key: PublicKey) | Named(text: string)

  // `KeyDigest(k)` is sha256(k); `OtherDigest` is any other string, the empty one included.
  datatype KeyDigest = KeyDigest(key: PublicKey) | OtherDigest(text: string)
}
