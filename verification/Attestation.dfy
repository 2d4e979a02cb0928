/** Operation-bound attestations over the envelope, with the keyed MAC left abstract (src/transport_runtime.rs). */
module Attestation {
  import opened Prelude
  import opened DataPlane
  import Hex

  const PREFIX: string := "ACT-HMAC-SHA256 "
  const MIN_OPERATION_HMAC_KEY_BYTES: nat := 32

  datatype TransportError =
    | InvalidRequest
    | Unauthorized
    | AuthUnavailable
    | UnsupportedOperation
    | Timeout
    | Database
    | InvalidState
    | Transport

  /** HMAC-SHA256 and the envelope's JSON encoding: deterministic functions, nothing else assumed. */
  datatype Crypto = Crypto(mac: (Bytes, Bytes) -> Digest, encode: OperationEnvelope -> Bytes)

  function Sign(c: Crypto, key: Bytes, envelope: OperationEnvelope): Result<string, TransportError> {
    if |key| < MIN_OPERATION_HMAC_KEY_BYTES then Failure(InvalidState)
    else Success(PREFIX + Hex.EncodeHex(c.mac(key, c.encode(envelope))))
  }

  function StripPrefix(value: string): Option<string> {
    if PREFIX <= value then Some(value[|PREFIX|..]) else None
  }

  function Verify(c: Crypto, key: Bytes, envelope: OperationEnvelope, value: string): Result<(), TransportError> {
    if |key| < MIN_OPERATION_HMAC_KEY_BYTES then Failure(Unauthorized)
    else if StripPrefix(value).None? then Failure(Unauthorized)
    else
      var signature := Hex.DecodeSha256Hex(StripPrefix(value).value);
      if signature.None? then Failure(Unauthorized)
      else if signature.value != c.mac(key, c.encode(envelope)) then Failure(Unauthorized)
      else Success(())
  }

  predicate WellShaped(value: string) {
    StripPrefix(value).Some? && Hex.DecodeSha256Hex(StripPrefix(value).value).Some?
  }

  /** The accepted texts are the prefix and the MAC's own hexadecimal text in any mix of cases, and nothing else. */
  lemma VerifyAcceptsExactly(c: Crypto, key: Bytes, envelope: OperationEnvelope, value: string)
    ensures Verify(c, key, envelope, value).Success? <==>
              && |key| >= 32
              && "ACT-HMAC-SHA256 " <= value
              && Hex.AllHex(value[16..])
              && Hex.Lower(value[16..]) == Hex.EncodeHex(c.mac(key, c.encode(envelope)))
    ensures Verify(c, key, envelope, value).Success? ==> WellShaped(value)
    ensures Verify(c, key, envelope, value).Failure? ==> Verify(c, key, envelope, value) == Failure(Unauthorized)
  {
    if PREFIX <= value {
      var digits, mac := value[|PREFIX|..], c.mac(key, c.encode(envelope));
      Hex.EncodeUndoesDecode(digits);
      Hex.DecodeUndoesEncode(mac);
      Hex.DecodeIgnoresCase(digits);
    }
  }

  /** What was signed verifies under the same key and envelope. */
  lemma VerifyAcceptsSigned(c: Crypto, key: Bytes, envelope: OperationEnvelope)
    ensures Sign(c, key, envelope) == if |key| < 32 then Failure(InvalidState)
                                      else Success("ACT-HMAC-SHA256 " + Hex.EncodeHex(c.mac(key, c.encode(envelope))))
    ensures Sign(c, key, envelope).Success? ==> Verify(c, key, envelope, Sign(c, key, envelope).value) == Success(())
  {
    if |key| >= MIN_OPERATION_HMAC_KEY_BYTES {
      var value := Sign(c, key, envelope).value;
      assert value[|PREFIX|..] == Hex.EncodeHex(c.mac(key, c.encode(envelope)));
      Hex.DecodeUndoesEncode(c.mac(key, c.encode(envelope)));
    }
  }
}
