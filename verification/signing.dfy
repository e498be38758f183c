/** Job signatures, with Ed25519 taken as ideal: the only signature over a byte
    string is the one the holder of the key made over exactly that string. */
module Signing {
  import opened Common
  import opened Payloads

  datatype Signature =
    | Empty                        // the empty string
    | OverBytes(bytes: seq<Byte>)  // made with the server's key
    | Foreign                      // anything else

  /** `AppState::sign_job`: without a signer the signature is empty. */
  function SignJob(signer: bool, id: Uuid, p: JobPayload): Signature {
    if signer then OverBytes(SigningBytes(id, p)) else Empty
  }

  /** The key an agent stored at enrollment. */
  datatype StoredKey = NoKey | ServerKey | OtherKey

  datatype Verdict = Accepted | NoServerKey | NoSignature | BadSignature

  /** `verify_job_signature`, in the order of its checks. */
  function VerifyJob(key: StoredKey, id: Uuid, p: JobPayload, s: Signature): Verdict {
    if key == NoKey then NoServerKey
    else if s == Empty then NoSignature
    else if key == ServerKey && s == OverBytes(SigningBytes(id, p)) then Accepted
    else BadSignature
  }

  /** A signature made for one job is accepted for that job and for no other. */
  lemma SignatureBindsJob(id: Uuid, p: JobPayload, id': Uuid, p': JobPayload)
    ensures VerifyJob(ServerKey, id', p', SignJob(true, id, p)) == Accepted <==> id' == id && p' == p
  {
    hide SigningBytes;
    if SigningBytes(id, p) == SigningBytes(id', p') {
      SigningBytesInjective(id, p, id', p');
    }
  }

  /** A job is accepted exactly when the agent has the server's key and the signature is the one a server with a
      signer makes for that job; otherwise the verdict names the first thing that is missing. */
  lemma VerdictMeans(key: StoredKey, id: Uuid, p: JobPayload, s: Signature)
    ensures var v := VerifyJob(key, id, p, s);
      && (v == Accepted <==> key == ServerKey && s == SignJob(true, id, p))
      && (v == NoServerKey <==> key == NoKey)
      && (v == NoSignature <==> key != NoKey && s == SignJob(false, id, p))
  {
    hide SigningBytes;
  }
}
