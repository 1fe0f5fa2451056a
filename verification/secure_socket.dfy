/**
 The platform-neutral side of the TLS socket: the error taxonomy handed to the delegate,
 and the notifications a delegate receives.
 */
module SecureSocket {

  /** `SecureSocketError`: exactly three cases. */
  datatype SecureSocketError = Unknown | InvalidCert | ExpiredCert

  /** `localizedDescription`. */
  function Description(e: SecureSocketError): (s: string)
    ensures |s| > 0
  {
    match e
    case Unknown => "Unknown error"
    case InvalidCert => "Invalid certificate"
    case ExpiredCert => "Expired certificate"
  }

  /** Different errors never share a description, so the description identifies the error. */
  lemma DescriptionsDistinct(a: SecureSocketError, b: SecureSocketError)
    ensures Description(a) == Description(b) <==> a == b
  {
    if a != b {
      var da, db := Description(a), Description(b);
      assert da[0] != db[0] || |da| != |db|;
    }
  }

  /**
   The `SecureSocketDelegate` calls: handshake success, handshake failure with its reason,
   and disconnection by the peer (never issued for a local `close()`).
   */
  datatype Notice = HandshakeSucceeded | HandshakeFailed(reason: SecureSocketError) | Disconnected
}
