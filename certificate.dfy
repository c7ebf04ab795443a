/** The TLS server-certificate callback `ValidateDtCert`: a pin-or-allow-all
    decision. Reading the configured thumbprint from the environment and
    hashing the presented certificate are outside the model; both strings
    are inputs. */
module CertificatePinning {

  /** Accept any certificate when no thumbprint is configured; otherwise
      accept exactly the certificate whose hash string equals it, compared
      character by character. */
  function ValidateDtCert(dynatraceCertThumbprint: string, certHashString: string): (accepted: bool)
    ensures dynatraceCertThumbprint == "" ==> accepted
    ensures dynatraceCertThumbprint != "" ==> (accepted <==> certHashString == dynatraceCertThumbprint)
  {
    if dynatraceCertThumbprint == "" then true
    else if certHashString == dynatraceCertThumbprint then true
    else false
  }

  /** With a thumbprint configured, one hash string is trusted, the
      configured one; without, none is refused. */
  lemma TrustedHashes(dynatraceCertThumbprint: string)
    ensures dynatraceCertThumbprint != "" ==>
              (forall h :: ValidateDtCert(dynatraceCertThumbprint, h) ==> h == dynatraceCertThumbprint)
              && ValidateDtCert(dynatraceCertThumbprint, dynatraceCertThumbprint)
    ensures dynatraceCertThumbprint == "" ==> forall h :: ValidateDtCert(dynatraceCertThumbprint, h)
  {
  }
}
