/** The identity record the three IAM services hand out (its Go declaration is not part of this model). */
module IamIdentity {

  /** A provisioned test identity: who it is, which cloud issued it, and its credential fields. */
  datatype Identity = Identity(userName: string, provider: string, credentials: map<string, string>)

  /** A credential's value, "" when absent (a Go map lookup). */
  function Credential(identity: Identity, name: string): (r: string)
    ensures name !in identity.credentials ==> r == ""
    ensures name in identity.credentials ==> r == identity.credentials[name]
  {
    if name in identity.credentials then identity.credentials[name] else ""
  }
}
