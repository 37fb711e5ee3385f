/** What the two revisions of the Go authentication engine behind the
    Mosquitto plugin share: the handles they obtain at initialisation, the
    super-user name and the ACL rule for anonymous clients. The user
    database, the user-token authenticator and the device manager are known
    only through the answers they give. */
module EngineCommon {
  import opened Wrappers
  import opened Topics
  import Base64
  import Values

  /** The name of the super user, who has access to every topic. */
  const SuperUser: string := "iota"

  /** An open user database: whether `Authenticate(name, password)` succeeds. */
  datatype Users = Users(authenticate: (string, string) -> bool)

  /** An authenticator: whether `VerifyToken(token)` succeeds, and the secret
      it signs user tokens with. */
  datatype Authz = Authz(verifyToken: string -> bool, secret: seq<Values.Byte>)

  /** A device manager: whether `VerifyToken(token)` accepts a device token. */
  datatype Devices = Devices(verifyToken: string -> bool)

  /** The handles a check consults. */
  datatype Services = Services(users: Users, authz: Authz, devices: Devices)
  {
    predicate IsDevice(token: string) {
      devices.verifyToken(token)
    }
  }

  /** A handle closed by `AuthPluginCleanup`. */
  datatype Closed = UsersClosed | DevicesClosed

  /** The ACL rule for a client that connected without a username: it may
      publish a claim request and read the answer to its own claim. */
  function AnonymousAcl(clientid: string, topic: string, acc: int): (ok: bool)
    ensures ok ==> clientid != ""
  {
    if clientid == "" then false
    else if acc == AclWrite then IsClaimRequest(topic)
    else ClaimResponseId(topic) == Some(clientid)
  }

  /** The anonymous rule in terms of the texts its patterns match: writing is
      allowed exactly on `api/<version>/me/claim`, any other access exactly on
      `me/claim/<clientid>`, and nothing without a client id. */
  lemma AnonymousAclMeaning(clientid: string, topic: string, acc: int)
    ensures AnonymousAcl(clientid, topic, acc) <==>
      clientid != "" &&
      if acc == AclWrite then exists v :: IsVersion(v) && topic == ClaimRequestText(v)
      else IsLevel(clientid) && topic == ClaimResponseText(clientid)
  {
    if clientid != "" {
      if acc == AclWrite {
        if IsClaimRequest(topic) {
          ClaimRequestSound(topic);
        }
        if exists v :: IsVersion(v) && topic == ClaimRequestText(v) {
          var v :| IsVersion(v) && topic == ClaimRequestText(v);
          ClaimRequestComplete(v);
        }
      } else {
        if ClaimResponseId(topic) == Some(clientid) {
          ClaimResponseSound(topic);
        }
        if IsLevel(clientid) && topic == ClaimResponseText(clientid) {
          ClaimResponseComplete(clientid);
        }
      }
    }
  }
}
