/** Values shared by the connector service and the relay (internal/connectors/types.go). */
module ConnectorTypes {

  datatype Option<+T> = None | Some(value: T)

  type UserId = string
  type SessionId = string
  type Time = int

  datatype Role = Client | Connector

  /** Version and suite are fixed by the identity check; the key ID is a digest of the key. */
  datatype PublicIdentity = PublicIdentity(keyID: string, publicKey: string)

  /** A key ID is 32 bytes in unpadded base64url. */
  predicate ValidKeyID(keyID: string) {
    |keyID| == 43 && forall i :: 0 <= i < |keyID| ==> UrlSafe(keyID[i])
  }

  predicate UrlSafe(c: char) {
    'A' <= c <= 'Z' || 'a' <= c <= 'z' || '0' <= c <= '9' || c == '-' || c == '_'
  }

  /** What a consumed ticket admits: one subject of one account, and who it trusts. Only client
      admissions carry the account session they were issued under. */
  datatype Admission = Admission(
    userID: UserId,
    role: Role,
    subjectID: nat,
    sessionID: Option<SessionId>,
    identity: PublicIdentity,
    trustedIdentities: set<PublicIdentity>,
    authorizationExpiresAt: Time
  )

  /** At most one field narrows a revocation below the whole account. */
  datatype Revocation = Revocation(
    userID: UserId,
    connectorID: Option<nat>,
    deviceID: Option<nat>,
    sessionID: Option<SessionId>
  ) {
    predicate Covers(admission: Admission) {
      if userID == "" || admission.userID != userID then false
      else if connectorID.Some? then admission.role.Connector? && admission.subjectID == connectorID.value
      else if deviceID.Some? then admission.role.Client? && admission.subjectID == deviceID.value
      else if sessionID.Some? then admission.role.Client? && admission.sessionID == sessionID
      else true
    }
  }
}
