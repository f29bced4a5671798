/** The Postgres tables the executor's functions and the recovery reader share. */
module PgTables {
  import opened Text

  /** A row of consumed_grants; its key is (deployment_id, jti). */
  datatype GrantRow = GrantRow(scopeHash: string, status: string, preimage: Option<string>, attestationRef: Option<string>)

  /** A row of attestations, in insertion order. */
  datatype Evidence = Evidence(deployment: string, jti: string, token: string)

  /** `updatedAt` is the text extract(epoch from updated_at) prints; the key is the id as text. */
  datatype Article = Article(title: string, body: string, updatedAt: string)

  /** A row of state_challenges; its key is the nonce. */
  datatype Challenge = Challenge(targetId: string, digest: string, expiresAt: int, consumed: bool)

  type GrantKey = (string, string)

  datatype Tables = Tables(
    grants: map<GrantKey, GrantRow>,
    evidence: seq<Evidence>,
    articles: map<string, Article>,
    challenges: map<string, Challenge>)

  /** `SELECT token FROM attestations WHERE deployment_id = $1 AND grant_jti = $2`, first row. */
  function FirstToken(evidence: seq<Evidence>, key: GrantKey): Option<string> {
    if evidence == [] then None
    else if (evidence[0].deployment, evidence[0].jti) == key then Some(evidence[0].token)
    else FirstToken(evidence[1..], key)
  }
}
