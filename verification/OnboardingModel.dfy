/**
 The entities of the onboarding operation: one Postgres row per new hire, and
 the values the rows carry (backend/models/onboarded_user.py).
 */
module OnboardingModel {
  import opened Common
  import opened IsoTime

  /** A uuid4; only freshness and equality matter. */
  type UserId = nat

  /** The uuid4 of one attempt at onboarding a user; a retry draws a new one. */
  type JobId = nat

  datatype JobStatus =
    | PENDING
    | AD_CREATING
    | EMAIL_SENDING
    | JIRA_CREATING
    | PARTIALLY_COMPLETE
    | COMPLETED
    | FAILED

  datatype UserStatus = ACTIVE | OFFBOARDED

  datatype Profile = Profile(firstName: string, lastName: string, email: string, department: string, jobTitle: string)

  /** `uid=<uid>,<LDAP_USERS_OU>`: the users OU is fixed, so the uid is the whole identity. */
  datatype Dn = UserDn(uid: string)

  datatype ErrorText =
    | NoConfirmation(minutes: nat)
    | NoProgress(minutes: nat)
    | Text(text: string)

  datatype Row = Row(
    profile: Profile,
    status: UserStatus,
    externalId: Option<Dn>,
    jobId: Option<JobId>,
    jobStatus: JobStatus,
    requestedBy: string,
    errorMessage: Option<ErrorText>,
    offboardedAt: Option<Stamp>,
    updatedAt: nat)

  type Table = map<UserId, Row>

  /** What a provider hands back after creating an account. */
  datatype Provisioned = Provisioned(userId: UserId, externalId: Option<Dn>, profile: Profile)

  /** Times are counted in microseconds, the resolution of a Postgres timestamp. */
  const MINUTE: nat := 60_000_000

  /** ONBOARDING_STALE_TIMEOUT_MINUTES and the sweeper's interval. */
  const STALE_MINUTES: nat := 2
  const STALE_TIMEOUT: nat := STALE_MINUTES * MINUTE
  const SWEEP_PERIOD: nat := MINUTE

  /** The statuses the sweeper looks for. */
  predicate InProgress(s: JobStatus) {
    s in {PENDING, AD_CREATING, EMAIL_SENDING, JIRA_CREATING}
  }

  /** The statuses from which /retry and /rollback are legal. */
  predicate Retryable(s: JobStatus) {
    s == FAILED || s == PARTIALLY_COMPLETE
  }

  /** `email.split("@")[0]` */
  function LocalPart(email: string): string {
    if email == "" || email[0] == '@' then "" else [email[0]] + LocalPart(email[1..])
  }

  /** What is in front of the first @, if there is one, else everything. */
  lemma {:induction false} LocalPartMeans(email: string)
    ensures var n := |LocalPart(email)|;
            && n <= |email| && LocalPart(email) == email[..n] && '@' !in email[..n]
            && (n < |email| ==> email[n] == '@')
  {
    if email != "" && email[0] != '@' {
      LocalPartMeans(email[1..]);
      var n := |LocalPart(email)|;
      assert email[..n] == [email[0]] + email[1..][..n - 1];
    }
  }

  function DnOf(email: string): Dn {
    UserDn(LocalPart(email))
  }
}
