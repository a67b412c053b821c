/** What each approval operation does to the `approval_requests` table, as functions on
    the table (`app/services/approval_service.py`, `app/repositories/approval_repository.py`,
    `app/models/database/approval.py`).  The services and the interleaved protocol are
    both stated in these terms. */
module Approvals {
  import opened Json
  import Policy

  type Id = nat
  type UserId = nat
  type Time = int

  datatype Status = Pending | Approved | Rejected | Expired | Executed | Failed

  datatype User = User(id: UserId, role: Policy.Role, active: bool)

  /** One row.  The arguments are those shown to the approver; the hash is theirs. */
  datatype Row = Row(
    owner: UserId,
    tool: string,
    args: seq<Field>,
    hash: string,
    expiresAt: Time,
    status: Status,
    decidedBy: Option<UserId>,
    decidedAt: Option<Time>)

  type Table = map<Id, Row>

  /** An ordinary value: anyone can make one up. */
  datatype Grant = Grant(id: Id, tool: string, args: seq<Field>, hash: string, decider: UserId)

  datatype Failure = NotFound | NotAuthorized | WrongState | HasExpired | IntegrityBroken

  datatype Result<+T> = Ok(value: T) | Err(failure: Failure)

  predicate CanApprove(u: User) { u.active && !u.role.Viewer? }

  predicate Entitled(u: User, row: Row) { CanApprove(u) && (u.role.Admin? || row.owner == u.id) }

  predicate IsExpired(row: Row, now: Time) { row.expiresAt <= now }

  predicate Terminal(s: Status) { s.Rejected? || s.Expired? || s.Executed? || s.Failed? }

  /** `hash_payload`: any hash of payloads.  What it must tell apart is required where it matters. */
  type Hash = Json -> string

  predicate Intact(hash: Hash, row: Row) { hash(Obj(row.args)) == row.hash }

  // ---------------------------------------------------- guarded statements --

  predicate Claimable(t: Table, id: Id, moment: Time) {
    id in t && t[id].status.Pending? && moment < t[id].expiresAt
  }

  /** `UPDATE ... WHERE id = ? AND status = 'pending' AND expires_at > moment` */
  function ClaimPending(t: Table, id: Id, decider: UserId, moment: Time): Table {
    if Claimable(t, id, moment)
    then t[id := t[id].(status := Approved, decidedBy := Some(decider), decidedAt := Some(moment))]
    else t
  }

  /** `UPDATE ... WHERE id = ? AND status = 'pending'` */
  function RejectPending(t: Table, id: Id, decider: UserId, moment: Time): Table {
    if id in t && t[id].status.Pending?
    then t[id := t[id].(status := Rejected, decidedBy := Some(decider), decidedAt := Some(moment))]
    else t
  }

  predicate Stale(row: Row, moment: Time) { row.status.Pending? && row.expiresAt <= moment }

  /** `UPDATE ... WHERE status = 'pending' AND expires_at <= moment` */
  function ExpireStale(t: Table, moment: Time): Table {
    map id | id in t :: if Stale(t[id], moment) then t[id].(status := Expired, decidedAt := Some(moment)) else t[id]
  }

  /** The flush of an assigned attribute: no guard at all. */
  function WriteStatus(t: Table, id: Id, s: Status): Table
    requires id in t
  {
    t[id := t[id].(status := s)]
  }

  function WriteDecision(t: Table, id: Id, s: Status, now: Time): Table
    requires id in t
  {
    t[id := t[id].(status := s, decidedAt := Some(now))]
  }

  // -------------------------------------------------------- whole operations --

  function NewRow(hash: Hash, owner: UserId, tool: string, args: seq<Field>, expiresAt: Time): Row {
    Row(owner, tool, args, hash(Obj(args)), expiresAt, Pending, None, None)
  }

  function GrantFor(id: Id, row: Row, decider: UserId): Grant { Grant(id, row.tool, row.args, row.hash, decider) }

  /** Confirmation: the clock is read once for the check and once, later, for the
      guarded update. */
  function Confirm(hash: Hash, t: Table, id: Id, u: User, checked: Time, moment: Time): (Table, Result<Grant>) {
    if id !in t then (t, Err(NotFound))
    else if !Entitled(u, t[id]) then (t, Err(NotAuthorized))
    else if !Intact(hash, t[id]) then (WriteDecision(t, id, Failed, checked), Err(IntegrityBroken))
    else if !t[id].status.Pending? then (t, Err(WrongState))
    else if IsExpired(t[id], checked) then (WriteDecision(t, id, Expired, checked), Err(HasExpired))
    else if !Claimable(t, id, moment) then (t, Err(HasExpired))
    else (ClaimPending(t, id, u.id, moment), Ok(GrantFor(id, t[id], u.id)))
  }

  function Reject(t: Table, id: Id, u: User, moment: Time): (Table, Result<Row>) {
    if id !in t then (t, Err(NotFound))
    else if !Entitled(u, t[id]) then (t, Err(NotAuthorized))
    else if !t[id].status.Pending? then (t, Err(WrongState))
    else var t' := RejectPending(t, id, u.id, moment); (t', Ok(t'[id]))
  }

  /** The check made immediately before execution. */
  function VerifyGrant(hash: Hash, t: Table, g: Grant, tool: string, now: Time): (Table, Result<Row>) {
    if g.id !in t then (t, Err(NotFound))
    else
      var row := t[g.id];
      if row.tool != tool || g.tool != tool then (t, Err(IntegrityBroken))
      else if !row.status.Approved? then (t, Err(WrongState))
      else if IsExpired(row, now) then (WriteDecision(t, g.id, Expired, now), Err(HasExpired))
      else if !Intact(hash, row) then (WriteDecision(t, g.id, Failed, now), Err(IntegrityBroken))
      else if hash(Obj(g.args)) != row.hash then (t, Err(IntegrityBroken))
      else (t, Ok(row))
  }

  // ------------------------------------------------------- status transitions --

  /** The edges of the status graph.  An intact row follows the documented life cycle,
      with one addition: an approval can still expire.  A tampered row can also be
      thrown out to `Failed` from anywhere. */
  predicate LegalEdge(before: Status, after: Status, intact: bool) {
    || before == after
    || (before.Pending? && (after.Approved? || after.Rejected? || after.Expired?))
    || (before.Approved? && (after.Executed? || after.Failed? || after.Expired?))
    || (!intact && after.Failed?)
  }

  /** Only the status and the decision fields of a row ever change. */
  predicate SameRequest(row: Row, row': Row) {
    row' == row.(status := row'.status, decidedBy := row'.decidedBy, decidedAt := row'.decidedAt)
  }

  predicate LegalRow(hash: Hash, row: Row, row': Row) {
    SameRequest(row, row') && LegalEdge(row.status, row'.status, Intact(hash, row))
  }

  ghost predicate LegalStep(hash: Hash, t: Table, t': Table) {
    t'.Keys == t.Keys && forall id :: id in t ==> LegalRow(hash, t[id], t'[id])
  }

  lemma ConfirmIsLegal(hash: Hash, t: Table, id: Id, u: User, checked: Time, moment: Time)
    ensures LegalStep(hash, t, Confirm(hash, t, id, u, checked, moment).0)
  {
  }

  lemma RejectIsLegal(hash: Hash, t: Table, id: Id, u: User, moment: Time)
    ensures LegalStep(hash, t, Reject(t, id, u, moment).0)
  {
  }

  lemma VerifyGrantIsLegal(hash: Hash, t: Table, g: Grant, tool: string, now: Time)
    ensures LegalStep(hash, t, VerifyGrant(hash, t, g, tool, now).0)
  {
  }

  lemma ExpireStaleIsLegal(hash: Hash, t: Table, moment: Time)
    ensures LegalStep(hash, t, ExpireStale(t, moment))
  {
  }

  /** When a decision succeeds: confirmation for an intact, pending request that an
      entitled user reaches in time, rejection for a pending one. */
  lemma DecisionsSucceedExactlyWhen(hash: Hash, t: Table, id: Id, u: User, checked: Time, moment: Time)
    requires checked <= moment
    ensures Confirm(hash, t, id, u, checked, moment).1.Ok? <==>
              id in t && Entitled(u, t[id]) && t[id].status.Pending? && moment < t[id].expiresAt && Intact(hash, t[id])
    ensures Reject(t, id, u, moment).1.Ok? <==> id in t && Entitled(u, t[id]) && t[id].status.Pending?
  {
  }

  // ----------------------------------------------------- what each operation answers --

  /** Who may decide a request: an active operator on their own ones, an active
      administrator on any. */
  predicate MayDecide(u: User, row: Row) {
    u.active && (u.role == Policy.Admin || (u.role == Policy.Operator && u.id == row.owner))
  }

  /** One row reads as given, and every other as before. */
  predicate OnlyRow(t: Table, t': Table, id: Id, row: Row) {
    t'.Keys == t.Keys + {id} && t'[id] == row && forall k :: k in t && k != id ==> t'[k] == t[k]
  }

  /** Every answer of a confirmation, and what it writes. */
  lemma ConfirmAnswersExactly(hash: Hash, t: Table, id: Id, u: User, checked: Time, moment: Time)
    ensures var (t', r) := Confirm(hash, t, id, u, checked, moment);
            if id !in t then r == Err(NotFound) && t' == t
            else
              var row := t[id];
              if !MayDecide(u, row) then r == Err(NotAuthorized) && t' == t
              else if hash(Obj(row.args)) != row.hash then
                && r == Err(IntegrityBroken)
                && OnlyRow(t, t', id, Row(row.owner, row.tool, row.args, row.hash, row.expiresAt, Failed,
                                          row.decidedBy, Some(checked)))
              else if row.status != Pending then r == Err(WrongState) && t' == t
              else if row.expiresAt <= checked then
                && r == Err(HasExpired)
                && OnlyRow(t, t', id, Row(row.owner, row.tool, row.args, row.hash, row.expiresAt, Expired,
                                          row.decidedBy, Some(checked)))
              else if row.expiresAt <= moment then r == Err(HasExpired) && t' == t
              else
                && r == Ok(Grant(id, row.tool, row.args, row.hash, u.id))
                && OnlyRow(t, t', id, Row(row.owner, row.tool, row.args, row.hash, row.expiresAt, Approved,
                                          Some(u.id), Some(moment)))
  {
  }

  /** Every answer of a rejection: who rejected, and when, is on record. */
  lemma RejectAnswersExactly(t: Table, id: Id, u: User, moment: Time)
    ensures var (t', r) := Reject(t, id, u, moment);
            if id !in t then r == Err(NotFound) && t' == t
            else
              var row := t[id];
              if !MayDecide(u, row) then r == Err(NotAuthorized) && t' == t
              else if row.status != Pending then r == Err(WrongState) && t' == t
              else
                var rejected := Row(row.owner, row.tool, row.args, row.hash, row.expiresAt, Rejected,
                                    Some(u.id), Some(moment));
                r == Ok(rejected) && OnlyRow(t, t', id, rejected)
  {
  }

  /** Every answer of the check before execution, in the order of precedence. */
  lemma VerifyAnswersExactly(hash: Hash, t: Table, g: Grant, tool: string, now: Time)
    ensures var (t', r) := VerifyGrant(hash, t, g, tool, now);
            if g.id !in t then r == Err(NotFound) && t' == t
            else
              var row := t[g.id];
              if row.tool != tool || g.tool != tool then r == Err(IntegrityBroken) && t' == t
              else if row.status != Approved then r == Err(WrongState) && t' == t
              else if row.expiresAt <= now then
                && r == Err(HasExpired)
                && OnlyRow(t, t', g.id, Row(row.owner, row.tool, row.args, row.hash, row.expiresAt, Expired,
                                            row.decidedBy, Some(now)))
              else if hash(Obj(row.args)) != row.hash then
                && r == Err(IntegrityBroken)
                && OnlyRow(t, t', g.id, Row(row.owner, row.tool, row.args, row.hash, row.expiresAt, Failed,
                                            row.decidedBy, Some(now)))
              else if hash(Obj(g.args)) != row.hash then r == Err(IntegrityBroken) && t' == t
              else r == Ok(row) && t' == t
  {
  }

  /** The bulk expiry moves exactly the pending requests whose time is up. */
  lemma ExpiresExactly(t: Table, moment: Time, id: Id)
    requires id in t
    ensures ExpireStale(t, moment).Keys == t.Keys
    ensures var row := t[id];
            ExpireStale(t, moment)[id]
            == if row.status == Pending && row.expiresAt <= moment
               then Row(row.owner, row.tool, row.args, row.hash, row.expiresAt, Expired, row.decidedBy, Some(moment))
               else row
  {
  }
}
