/** The approval service as the object the application uses: methods that read and
    update the table statement by statement, each proved to do what `Approvals` says. */
module ApprovalServices {
  import opened Json
  import opened Approvals

  class ApprovalService {
    var rows: Table
    var next: Id
    const hash: Hash
    const ttl: nat

    constructor (hash: Hash, ttl: nat)
      ensures rows == map[] && next == 0 && this.hash == hash && this.ttl == ttl
    {
      this.hash := hash;
      this.ttl := ttl;
      rows := map[];
      next := 0;
    }

    method CreateRequest(owner: UserId, tool: string, args: seq<Field>, now: Time) returns (id: Id)
      modifies this
      ensures id == old(next) && next == old(next) + 1
      ensures rows == old(rows)[id := NewRow(hash, owner, tool, args, now + ttl)]
    {
      var expiresAt := now + ttl;
      id := next;
      rows := rows[id := Row(owner, tool, args, hash(Obj(args)), expiresAt, Pending, None, None)];
      next := next + 1;
    }

    // ------------------------------------------------- repository statements --

    method ClaimPending(id: Id, decider: UserId, moment: Time) returns (claimed: bool)
      modifies this`rows
      ensures rows == Approvals.ClaimPending(old(rows), id, decider, moment)
      ensures claimed <==> Claimable(old(rows), id, moment)
    {
      claimed := id in rows && rows[id].status == Pending && rows[id].expiresAt > moment;
      if claimed {
        rows := rows[id := rows[id].(status := Approved, decidedAt := Some(moment), decidedBy := Some(decider))];
      }
    }

    method RejectPending(id: Id, decider: UserId, moment: Time) returns (rejected: bool)
      modifies this`rows
      ensures rows == Approvals.RejectPending(old(rows), id, decider, moment)
      ensures rejected <==> id in old(rows) && old(rows)[id].status == Pending
    {
      rejected := id in rows && rows[id].status == Pending;
      if rejected {
        rows := rows[id := rows[id].(status := Rejected, decidedAt := Some(moment), decidedBy := Some(decider))];
      }
    }

    method MarkExecuted(id: Id)
      requires id in rows
      modifies this`rows
      ensures rows == WriteStatus(old(rows), id, Executed)
    {
      rows := rows[id := rows[id].(status := Executed)];
    }

    method MarkFailed(id: Id)
      requires id in rows
      modifies this`rows
      ensures rows == WriteStatus(old(rows), id, Failed)
    {
      rows := rows[id := rows[id].(status := Failed)];
    }

    /** Moves every stale row and no other, and says how many they were. */
    method ExpireStale(moment: Time) returns (count: nat)
      modifies this`rows
      ensures rows == Approvals.ExpireStale(old(rows), moment)
      ensures count == |set id | id in old(rows) && Stale(old(rows)[id], moment)|
    {
      ghost var before := rows;
      var stale := set id | id in rows && Stale(rows[id], moment);
      count := |stale|;
      var left := stale;
      while left != {}
        invariant left <= stale && rows.Keys == before.Keys
        invariant forall id :: id in before ==>
          rows[id] == if id in stale - left then before[id].(status := Expired, decidedAt := Some(moment))
                      else before[id]
        decreases left
      {
        var id :| id in left;
        rows := rows[id := rows[id].(status := Expired, decidedAt := Some(moment))];
        left := left - {id};
      }
      assert stale - left == stale;
      forall id | id in before ensures rows[id] == Approvals.ExpireStale(before, moment)[id] {
        assert id in stale <==> Stale(before[id], moment);
      }
      assert rows == Approvals.ExpireStale(before, moment);
    }

    // ------------------------------------------------------------- decisions --

    method Confirm(id: Id, approver: User, checked: Time, moment: Time) returns (r: Result<Grant>)
      requires checked <= moment
      modifies this`rows
      ensures (rows, r) == Approvals.Confirm(hash, old(rows), id, approver, checked, moment)
    {
      if id !in rows { return Err(NotFound); }
      var request := rows[id];
      if !CanApprove(approver) { return Err(NotAuthorized); }
      if approver.role != Approvals.Policy.Admin && request.owner != approver.id { return Err(NotAuthorized); }
      if hash(Obj(request.args)) != request.hash {
        FailIntegrity(id, checked);
        return Err(IntegrityBroken);
      }
      if request.status != Pending { return Err(WrongState); }
      if IsExpired(request, checked) {
        Expire(id, checked);
        return Err(HasExpired);
      }
      var claimed := ClaimPending(id, approver.id, moment);
      if !claimed {
        if IsExpired(rows[id], moment) { return Err(HasExpired); }
        return Err(WrongState);
      }
      request := rows[id];
      r := Ok(Grant(id, request.tool, request.args, request.hash, approver.id));
    }

    method Reject(id: Id, approver: User, moment: Time) returns (r: Result<Row>)
      modifies this`rows
      ensures (rows, r) == Approvals.Reject(old(rows), id, approver, moment)
    {
      if id !in rows { return Err(NotFound); }
      if !Entitled(approver, rows[id]) { return Err(NotAuthorized); }
      if rows[id].status != Pending { return Err(WrongState); }
      var rejected := RejectPending(id, approver.id, moment);
      if !rejected { return Err(WrongState); }
      r := Ok(rows[id]);
    }

    method VerifyGrant(grant: Grant, tool: string, now: Time) returns (r: Result<Row>)
      modifies this`rows
      ensures (rows, r) == Approvals.VerifyGrant(hash, old(rows), grant, tool, now)
    {
      if grant.id !in rows { return Err(NotFound); }
      var request := rows[grant.id];
      if request.tool != tool || grant.tool != tool { return Err(IntegrityBroken); }
      if request.status != Approved { return Err(WrongState); }
      if IsExpired(request, now) {
        Expire(grant.id, now);
        return Err(HasExpired);
      }
      if hash(Obj(request.args)) != request.hash {
        FailIntegrity(grant.id, now);
        return Err(IntegrityBroken);
      }
      if hash(Obj(grant.args)) != request.hash { return Err(IntegrityBroken); }
      r := Ok(request);
    }

    method Expire(id: Id, now: Time)
      requires id in rows
      modifies this`rows
      ensures rows == WriteDecision(old(rows), id, Expired, now)
    {
      rows := rows[id := rows[id].(status := Expired, decidedAt := Some(now))];
    }

    method FailIntegrity(id: Id, now: Time)
      requires id in rows
      modifies this`rows
      ensures rows == WriteDecision(old(rows), id, Failed, now)
    {
      rows := rows[id := rows[id].(status := Failed, decidedAt := Some(now))];
    }
  }
}
