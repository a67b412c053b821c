/** The tool execution service as an object: it validates, judges, raises or verifies an
    approval, dispatches and marks, and is proved to refine `ToolGateway.Execute`. */
module ToolExecution {
  import opened Json
  import opened Approvals
  import opened SchemaValidation
  import opened ToolGateway
  import opened ApprovalServices
  import Policy

  class ToolExecutionService {
    const approvals: ApprovalService
    const settings: Policy.Settings
    const catalog: map<string, ToolSchema>
    var dispatched: seq<Dispatch>
    ghost var proposed: map<Id, Call>

    constructor (approvals: ApprovalService, settings: Policy.Settings, catalog: map<string, ToolSchema>)
      ensures this.approvals == approvals && this.settings == settings && this.catalog == catalog
      ensures dispatched == [] && proposed == map[]
    {
      this.approvals := approvals;
      this.settings := settings;
      this.catalog := catalog;
      dispatched := [];
      proposed := map[];
    }

    ghost function Cfg(): Config
    {
      Config(settings, catalog, approvals.hash, approvals.ttl)
    }

    ghost function Now(): World
      reads this, approvals
    {
      World(approvals.rows, approvals.next, proposed, dispatched)
    }

    /** The arguments of a known tool have no problem. */
    method Accepts(call: Call) returns (acceptable: bool)
      requires ValidConfig(Cfg()) && call.tool in catalog
      ensures acceptable <==> Fits(call.args, catalog[call.tool])
    {
      var schema := catalog[call.tool];
      var problems := ValidateArguments(schema, call.args, SomeRank(schema.defs));
      acceptable := problems == [];
    }

    method Execute(
      call: Call, role: Policy.Role, grant: Option<Grant>, owner: Option<UserId>, now: Time, fate: Fate)
      returns (outcome: Outcome)
      requires ValidConfig(Cfg())
      modifies this, approvals
      ensures (Now(), outcome) == ToolGateway.Execute(Cfg(), old(Now()), call, role, grant, owner, now, fate)
    {
      if call.tool !in catalog { return Refused; }
      var acceptable := Accepts(call);
      if !acceptable { return Refused; }
      var verdict := Policy.Evaluate(settings, role, call.tool, call.args);
      if verdict.None? { return Crashed; }
      if verdict.value.Deny? { return Refused; }
      if verdict.value.RequireApproval? {
        if grant.None? {
          outcome := RequestApproval(call, owner, now);
          return;
        }
        outcome := ExecuteGranted(call, grant.value, now, fate);
        return;
      }
      outcome := Dispatch(call, None, fate);
    }

    method RequestApproval(call: Call, owner: Option<UserId>, now: Time) returns (outcome: Outcome)
      modifies this`proposed, approvals
      ensures owner.None? ==> outcome == Refused && Now() == old(Now())
      ensures owner.Some? ==> outcome == AwaitsApproval(old(approvals.next))
                              && Now() == ToolGateway.RequestApproval(Cfg(), old(Now()), call, owner.value, now)
    {
      if owner.None? { return Refused; }
      var id := approvals.CreateRequest(owner.value, call.tool, call.args, now);
      proposed := proposed[id := call];
      outcome := AwaitsApproval(id);
    }

    method ExecuteGranted(call: Call, grant: Grant, now: Time, fate: Fate) returns (outcome: Outcome)
      modifies this`dispatched, approvals`rows
      ensures (Now(), outcome) == ToolGateway.ExecuteGranted(Cfg(), old(Now()), call, grant, now, fate)
    {
      var verified := approvals.VerifyGrant(grant, call.tool, now);
      if verified.Err? { return Raised(verified.failure); }
      outcome := Dispatch(call, Some(grant.id), fate);
    }

    /** Hands the call to the server, then marks the approval it ran under, if the service
        gets that far. */
    method Dispatch(call: Call, approval: Option<Id>, fate: Fate) returns (outcome: Outcome)
      requires approval.Some? ==> approval.value in approvals.rows
      modifies this`dispatched, approvals`rows
      ensures outcome == match fate case Answered(success) => Ran(success) case Interrupted => Crashed
      ensures Now() == if approval.None? then Dispatched(old(Now()), None, call, fate)
                       else ToolGateway.RunApproved(old(Now()), approval.value, call, fate)
    {
      dispatched := dispatched + [ToolGateway.Dispatch.Dispatch(approval, call, fate.Answered?)];
      if fate.Interrupted? { return Crashed; }
      if approval.Some? {
        if fate.success { approvals.MarkExecuted(approval.value); } else { approvals.MarkFailed(approval.value); }
      }
      outcome := Ran(fate.success);
    }

    method ExecuteApproved(grant: Grant, role: Policy.Role, now: Time, fate: Fate) returns (outcome: Outcome)
      requires ValidConfig(Cfg())
      modifies this, approvals
      ensures (Now(), outcome)
              == ToolGateway.Execute(Cfg(), old(Now()), CallOf(grant), role, Some(grant), None, now, fate)
    {
      var call := Call(grant.tool, grant.args);
      outcome := Execute(call, role, Some(grant), None, now, fate);
    }
  }
}
