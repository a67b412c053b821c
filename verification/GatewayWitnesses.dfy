/** Runs from the empty table in which the gateway does what it is not expected to do. */
module GatewayWitnesses {
  import opened Json
  import opened CanonicalJson
  import opened Approvals
  import opened SchemaValidation
  import opened ToolGateway
  import opened GrantAdmission
  import Policy

  /** `{"type": "object", "properties": {}}`, which discovery assumes for a tool without a schema. */
  const OPEN_SCHEMA := ToolSchema(map[], [], map[])

  const MERGE := "crm__merge"

  const OPERATOR := User(1, Policy.Operator, true)

  /** Two unlisted, and so gated, tools of servers that declare no arguments; a digest that
      is the text itself. */
  function Deployment(): Config {
    Config(Policy.Settings(map[], false), map[MERGE := OPEN_SCHEMA, Policy.SEND_EMAIL := OPEN_SCHEMA],
           payload => HashPayload((text: string) => text, payload), 30)
  }

  lemma DeploymentIsValid()
    ensures ValidConfig(Deployment())
  {
    var digest: Digest := text => text;
    PayloadHashBinds(digest);
    forall a, b | WellFormed(a) && WellFormed(b)
      ensures Deployment().hash(a) == Deployment().hash(b) <==> Equiv(a, b)
    {
      VerifiesIffSamePayload(digest, a, b);
    }
    OpenSchemaFits([]);
  }

  lemma OpenSchemaFits(args: seq<Field>)
    ensures Rankable(OPEN_SCHEMA.defs) && Fits(args, OPEN_SCHEMA)
  {
    assert Acyclic(OPEN_SCHEMA.defs, map[]);
  }

  predicate Short(args: seq<Field>) { args == [] || (|args| == 1 && |args[0].key| == 4) }

  lemma MergeIsAdmitted(args: seq<Field>)
    requires Short(args)
    ensures ValidConfig(Deployment()) && Admitted(Deployment(), Call(MERGE, args), Policy.Operator)
  {
    DeploymentIsValid();
    OpenSchemaFits(args);
    if args == [] { } else { assert args[1..] == []; }
  }

  lemma RunOfAppend(cfg: Config, w: World, ops: seq<Op>, op: Op)
    requires ValidConfig(cfg)
    ensures Run(cfg, w, ops + [op]) == Step(cfg, Run(cfg, w, ops), op)
  {
    assert (ops + [op])[..|ops|] == ops;
  }

  lemma ProposalIsRaised(cfg: Config, w: World, call: Call, owner: UserId, now: Time, fate: Fate)
    requires ValidConfig(cfg) && Admitted(cfg, call, Policy.Operator)
    ensures Step(cfg, w, Propose(call, Policy.Operator, Some(owner), now, fate))
            == RequestApproval(cfg, w, call, owner, now)
  {
  }

  const ASKED := Propose(Call(MERGE, []), Policy.Operator, Some(1), 0, Answered(true))

  const DECIDED := ConfirmOp(0, OPERATOR, 0, 0)

  /** The request, raised. */
  function Pending(): World {
    World(map[0 := NewRow(Deployment().hash, 1, MERGE, [], 30)], 1, map[0 := Call(MERGE, [])], [])
  }

  lemma PendingIsReached()
    ensures ValidConfig(Deployment()) && Run(Deployment(), EMPTY, [ASKED]) == Pending()
  {
    MergeIsAdmitted([]);
    RunOfAppend(Deployment(), EMPTY, [], ASKED);
    assert [ASKED] == [] + [ASKED];
    ProposalIsRaised(Deployment(), EMPTY, Call(MERGE, []), 1, 0, Answered(true));
  }

  /** The row of the request once it is confirmed. */
  function Granted(): Row {
    NewRow(Deployment().hash, 1, MERGE, [], 30).(status := Approved, decidedBy := Some(1), decidedAt := Some(0))
  }

  function Confirmed(): World { World(map[0 := Granted()], 1, map[0 := Call(MERGE, [])], []) }

  /** Proposed and confirmed as the application does it. */
  lemma ConfirmedIsReached()
    ensures ValidConfig(Deployment()) && Run(Deployment(), EMPTY, [ASKED, DECIDED]) == Confirmed()
  {
    PendingIsReached();
    RunOfAppend(Deployment(), EMPTY, [ASKED], DECIDED);
    assert [ASKED, DECIDED] == [ASKED] + [DECIDED];
    assert Pending().rows[0 := Granted()] == Confirmed().rows;
  }

  lemma GrantSends(call: Call, now: Time, fate: Fate)
    requires call.tool == MERGE && Short(call.args) && now < 30
    ensures ValidConfig(Deployment())
    ensures var g := GrantFor(0, Granted(), 1);
            Step(Deployment(), Confirmed(), Present(call, g, Policy.Operator, now, fate))
            == RunApproved(Confirmed(), 0, call, fate)
  {
    MergeIsAdmitted(call.args);
    var g := GrantFor(0, Granted(), 1);
    PresentDoesOneOfThree(Deployment(), Confirmed(), call, Policy.Operator, g, now, fate);
    GrantedRunsExactlyWhenVerifiable(Deployment(), Confirmed(), call, g, now, fate);
  }

  /** The run so far, and a call with the grant. */
  lemma RedeemedIsReached(call: Call, now: Time, fate: Fate)
    requires call.tool == MERGE && Short(call.args) && now < 30
    ensures ValidConfig(Deployment())
    ensures var op := Present(call, GrantFor(0, Granted(), 1), Policy.Operator, now, fate);
            Run(Deployment(), EMPTY, [ASKED, DECIDED] + [op]) == RunApproved(Confirmed(), 0, call, fate)
  {
    ConfirmedIsReached();
    GrantSends(call, now, fate);
    RunOfAppend(Deployment(), EMPTY, [ASKED, DECIDED],
                Present(call, GrantFor(0, Granted(), 1), Policy.Operator, now, fate));
  }

  /** The same grant after an interrupted call. */
  lemma GrantSendsAgain(call: Call, now: Time, fate: Fate)
    requires call.tool == MERGE && Short(call.args) && now < 30
    ensures ValidConfig(Deployment())
    ensures var g := GrantFor(0, Granted(), 1);
            var between := RunApproved(Confirmed(), 0, call, Interrupted);
            Step(Deployment(), between, Present(call, g, Policy.Operator, now, fate))
            == RunApproved(between, 0, call, fate)
  {
    MergeIsAdmitted(call.args);
    var g := GrantFor(0, Granted(), 1);
    var between := RunApproved(Confirmed(), 0, call, Interrupted);
    PresentDoesOneOfThree(Deployment(), between, call, Policy.Operator, g, now, fate);
    GrantedRunsExactlyWhenVerifiable(Deployment(), between, call, g, now, fate);
  }

  /** A request is raised and confirmed; `execute` is then called directly with its grant
      and other arguments, and the other arguments leave. */
  lemma DirectExecuteCanSendOtherArguments() returns (call: Call)
    ensures ValidConfig(Deployment()) && WellFormed(Obj(call.args))
    ensures var g := GrantFor(0, Granted(), 1);
            var w := Run(Deployment(), EMPTY, [ASKED, DECIDED, Present(call, g, Policy.Operator, 0, Answered(true))]);
            && w.dispatched == [Dispatch(Some(0), call, true)]
            && 0 in w.proposed && !Equiv(Obj(call.args), Obj(w.proposed[0].args))
  {
    call := Call(MERGE, [Field("keep", Num(7))]);
    RedeemedIsReached(call, 0, Answered(true));
    var op := Present(call, GrantFor(0, Granted(), 1), Policy.Operator, 0, Answered(true));
    assert [ASKED, DECIDED, op] == [ASKED, DECIDED] + [op];
    assert Find([], "keep").None?;
  }

  /** An approved call is cut off after it left; its grant, presented again, sends it again. */
  lemma InterruptedCallCanLeaveTwice()
    ensures ValidConfig(Deployment())
    ensures var g := GrantFor(0, Granted(), 1);
            Run(Deployment(), EMPTY,
                [ASKED, DECIDED, Present(CallOf(g), g, Policy.Operator, 0, Interrupted),
                 Present(CallOf(g), g, Policy.Operator, 1, Answered(true))]).dispatched
            == [Dispatch(Some(0), CallOf(g), false), Dispatch(Some(0), CallOf(g), true)]
  {
    var cfg, g := Deployment(), GrantFor(0, Granted(), 1);
    var first := Present(CallOf(g), g, Policy.Operator, 0, Interrupted);
    var second := Present(CallOf(g), g, Policy.Operator, 1, Answered(true));
    RedeemedIsReached(CallOf(g), 0, Interrupted);
    RunOfAppend(cfg, EMPTY, [ASKED, DECIDED] + [first], second);
    assert [ASKED, DECIDED, first, second] == [ASKED, DECIDED] + [first] + [second];
    GrantSendsAgain(CallOf(g), 1, Answered(true));
  }

  // ------------------------------------------------------- undocumented transitions --

  /** The grant is presented when the request has expired. */
  lemma ApprovedRequestCanExpire()
    ensures ValidConfig(Deployment())
    ensures var g := GrantFor(0, Granted(), 1);
            var late := Present(CallOf(g), g, Policy.Operator, 30, Answered(true));
            var w := Run(Deployment(), EMPTY, [ASKED, DECIDED, late]);
            0 in w.rows && w.rows[0].status.Expired? && w.dispatched == []
  {
    ConfirmedIsReached();
    MergeIsAdmitted([]);
    var cfg, g := Deployment(), GrantFor(0, Granted(), 1);
    var op := Present(CallOf(g), g, Policy.Operator, 30, Answered(true));
    RunOfAppend(cfg, EMPTY, [ASKED, DECIDED], op);
    assert [ASKED, DECIDED, op] == [ASKED, DECIDED] + [op];
    PresentDoesOneOfThree(cfg, Confirmed(), CallOf(g), Policy.Operator, g, 30, Answered(true));
  }

  const REFUSED := RejectOp(0, OPERATOR, 0)

  const EDITED := Tamper(0, [Field("keep", Num(7))])

  /** The digest of the empty arguments is not that of the edited ones. */
  lemma EditIsNoticed()
    ensures Deployment().hash(Obj([Field("keep", Num(7))])) != Deployment().hash(Obj([]))
  {
    DeploymentIsValid();
    var shown, edited := Obj([]), Obj([Field("keep", Num(7))]);
    assert Find([], "keep").None?;
    assert !Equiv(edited, shown);
    HashesAgree(Deployment().hash, edited, shown);
  }

  lemma ConfirmedEditFails(w: World)
    requires 0 in w.rows && !w.rows[0].status.Failed? && w.rows[0].args == [Field("keep", Num(7))]
    requires w.rows[0].hash == Deployment().hash(Obj([])) && w.rows[0].owner == 1
    ensures ValidConfig(Deployment())
    ensures var w' := Step(Deployment(), w, DECIDED);
            0 in w'.rows && w'.rows[0].status.Failed? && w'.dispatched == w.dispatched
  {
    DeploymentIsValid();
    EditIsNoticed();
  }

  /** The stored arguments are edited, and the request is confirmed. */
  lemma EditedRequestCanFail()
    ensures ValidConfig(Deployment())
    ensures var w := Run(Deployment(), EMPTY, [ASKED, EDITED, DECIDED]);
            0 in w.rows && w.rows[0].status.Failed? && w.dispatched == []
  {
    PendingIsReached();
    EditThenConfirmFails([ASKED]);
    assert [ASKED, EDITED, DECIDED] == [ASKED] + [EDITED] + [DECIDED];
  }

  /** After any run that leaves the request there, and not failed. */
  lemma EditThenConfirmFails(ops: seq<Op>)
    requires ValidConfig(Deployment())
    requires var w := Run(Deployment(), EMPTY, ops);
             && 0 in w.rows && !w.rows[0].status.Failed?
             && w.rows[0].hash == Deployment().hash(Obj([])) && w.rows[0].owner == 1
    ensures var w := Run(Deployment(), EMPTY, ops + [EDITED] + [DECIDED]);
            && 0 in w.rows && w.rows[0].status.Failed?
            && w.dispatched == Run(Deployment(), EMPTY, ops).dispatched
  {
    RunOfAppend(Deployment(), EMPTY, ops, EDITED);
    RunOfAppend(Deployment(), EMPTY, ops + [EDITED], DECIDED);
    ConfirmedEditFails(Step(Deployment(), Run(Deployment(), EMPTY, ops), EDITED));
  }

  /** The same when it has been rejected before. */
  lemma RejectedRequestCanFail()
    ensures ValidConfig(Deployment())
    ensures var rejected := Run(Deployment(), EMPTY, [ASKED, REFUSED]);
            0 in rejected.rows && rejected.rows[0].status.Rejected?
    ensures var w := Run(Deployment(), EMPTY, [ASKED, REFUSED, EDITED, DECIDED]);
            0 in w.rows && w.rows[0].status.Failed? && w.dispatched == []
  {
    PendingIsReached();
    RunOfAppend(Deployment(), EMPTY, [ASKED], REFUSED);
    assert [ASKED, REFUSED] == [ASKED] + [REFUSED];
    EditThenConfirmFails([ASKED, REFUSED]);
    assert [ASKED, REFUSED, EDITED, DECIDED] == [ASKED, REFUSED] + [EDITED] + [DECIDED];
  }

  // --------------------------------------------------------- an email to a number --

  const TO_A_NUMBER := Call(Policy.SEND_EMAIL, [Field("to", Num(5))])

  /** A server that does not declare its recipients: even a viewer, whom the rules would
      refuse, is answered with a `TypeError`. */
  lemma EmailToANumberCrashes(w: World, owner: UserId, now: Time, fate: Fate)
    ensures ValidConfig(Deployment())
    ensures Execute(Deployment(), w, TO_A_NUMBER, Policy.Viewer, None, Some(owner), now, fate) == (w, Crashed)
  {
    DeploymentIsValid();
    OpenSchemaFits(TO_A_NUMBER.args);
    assert Find(TO_A_NUMBER.args, "to") == Some(Num(5));
    CrashesUnsentExactlyWhen(Deployment(), w, TO_A_NUMBER, Policy.Viewer, None, Some(owner), now, fate);
  }

  /** A server that declares them as a list: the argument check refuses the number first. */
  lemma DeclaredRecipientsAreChecked(cfg: Config, w: World, role: Policy.Role, owner: UserId, now: Time, fate: Fate)
    requires ValidConfig(cfg) && Policy.SEND_EMAIL in cfg.catalog
    requires var schema := cfg.catalog[Policy.SEND_EMAIL];
             && "to" in schema.properties && schema.properties["to"].ref.None?
             && schema.properties["to"].anyOf.Absent? && schema.properties["to"].oneOf.Absent?
             && schema.properties["to"].typ == Single("array")
    ensures Execute(cfg, w, TO_A_NUMBER, role, None, Some(owner), now, fate) == (w, Refused)
  {
    var schema := cfg.catalog[Policy.SEND_EMAIL];
    assert TO_A_NUMBER.args[0] == Field("to", Num(5));
    assert !AcceptsResolved(Num(5), schema.properties["to"], schema.defs, SomeRank(schema.defs));
  }
}
