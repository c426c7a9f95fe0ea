/** Project provisioning (createNewProject) and the three request flows that use the core:
    new project, new test project and billing update. The chain is create, grant admin, stamp
    metadata; the first failure ends it and nothing done before is undone. */
module Provisioning {
  import opened Api
  import opened Validation
  import opened Permissions
  import opened Metadata

  /** How far a provisioning run got: the last step that reported success. AdminGranted
      means the grant step reported success; when the policy-binding helper gave neither a
      document nor an error, that step succeeds without writing any grant. */
  datatype Stage = NotExists | Created | AdminGranted | Provisioned

  /** The platform's answers to one provisioning run, one per remote step. */
  datatype Replies = Replies(
    create: Reply,
    policyBindings: PolicyFetch,
    putPolicyBindings: Reply,
    getNamespace: NamespaceFetch,
    putNamespace: Reply)

  /** The error a create request gets when its status is not 201. */
  function CreateError(create: Reply): (e: Error)
    ensures e == ProjectExists <==> create == Status(StatusConflict)
    ensures e != ProjectExists ==> e == GenericApiError
  {
    if create == Status(StatusConflict) then ProjectExists else GenericApiError
  }

  /** The requests of one provisioning run, in order: the create request; after a 201 the
      grant's requests; after a successful grant the metadata step's requests. */
  function ProvisionRequests(project: string, username: string, billing: string, megaId: string,
                             replies: Replies): seq<Request>
  {
    if replies.create != Status(StatusCreated) then
      [PostProjectRequest(project)]
    else if GrantOutcome(replies.policyBindings, replies.putPolicyBindings).Fail? then
      [PostProjectRequest(project)] + GrantRequests(project, username, replies.policyBindings)
    else
      [PostProjectRequest(project)] + GrantRequests(project, username, replies.policyBindings)
        + StampRequests(project, billing, megaId, username, replies.getNamespace)
  }

  /** The result of one provisioning run: the create error without a 201, else the grant's
      failure, else the metadata step's result. */
  function ProvisionOutcome(replies: Replies): (r: Outcome)
    ensures replies.create != Status(StatusCreated) ==> r == Fail(CreateError(replies.create))
    ensures r.Ok? <==>
      && replies.create == Status(StatusCreated)
      && GrantOutcome(replies.policyBindings, replies.putPolicyBindings).Ok?
      && StampOutcome(replies.getNamespace, replies.putNamespace).Ok?
  {
    if replies.create != Status(StatusCreated) then Fail(CreateError(replies.create))
    else if GrantOutcome(replies.policyBindings, replies.putPolicyBindings).Fail? then
      GrantOutcome(replies.policyBindings, replies.putPolicyBindings)
    else StampOutcome(replies.getNamespace, replies.putNamespace)
  }

  /** The stage one provisioning run ends at. */
  function ProvisionStage(replies: Replies): (s: Stage)
    ensures s == Provisioned <==> ProvisionOutcome(replies).Ok?
    ensures s == NotExists <==> replies.create != Status(StatusCreated)
  {
    if replies.create != Status(StatusCreated) then NotExists
    else if GrantOutcome(replies.policyBindings, replies.putPolicyBindings).Fail? then Created
    else if StampOutcome(replies.getNamespace, replies.putNamespace).Fail? then AdminGranted
    else Provisioned
  }

  /** A 409 answer is reported with the text "Das Projekt existiert bereits"; no other
      status of the create request is, unless the generic text happened to be the same. */
  lemma ConflictMessage(create: Reply, genericApiError: string)
    requires create != Status(StatusCreated)
    ensures create == Status(StatusConflict) ==>
      Message(CreateError(create), genericApiError) == ProjectAlreadyExists
    ensures create != Status(StatusConflict) ==>
      Message(CreateError(create), genericApiError) == genericApiError
  {
  }

  method CreateNewProject(project: string, username: string, billing: string, megaId: string,
                          replies: Replies)
    returns (out: Outcome, stage: Stage, calls: seq<Request>)
    ensures calls == ProvisionRequests(project, username, billing, megaId, replies)
    ensures out == ProvisionOutcome(replies) && stage == ProvisionStage(replies)
    ensures GetNamespace(project) in calls <==>
      replies.create == Status(StatusCreated) && GrantOutcome(replies.policyBindings, replies.putPolicyBindings).Ok?
    ensures out.Ok? <==> stage == Provisioned
    // anything but 201: nothing was created, 409 is told apart from every other status
    ensures replies.create != Status(StatusCreated) ==>
      stage == NotExists && out == Fail(CreateError(replies.create))
    // no rollback: once created, the project stays at least created
    ensures replies.create == Status(StatusCreated) ==> stage != NotExists
    ensures replies.create == Status(StatusCreated) &&
            GrantOutcome(replies.policyBindings, replies.putPolicyBindings).Fail? ==>
      stage == Created && out == GrantOutcome(replies.policyBindings, replies.putPolicyBindings)
    ensures replies.create == Status(StatusCreated) &&
            GrantOutcome(replies.policyBindings, replies.putPolicyBindings).Ok? ==>
      out == StampOutcome(replies.getNamespace, replies.putNamespace) &&
      stage == (if out.Ok? then Provisioned else AdminGranted)
  {
    calls := [PostProjectRequest(project)];
    stage := NotExists;
    if replies.create == Status(StatusCreated) {
      stage := Created;
      var granted, grantCalls := ChangeProjectPermission(project, username,
                                                         replies.policyBindings, replies.putPolicyBindings);
      calls := calls + grantCalls;
      if granted.Fail? {
        out := granted;
        return;
      }
      stage := AdminGranted;
      var stamped, stampCalls := CreateOrUpdateMetadata(project, billing, megaId, username,
                                                        replies.getNamespace, replies.putNamespace);
      calls := calls + stampCalls;
      if stamped.Fail? {
        out := stamped;
        return;
      }
      stage := Provisioned;
      out := Ok;
      return;
    }
    if replies.create == Status(StatusConflict) {
      out := Fail(ProjectExists);
      return;
    }
    out := Fail(GenericApiError);
  }

  /** The new-project flow: validation, then provisioning. A validation error issues no
      request. */
  method NewProject(username: string, project: string, billing: string, megaId: string,
                    replies: Replies)
    returns (out: Outcome, stage: Stage, calls: seq<Request>)
    ensures ValidateNewProject(project, billing, false).Fail? ==>
      out == ValidateNewProject(project, billing, false) && stage == NotExists && calls == []
    ensures ValidateNewProject(project, billing, false).Ok? ==>
      out == ProvisionOutcome(replies) && stage == ProvisionStage(replies) &&
      calls == ProvisionRequests(project, username, billing, megaId, replies)
    ensures ValidateNewProject(project, billing, false).Ok? ==>
      |calls| > 0 && calls[0] == PostProjectRequest(project)
    ensures out.Ok? <==> stage == Provisioned
    ensures ValidateNewProject(project, billing, false).Ok? && replies.create == Status(StatusConflict) ==>
      out == Fail(ProjectExists)
  {
    out := ValidateNewProject(project, billing, false);
    if out.Fail? {
      stage, calls := NotExists, [];
      return;
    }
    out, stage, calls := CreateNewProject(project, username, billing, megaId, replies);
  }

  /** The new-test-project flow: the derived inputs always pass validation, so the create
      request is always issued, and any metadata written carries the fixed billing code and
      leaves MEGAID as it was. */
  method NewTestProject(username: string, project: string, replies: Replies)
    returns (out: Outcome, stage: Stage, calls: seq<Request>)
    ensures out == ProvisionOutcome(replies) && stage == ProvisionStage(replies)
    ensures calls == ProvisionRequests(username + "-" + project, username, TestProjectBilling, "", replies)
    ensures |calls| > 0 && calls[0] == PostProjectRequest(username + "-" + project)
    ensures out != Fail(ProjectNameMissing) && out != Fail(BillingMissing)
    ensures out.Ok? <==> stage == Provisioned
    ensures forall c :: c in calls && c.PutNamespace? ==>
      replies.getNamespace.NamespaceFetched? &&
      c.annotations == MergeAnnotations(replies.getNamespace.annotations, TestProjectBilling, "", username)
  {
    var command := TestProjectCommand(username, project);
    out := ValidateNewProject(command.project, command.billing, true);
    if out.Fail? {
      stage, calls := NotExists, [];
      return;
    }
    out, stage, calls := CreateNewProject(command.project, username, command.billing, command.megaId, replies);
  }

  /** The billing-update flow: the field checks, then the permission check (which reads the
      project's policy bindings), then the metadata step with an empty MEGAID, which therefore
      never touches the MEGAID annotation. A missing field issues no request. */
  method UpdateBilling(username: string, project: string, billing: string,
                       checkAdmin: (string, string) -> Outcome, get: NamespaceFetch, put: Reply)
    returns (out: Outcome, calls: seq<Request>)
    ensures |project| == 0 || |billing| == 0 ==>
      out == ValidateBillingInformation(project, billing, username, checkAdmin) && calls == []
    ensures |project| > 0 && |billing| > 0 && checkAdmin(username, project).Fail? ==>
      out == checkAdmin(username, project) && calls == [CheckAdminPermissions(username, project)]
    ensures ValidateBillingInformation(project, billing, username, checkAdmin).Ok? ==>
      out == StampOutcome(get, put) &&
      calls == [CheckAdminPermissions(username, project)] + StampRequests(project, billing, "", username, get)
    ensures forall c :: c in calls && c.PutNamespace? ==>
      get.NamespaceFetched? &&
      c.annotations[KontierungKey] == billing &&
      (MegaIdKey in c.annotations <==> MegaIdKey in get.annotations) &&
      (MegaIdKey in get.annotations ==> c.annotations[MegaIdKey] == get.annotations[MegaIdKey])
  {
    calls := [];
    if |project| > 0 && |billing| > 0 {
      calls := [CheckAdminPermissions(username, project)];
    }
    out := ValidateBillingInformation(project, billing, username, checkAdmin);
    if out.Fail? {
      return;
    }
    var stampCalls;
    out, stampCalls := CreateOrUpdateMetadata(project, billing, "", username, get, put);
    calls := calls + stampCalls;
  }
}
