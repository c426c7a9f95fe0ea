/** Input checks made before any request reaches the platform API, and the inputs the
    test-project handler fixes. */
module Validation {
  import opened Api

  /** validateNewProject: a project needs a name, and a billing code unless it is a test
      project. The name is checked first. */
  function ValidateNewProject(project: string, billing: string, isTestProject: bool): (r: Outcome)
    ensures r.Ok? <==> |project| > 0 && (isTestProject || |billing| > 0)
    ensures |project| == 0 ==> r == Fail(ProjectNameMissing)
    ensures |project| > 0 && r.Fail? ==> r == Fail(BillingMissing)
  {
    if |project| == 0 then Fail(ProjectNameMissing)
    else if !isTestProject && |billing| == 0 then Fail(BillingMissing)
    else Ok
  }

  /** validateBillingInformation: the same field checks, then the admin-permission check made
      by a helper outside project.go, given here as `checkAdmin(username, project)`. */
  function ValidateBillingInformation(project: string, billing: string, username: string,
                                      checkAdmin: (string, string) -> Outcome): (r: Outcome)
    ensures |project| == 0 ==> r == Fail(ProjectNameMissing)
    ensures |project| > 0 && |billing| == 0 ==> r == Fail(BillingMissing)
    ensures |project| > 0 && |billing| > 0 ==> r == checkAdmin(username, project)
  {
    if |project| == 0 then Fail(ProjectNameMissing)
    else if |billing| == 0 then Fail(BillingMissing)
    else checkAdmin(username, project)
  }

  /** The permission check decides only once both fields are present: before that, any two
      permission checks give the same verdict. */
  lemma FieldChecksPrecedePermission(project: string, billing: string, username: string,
                                     check1: (string, string) -> Outcome,
                                     check2: (string, string) -> Outcome)
    requires |project| == 0 || |billing| == 0
    ensures ValidateBillingInformation(project, billing, username, check1)
         == ValidateBillingInformation(project, billing, username, check2)
    ensures ValidateBillingInformation(project, billing, username, check1).Fail?
  {
  }

  const TestProjectBilling := "keine-verrechnung"

  /** The inputs a project creation works on. */
  datatype NewProjectCommand = NewProjectCommand(project: string, billing: string, megaId: string)

  /** The test-project handler prefixes the project name with the requester and a dash, uses
      the fixed billing code and no MEGAID. The derived command always passes validation. */
  function TestProjectCommand(username: string, project: string): (c: NewProjectCommand)
    ensures ValidateNewProject(c.project, c.billing, true) == Ok
    ensures ValidateNewProject(c.project, c.billing, false) == Ok
    ensures |c.project| == |username| + 1 + |project|
    ensures c.project[..|username| + 1] == username + "-" && c.project[|username| + 1..] == project
    ensures c.billing == TestProjectBilling && c.megaId == ""
  {
    NewProjectCommand(username + "-" + project, TestProjectBilling, "")
  }
}
