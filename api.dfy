/** Vocabulary shared by the provisioning core: the errors it returns, the replies of the
    platform API, the documents it exchanges with that API, and the requests it issues. */
module Api {

  datatype Option<T> = None | Some(value: T)

  /** The error values the provisioning core returns (Go `error`, nil meaning success). */
  datatype Error =
    | ProjectNameMissing        // "Projektname muss angegeben werden"
    | BillingMissing            // "Kontierungsnummer muss angegeben werden"
    | ProjectExists             // "Das Projekt existiert bereits"
    | GenericApiError           // the shared generic API error, whose text is defined elsewhere
    | Upstream(message: string) // an error made by a helper outside project.go, passed through

  datatype Outcome = Ok | Fail(error: Error)

  const ProjectNameRequired := "Projektname muss angegeben werden"
  const BillingRequired := "Kontierungsnummer muss angegeben werden"
  const ProjectAlreadyExists := "Das Projekt existiert bereits"

  /** The user-facing text of an error; the generic API error's text is configuration. */
  function Message(e: Error, genericApiError: string): string
  {
    match e
    case ProjectNameMissing => ProjectNameRequired
    case BillingMissing => BillingRequired
    case ProjectExists => ProjectAlreadyExists
    case GenericApiError => genericApiError
    case Upstream(m) => m
  }

  /** What one call to the platform API gave back: no response at all, or a status code. */
  datatype Reply = TransportError | Status(code: int)

  const StatusOK := 200
  const StatusCreated := 201
  const StatusConflict := 409

  /** A role binding of a project's policy-binding document. */
  datatype Subject = Subject(kind: string, name: string)
  datatype RoleBinding = RoleBinding(name: string, userNames: seq<string>, subjects: seq<Subject>)

  /** The `metadata.annotations` object of a namespace document. */
  type Annotations = map<string, string>

  /** The requests the core issues, in the order it issues them. `FetchPolicyBindings` stands
      for the call of the helper that reads the policy-binding document, and
      `CheckAdminPermissions` for the call of the permission-check helper, which reads it too. */
  datatype Request =
    | PostProjectRequest(name: string)
    | FetchPolicyBindings(project: string)
    | CheckAdminPermissions(username: string, project: string)
    | PutPolicyBindings(project: string, roleBindings: seq<RoleBinding>)
    | GetNamespace(project: string)
    | PutNamespace(project: string, annotations: Annotations)
}
