# Project provisioning core of the self-service portal, in Dafny

This project models the provisioning core of `server/openshift/project.go` of the
self-service portal backend. The core lets a user create an OpenShift project for themselves, make
themselves its admin and stamp billing and ownership annotations on its namespace. It has four
parts:

- **Input validation** (`Validation`). `validateNewProject` demands a project name, and a
  billing code unless the project is a test project. `validateBillingInformation` makes the
  same field checks and then asks the admin-permission check. The test-project handler derives
  its inputs itself: the name `username + "-" + project`, the billing code
  `"keine-verrechnung"` and an empty MEGAID.
- **The admin grant** (`Permissions`). `changeProjectPermission` reads the project's
  policy-binding document. It appends the lower-case and then the upper-case form of the user
  name to the `userNames` of every role binding named `admin`, and writes the document back in
  full. The in-place loop is the method `AppendAdminUsers`, on an array of role bindings. It is
  proved against the function `GrantAdmin`.
- **The annotation merge** (`Metadata`). `createOrUpdateMetadata` reads the namespace document
  and sets `openshift.io/kontierung-element` and `openshift.io/requester` on its annotations in
  place. It sets `openshift.io/MEGAID` only for a non-empty id, then writes the document back.
  The in-place updates are the methods of the class `NamespaceDocument`. They are proved
  against the function `MergeAnnotations`.
- **The provisioning sequence** (`Provisioning`). `createNewProject` sends the project
  request. On 201 it grants admin rights and then stamps the metadata. The first failure is
  returned, and nothing done before it is undone. On 409 it returns "Das Projekt existiert
  bereits". Any other status gives the generic API error. The run's progress is the `Stage`
  `NotExists → Created → AdminGranted → Provisioned`.

Every answer of the platform API is an input of the model: a `Reply` (a transport error or a
status code), or the parsed document a read produced. Each operation returns the `Request`s it
issued, in order. That list is how the model states the step order, the early exit and the fact
that a validation error reaches no endpoint. The admin-permission check and the policy-binding
read are helpers outside `project.go`. The permission check is a function parameter
`(string, string) -> Outcome`. The result of the policy-binding read is the input `PolicyFetch`.

Three behaviours of the code that the model keeps:

- The grant appends only to `userNames`. The subject references are left as they are.
- When the helper that reads the policy bindings returns no document, its error is returned
  unchanged (lines 147-149). If it returns no error either, the grant reports success and sends
  no write. `GrantOutcome` keeps this case. A provisioning run then reaches the stage
  `AdminGranted` although no admin binding was written: the stage records which steps reported
  success, not what the platform holds.
- The status of the namespace read is not checked (lines 188-200). Any body that parses as JSON
  goes on to the merge.

## Model

| member | source | states |
|---|---|---|
| `Validation.ValidateNewProject` | server/openshift/project.go:80-90 | validation succeeds exactly when the name is non-empty and, unless it is a test project, the billing code is non-empty; an empty name gives the name error whatever the billing code, otherwise a failure is the billing error |
| `Validation.ValidateBillingInformation` | server/openshift/project.go:92-107 | an empty project gives the name error, then an empty billing code gives the billing error, and only with both present the result is exactly the permission check's result for (username, project) |
| `Validation.FieldChecksPrecedePermission` | server/openshift/project.go:92-104 | while a field is missing the billing validation fails, and its verdict does not depend on the permission check at all |
| `Validation.TestProjectCommand` | server/openshift/project.go:42-50 | the derived test-project inputs are the user name, a dash and the project name, the fixed billing code and an empty MEGAID, and they always pass validation (with or without the test-project flag) |
| `Ascii.ToLower` | server/openshift/project.go:158 | the result spells the input up to letter case and has no upper-case letter |
| `Ascii.ToUpper` | server/openshift/project.go:159 | the result spells the input up to letter case and has no lower-case letter |
| `Permissions.GrantAdmin` | server/openshift/project.go:156-161 | the grant keeps the number of role bindings |
| `Permissions.GrantAdminAt` | server/openshift/project.go:156-161 | the binding at each position after the grant is the grant applied to the binding at that position before it |
| `Permissions.GrantAdminEffect` | server/openshift/project.go:156-161 | after the grant the bindings keep their number, order, names and subjects; non-admin bindings are unchanged; each admin binding's user names are its old list followed by the lower-case then the upper-case user name |
| `Permissions.GrantedNamesMatchUser` | server/openshift/project.go:157-160 | an admin binding gains exactly two user names, and both spell the requester's name up to letter case |
| `Permissions.AppendAdminUsers` | server/openshift/project.go:156-161 | the in-place loop over the role-binding array leaves it equal to the grant applied to its old contents |
| `Permissions.GrantOutcome` | server/openshift/project.go:143-184 | the grant succeeds exactly when a role-binding array was read and the write answered 200, or when the read gave neither document nor error; a missing document returns the read's own error; every other failure (unparsable role bindings, transport error, other status) is the generic API error |
| `Permissions.ChangeProjectPermission` | server/openshift/project.go:143-184 | returns the grant outcome; issues the read, then a write of the whole granted role-binding list only when the role bindings parsed |
| `Metadata.MergeAnnotations` | server/openshift/project.go:202-208 | after the merge the billing-code key holds the billing code and the requester key the user name; MEGAID holds a non-empty id, and with an empty id keeps its old value or stays absent; the key set grows by exactly the keys set; every other annotation is unchanged |
| `Metadata.MergeIdempotent` | server/openshift/project.go:202-208 | merging twice with the same billing code, MEGAID and user name gives the annotations of merging once |
| `Metadata.BillingUpdateKeepsMegaId` | server/openshift/project.go:70 | a merge with the empty MEGAID the billing update passes neither adds, removes nor changes the MEGAID annotation |
| `Metadata.NamespaceDocument.Set` | server/openshift/project.go:203-207 | setting an annotation in place leaves the annotations equal to the old ones with that key bound to the value |
| `Metadata.NamespaceDocument.Stamp` | server/openshift/project.go:202-208 | the in-place sets leave the document's annotations equal to the merge of the old annotations |
| `Metadata.StampOutcome` | server/openshift/project.go:186-226 | the metadata step succeeds exactly when the namespace was read and parsed and the write answered 200; every failure is the generic API error |
| `Metadata.CreateOrUpdateMetadata` | server/openshift/project.go:186-226 | returns the metadata outcome; issues the read, then a write of the merged annotations only when the namespace document parsed |
| `Provisioning.CreateError` | server/openshift/project.go:133-140 | a create request that did not answer 201 gives the "already exists" error exactly on 409, and the generic API error otherwise |
| `Provisioning.CreateNewProject` | server/openshift/project.go:109-141 | requests go create, then grant, then metadata, and metadata is attempted exactly after a 201 and a successful grant; success exactly when the stage reached is Provisioned; without 201 nothing is created and the error is the create error; after 201 the stage never falls back to NotExists; a failed grant is returned as it is at stage Created; after a granted admin the result is the metadata outcome, at stage Provisioned or AdminGranted |
| `Provisioning.ProvisionOutcome` | server/openshift/project.go:121-140 | a run succeeds exactly when the create request answered 201, the grant succeeded and the metadata step succeeded; without 201 the result is the create error |
| `Provisioning.ProvisionStage` | server/openshift/project.go:121-140 | a run ends at Provisioned exactly when it succeeds, and at NotExists exactly when the create request did not answer 201 |
| `Provisioning.ConflictMessage` | server/openshift/project.go:133-140 | a 409 answer is reported with the text "Das Projekt existiert bereits"; every other non-201 answer is reported with the generic API error text |
| `Provisioning.NewProject` | server/openshift/project.go:20-30 | a validation error is returned with no request issued; otherwise the outcome, stage and requests are exactly those of the provisioning run for the given inputs, so the create request comes first and a 409 gives the "already exists" error |
| `Provisioning.NewTestProject` | server/openshift/project.go:40-54 | a validation error never occurs; the outcome, stage and requests are exactly those of the provisioning run for the derived name, the fixed billing code and an empty MEGAID, so the create request for the derived name is always issued and any annotations written are the merge with the fixed billing code and an empty MEGAID |
| `Provisioning.UpdateBilling` | server/openshift/project.go:64-74 | a missing field is returned with no request issued; with both fields present the permission check is called first, and its failure is returned with no further request; otherwise the result and the remaining requests are those of the metadata step with an empty MEGAID, and any annotations written carry the new billing code and the MEGAID annotation exactly as read |

## Left out

- The Gin handlers' request binding, HTTP response codes and response messages (lines 16-78) are left out. What the model keeps from them is the order of the steps: "validate, then create" for new projects and test projects, with the test-project inputs, and "validate, then metadata with an empty MEGAID" for the billing update.
- The HTTP client, request bodies, reading and closing response bodies, JSON parsing and serialisation, and all logging. Each remote answer is an input value.
- `getPolicyBindings` and `checkAdminPermissions` are defined outside `project.go`. They are not part of this model: their results are inputs. Each call of them appears in the request list as one request, not as the reads it makes.
- The nil-response dereferences after a transport error (lines 116-121 and 214-216) would crash the Go code. The model treats such a transport error as a generic API error instead of modelling the crash.
- The failed type assertion on a role binding whose `name` is not a string (line 157) would also crash. Every modelled role binding has a string name.
- A namespace document without a `metadata.annotations` object is not modelled. The model assumes that object exists.
- A `roleBindings` value that is a JSON object rather than an array is not modelled. The code would walk the object's values in Go's unordered map order. The model reads `roleBindings` as an ordered list, and gives the generic API error only when `roleBindings` is neither an array nor an object.
- The rest of the policy-binding and namespace documents is not modelled. Only the role-binding list and the annotations are modelled, and the model writes them back whole.
- Ascii.ToLower: maps only the ASCII letters, not the full Unicode case mapping of Go's `strings.ToLower`.
- Ascii.ToUpper: maps only the ASCII letters, not the full Unicode case mapping of Go's `strings.ToUpper`.
- The text of the generic API error is defined outside `project.go`. `Api.Message` takes it as a parameter.
- Concurrent requests on the same project (last write wins at the platform) are not modelled.
