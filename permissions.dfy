/** Granting the requester admin rights on a new project (changeProjectPermission): every role
    binding named "admin" gets the lower-case and then the upper-case form of the user name
    appended to its user names, and the whole role-binding list is written back. */
module Permissions {
  import opened Api
  import opened Ascii

  const AdminRole := "admin"

  /** The grant as it applies to one role binding. */
  function Granted(b: RoleBinding, username: string): RoleBinding
  {
    if b.name == AdminRole then b.(userNames := b.userNames + [ToLower(username), ToUpper(username)])
    else b
  }

  /** The grant applied to every role binding of the document. */
  function GrantAdmin(bindings: seq<RoleBinding>, username: string): (r: seq<RoleBinding>)
    ensures |r| == |bindings|
  {
    if bindings == [] then [] else [Granted(bindings[0], username)] + GrantAdmin(bindings[1..], username)
  }

  lemma {:induction false} GrantAdminAt(bindings: seq<RoleBinding>, username: string, i: nat)
    requires i < |bindings|
    ensures GrantAdmin(bindings, username)[i] == Granted(bindings[i], username)
  {
    if i > 0 {
      GrantAdminAt(bindings[1..], username, i - 1);
    }
  }

  /** What the grant changes and what it keeps: the number and order of bindings, every
      binding's name and subjects, every non-admin binding whole; an admin binding's user
      names gain exactly the two case forms of the user name, lower case first. */
  lemma {:induction false} GrantAdminEffect(bindings: seq<RoleBinding>, username: string)
    ensures |GrantAdmin(bindings, username)| == |bindings|
    ensures forall i :: 0 <= i < |bindings| ==>
              GrantAdmin(bindings, username)[i].name == bindings[i].name &&
              GrantAdmin(bindings, username)[i].subjects == bindings[i].subjects
    ensures forall i :: 0 <= i < |bindings| && bindings[i].name == AdminRole ==>
              GrantAdmin(bindings, username)[i].userNames
                == bindings[i].userNames + [ToLower(username), ToUpper(username)]
    ensures forall i :: 0 <= i < |bindings| && bindings[i].name != AdminRole ==>
              GrantAdmin(bindings, username)[i] == bindings[i]
  {
    forall i | 0 <= i < |bindings|
      ensures GrantAdmin(bindings, username)[i] == Granted(bindings[i], username)
    {
      GrantAdminAt(bindings, username, i);
    }
  }

  /** Both names the grant adds spell the requester's name up to letter case. */
  lemma GrantedNamesMatchUser(bindings: seq<RoleBinding>, username: string, i: nat)
    requires i < |bindings| && bindings[i].name == AdminRole
    ensures var names := GrantAdmin(bindings, username)[i].userNames;
            |names| == |bindings[i].userNames| + 2 &&
            SameIgnoringCase(names[|names| - 2], username) &&
            SameIgnoringCase(names[|names| - 1], username)
  {
    GrantAdminAt(bindings, username, i);
  }

  /** The loop over the `roleBindings` children, appending in place. */
  method AppendAdminUsers(children: array<RoleBinding>, username: string)
    modifies children
    ensures children[..] == GrantAdmin(old(children[..]), username)
  {
    for i := 0 to children.Length
      invariant forall k :: 0 <= k < i ==> children[k] == Granted(old(children[k]), username)
      invariant forall k :: i <= k < children.Length ==> children[k] == old(children[k])
    {
      if children[i].name == AdminRole {
        children[i] := children[i].(userNames := children[i].userNames + [ToLower(username)]);
        children[i] := children[i].(userNames := children[i].userNames + [ToUpper(username)]);
      }
    }
    ghost var before := old(children[..]);
    forall k | 0 <= k < children.Length
      ensures children[..][k] == GrantAdmin(before, username)[k]
    {
      GrantAdminAt(before, username, k);
    }
  }

  /** What the helper reading the policy-binding document produced: a document whose
      `roleBindings` is an array, a document whose `roleBindings` is neither an array nor an
      object, or no document, with or without an error message. */
  datatype PolicyFetch =
    | Fetched(roleBindings: seq<RoleBinding>)
    | NotAnArrayOrObject
    | NoDocument(err: Option<string>)

  /** The result of changeProjectPermission, given what the fetch and the PUT gave back.
      Without a document the helper's error is returned as it is, and no error means success. */
  function GrantOutcome(fetch: PolicyFetch, put: Reply): (r: Outcome)
    ensures r.Ok? <==> (fetch.Fetched? && put == Status(StatusOK)) || fetch == NoDocument(None)
    ensures r.Fail? && fetch.NoDocument? ==> r.error == Upstream(fetch.err.value)
    ensures r.Fail? && !fetch.NoDocument? ==> r.error == GenericApiError
  {
    match fetch
    case NoDocument(err) => if err.Some? then Fail(Upstream(err.value)) else Ok
    case NotAnArrayOrObject => Fail(GenericApiError)
    case Fetched(_) => if put == Status(StatusOK) then Ok else Fail(GenericApiError)
  }

  /** The requests changeProjectPermission issues: the fetch, then the PUT of the granted
      document only when there is a role-binding array to grant on. */
  function GrantRequests(project: string, username: string, fetch: PolicyFetch): (r: seq<Request>)
  {
    if fetch.Fetched? then
      [FetchPolicyBindings(project), PutPolicyBindings(project, GrantAdmin(fetch.roleBindings, username))]
    else
      [FetchPolicyBindings(project)]
  }

  method ChangeProjectPermission(project: string, username: string, fetch: PolicyFetch, put: Reply)
    returns (out: Outcome, calls: seq<Request>)
    ensures out == GrantOutcome(fetch, put)
    ensures calls == GrantRequests(project, username, fetch)
  {
    calls := [FetchPolicyBindings(project)];
    match fetch {
      case NoDocument(err) =>
        out := if err.Some? then Fail(Upstream(err.value)) else Ok;
        return;
      case NotAnArrayOrObject =>
        out := Fail(GenericApiError);
        return;
      case Fetched(bindings) =>
        var children := new RoleBinding[|bindings|](i requires 0 <= i < |bindings| => bindings[i]);
        assert children[..] == bindings;
        AppendAdminUsers(children, username);
        calls := calls + [PutPolicyBindings(project, children[..])];
        if put == Status(StatusOK) {
          out := Ok;
        } else {
          out := Fail(GenericApiError);
        }
    }
  }
}
