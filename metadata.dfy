/** Stamping billing and ownership annotations onto a namespace (createOrUpdateMetadata): the
    namespace document is read, its annotations are set in place, and the document is written
    back. */
module Metadata {
  import opened Api

  const KontierungKey := "openshift.io/kontierung-element"
  const RequesterKey := "openshift.io/requester"
  const MegaIdKey := "openshift.io/MEGAID"

  /** The annotations after the merge: billing code and requester always set, MEGAID set only
      for a non-empty id, every other annotation as it was. */
  function MergeAnnotations(a: Annotations, billing: string, megaId: string, username: string)
    : (r: Annotations)
    ensures KontierungKey in r && r[KontierungKey] == billing
    ensures RequesterKey in r && r[RequesterKey] == username
    ensures |megaId| > 0 ==> MegaIdKey in r && r[MegaIdKey] == megaId
    ensures |megaId| == 0 ==> (MegaIdKey in r <==> MegaIdKey in a)
    ensures |megaId| == 0 && MegaIdKey in a ==> r[MegaIdKey] == a[MegaIdKey]
    ensures r.Keys == a.Keys + {KontierungKey, RequesterKey} + (if |megaId| > 0 then {MegaIdKey} else {})
    ensures forall k :: k in a && k != KontierungKey && k != RequesterKey && k != MegaIdKey ==> r[k] == a[k]
  {
    var stamped := a[KontierungKey := billing][RequesterKey := username];
    if |megaId| > 0 then stamped[MegaIdKey := megaId] else stamped
  }

  /** Merging twice with the same inputs gives what merging once gives. */
  lemma MergeIdempotent(a: Annotations, billing: string, megaId: string, username: string)
    ensures MergeAnnotations(MergeAnnotations(a, billing, megaId, username), billing, megaId, username)
         == MergeAnnotations(a, billing, megaId, username)
  {
  }

  /** The billing-update path merges with an empty MEGAID: it never adds, removes or changes
      the MEGAID annotation. */
  lemma BillingUpdateKeepsMegaId(a: Annotations, billing: string, username: string)
    ensures MegaIdKey in MergeAnnotations(a, billing, "", username) <==> MegaIdKey in a
    ensures MegaIdKey in a ==> MergeAnnotations(a, billing, "", username)[MegaIdKey] == a[MegaIdKey]
  {
  }

  /** The parsed namespace document whose annotations object is updated in place. */
  class NamespaceDocument {
    var annotations: Annotations

    constructor (annotations: Annotations)
      ensures this.annotations == annotations
    {
      this.annotations := annotations;
    }

    /** Set one annotation. */
    method Set(value: string, key: string)
      modifies this
      ensures annotations == old(annotations)[key := value]
    {
      annotations := annotations[key := value];
    }

    method Stamp(billing: string, megaId: string, username: string)
      modifies this
      ensures annotations == MergeAnnotations(old(annotations), billing, megaId, username)
    {
      Set(billing, KontierungKey);
      Set(username, RequesterKey);
      if |megaId| > 0 {
        Set(megaId, MegaIdKey);
      }
    }
  }

  /** What reading the namespace gave: no response, a body that is not JSON, or a document.
      The status of the read is not inspected. */
  datatype NamespaceFetch =
    | NamespaceTransportError
    | NamespaceUnparsable
    | NamespaceFetched(annotations: Annotations)

  /** The result of createOrUpdateMetadata: success exactly when the document was read and the
      write answered 200; every failure is the generic API error. */
  function StampOutcome(get: NamespaceFetch, put: Reply): (r: Outcome)
    ensures r.Ok? <==> get.NamespaceFetched? && put == Status(StatusOK)
    ensures r.Fail? ==> r.error == GenericApiError
  {
    if get.NamespaceFetched? && put == Status(StatusOK) then Ok else Fail(GenericApiError)
  }

  /** The requests createOrUpdateMetadata issues: the read, then the write of the merged
      annotations when there is a document to merge into. */
  function StampRequests(project: string, billing: string, megaId: string, username: string,
                         get: NamespaceFetch): seq<Request>
  {
    if get.NamespaceFetched? then
      [GetNamespace(project), PutNamespace(project, MergeAnnotations(get.annotations, billing, megaId, username))]
    else
      [GetNamespace(project)]
  }

  method CreateOrUpdateMetadata(project: string, billing: string, megaId: string, username: string,
                                get: NamespaceFetch, put: Reply)
    returns (out: Outcome, calls: seq<Request>)
    ensures out == StampOutcome(get, put)
    ensures calls == StampRequests(project, billing, megaId, username, get)
  {
    calls := [GetNamespace(project)];
    if !get.NamespaceFetched? {
      out := Fail(GenericApiError);
      return;
    }
    var document := new NamespaceDocument(get.annotations);
    document.Stamp(billing, megaId, username);
    calls := calls + [PutNamespace(project, document.annotations)];
    if put == Status(StatusOK) {
      out := Ok;
    } else {
      out := Fail(GenericApiError);
    }
  }
}
