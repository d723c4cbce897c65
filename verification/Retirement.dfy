/** How the retirements that an endpoint asks for fare at the server. */
module Retirement {
  import opened Results
  import opened Protocol
  import opened Mailbox

  /** The request that both kinds of local retirement prepare: the current bundle, unchanged. */
  function PreparedRetirement(bundle: Bundle, emergency: bool): Registration {
    Registration(Some(bundle.bundleRevision), 1, Lifecycle.Retired, bundle, emergency)
  }

  /**
    The server takes a retirement only under the next revision, so the prepared
    request is refused by every server, in every state of its tables.
  */
  lemma PreparedRetirementIsRefused(s: Tables, id: int, key: B32, bundle: Bundle, emergency: bool, at: Moment)
    ensures Register(s, id, key, PreparedRetirement(bundle, emergency), at).1.Err?
    ensures at.now <= MAX_NUMBER ==> Register(s, id, key, PreparedRetirement(bundle, emergency), at).0 == Swept(s, at.now)
  {
    hide ServiceReady, Swept, Terminated, WithBundle;
  }

  /**
    Exactly when a retirement of the caller's own current bundle is taken: the caller
    is in good standing, the request counts the revision on, and nothing is active
    unless it is an emergency.
  */
  lemma RetirementIsTakenExactlyWhen(s: Tables, id: int, key: B32, request: Registration, at: Moment)
    requires request.lifecycle == Lifecycle.Retired && id in s.bundles
    requires s.bundles[id].lifecycle == Lifecycle.Enabled && request.expectedRevision == Some(s.bundles[id].bundle.bundleRevision)
    requires ServiceReady(s) && Caller(s, id, key).Ok? && !s.directory.peers[id].isServer && at.keysValid
    requires request.pqVersion == 1 && key == request.bundle.wgPublicKey
    ensures RegisterInner(s, id, key, request, at).Ok?
            <==> request.bundle == s.bundles[id].bundle.(bundleRevision := request.bundle.bundleRevision)
                 && request.bundle.bundleRevision == s.bundles[id].bundle.bundleRevision + 1
                 && (request.emergency || !ActiveInvolving(s, id))
  {
    hide ServiceReady, Caller, Terminated, WithBundle, ActiveInvolving;
  }
}
