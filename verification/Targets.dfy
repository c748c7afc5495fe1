/** The identity of what is observed: registered profile, Deployment and Service. */
module Targets {
  import opened Wrappers

  datatype Identity = Identity(digest: Option<string>, deploymentUid: Option<string>, generation: Option<int>,
                               serviceUid: Option<string>, selector: Option<map<string, string>>, ports: Option<string>)

  datatype Health = Healthy | Faulty | Unclear

  datatype ServiceFacts = ServiceFacts(uid: Option<string>, selector: Option<map<string, string>>,
                                       ports: Option<string>)

  /** One fresh read: the profile fields and the services collected without an error. */
  datatype TargetRead = TargetRead(health: Health, matched: bool, digest: Option<string>, deploymentUid: Option<string>,
                                   generation: Option<int>, services: seq<ServiceFacts>)

  /** What a read shows of the identity, complete or not (runtime/delayed_rechecks.py:15-20). */
  function Shown(o: TargetRead): (i: Identity) {
    if |o.services| == 1
    then Identity(o.digest, o.deploymentUid, o.generation, o.services[0].uid, o.services[0].selector,
                      o.services[0].ports)
    else Identity(o.digest, o.deploymentUid, o.generation, None, None, None)
  }

  /** agent/observation.py:16-23: a complete identity or none. */
  function Bound(o: TargetRead): (i: Option<Identity>) {
    var i := Shown(o);
    if o.matched && |o.services| == 1 && Complete(i) then Some(i) else None
  }

  predicate Complete(i: Identity) {
    && i.digest.Some? && i.deploymentUid.Some? && i.generation.Some? && i.serviceUid.Some? && i.selector.Some?
       && i.ports.Some?
    && i.deploymentUid.value != "" && i.serviceUid.value != ""
  }
}
