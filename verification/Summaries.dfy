/** What the summaries of the findings tell, whatever their wording: which container, how many replicas or
    endpoints, how long ago. */
module Summaries {
  import opened Sequences
  import opened Model
  import opened Pods
  import opened PodRules
  import Deployments
  import DeploymentVerdict
  import Services
  import StatefulSets
  import Ordinals
  import StableSort
  import Names

  // ---- Containers ----

  function Which(c: Container): seq<Arg> {
    [Kind(c.init, c.sidecar), Text(c.name)]
  }

  /** Kills, crash loops and pull failures name the container. */
  predicate TellsWhich(env: Env, c: Container, d: Diagnosis) {
    || (d.id == PodOOMKilled && d.summary == env.say(PodOOMKilled, 0, Which(c)))
    || (d.id == PodImagePullFailed && d.summary == env.say(PodImagePullFailed, 0, Which(c)))
    || ((d.id == PodCrashLoop || d.id == PodInitContainerFailed) && d.summary == env.say(PodCrashLoop, 0, Which(c)))
  }

  /** The end of a container is told with its exit code, and whether a restart is still to come. */
  predicate TellsEnd(env: Env, snap: PodSnap, c: Container, d: Diagnosis) {
    && (d.id == PodContainerTerminatedError || d.id == PodInitContainerFailed)
    && c.status.Some? && c.status.value.terminated.Some?
    && d.summary == env.say(PodContainerTerminatedError, if snap.pod.phase != Failed && snap.pod.restartPolicy != Never then 1 else 0,
                            Which(c) + [Number(c.status.value.terminated.value.exitCode)])
  }

  /** Past restarts are told with their number and, if known, how long ago the last run ended. */
  predicate TellsRestarts(env: Env, snap: PodSnap, c: Container, d: Diagnosis) {
    && d.id == PodRestarted && c.status.Some?
    && var told := Which(c) + [Number(c.status.value.restartCount)];
       d.summary == match c.status.value.lastTerminated
                    case None => env.say(PodRestarted, 0, told)
                    case Some(t) => env.say(PodRestarted, 1, told + [Age(snap.now - t.finishedAt)])
  }

  ghost predicate Tells(env: Env, snap: PodSnap, c: Container, d: Diagnosis) {
    d.component == c.name && (TellsWhich(env, c, d) || TellsEnd(env, snap, c, d) || TellsRestarts(env, snap, c, d))
  }

  lemma NamingTells(env: Env, snap: PodSnap, c: Container, d: Diagnosis)
    requires d in OOMOf(env, snap)(c) || d in CrashOf(env, snap)(c) || d in ImagePullOf(env, snap)(c)
    ensures Tells(env, snap, c, d)
  {
    assert TellsWhich(env, c, d);
  }

  lemma EndTells(env: Env, snap: PodSnap, c: Container, d: Diagnosis)
    requires d in EndedOf(env, snap)(c)
    ensures Tells(env, snap, c, d)
  {
    assert TellsEnd(env, snap, c, d);
  }

  lemma RestartTells(env: Env, snap: PodSnap, c: Container, d: Diagnosis)
    requires d in RestartOf(env, snap)(c)
    ensures Tells(env, snap, c, d)
  {
    assert TellsRestarts(env, snap, c, d);
  }

  lemma FromContainer(f: Container -> seq<Diagnosis>, snap: PodSnap, d: Diagnosis) returns (c: Container)
    requires d in FlatMap(f, Containers(snap.pod))
    ensures c in Containers(snap.pod) && d in f(c)
  {
    var cs := Containers(snap.pod);
    InFlatMap(f, cs, d);
    var i :| 0 <= i < |cs| && d in f(cs[i]);
    c := cs[i];
  }

  /** What the five rules about containers say is told of a container of the Pod, by its own status. */
  lemma ContainerSummary(env: Env, snap: PodSnap, d: Diagnosis) returns (c: Container)
    requires || d in OOMRule(env, snap) || d in CrashRule(env, snap) || d in ImagePullRule(env, snap) || d in RestartRule(env, snap)
             || (d in EndedRule(env, snap) && d !in Evictions(env, snap))
    ensures c in Containers(snap.pod) && Tells(env, snap, c, d)
  {
    if d in OOMRule(env, snap) {
      c := FromContainer(OOMOf(env, snap), snap, d);
      NamingTells(env, snap, c, d);
    } else if d in CrashRule(env, snap) {
      c := FromContainer(CrashOf(env, snap), snap, d);
      NamingTells(env, snap, c, d);
    } else if d in ImagePullRule(env, snap) {
      c := FromContainer(ImagePullOf(env, snap), snap, d);
      NamingTells(env, snap, c, d);
    } else if d in RestartRule(env, snap) {
      c := FromContainer(RestartOf(env, snap), snap, d);
      RestartTells(env, snap, c, d);
    } else {
      c := FromContainer(EndedOf(env, snap), snap, d);
      EndTells(env, snap, c, d);
    }
  }

  // ---- Counts of replicas and endpoints ----

  lemma OtherDeploymentFindings(say: Wording, snap: Deployments.DeploymentSnap, d: Diagnosis)
    requires d in Deployments.IntentRule(say, snap) || d in Deployments.ConditionRule(say, snap)
    ensures d.id != DeploymentUnavailableReplicas
  {
  }

  /** Available replicas of those wanted. */
  lemma DeploymentSummary(say: Wording, snap: Deployments.DeploymentSnap, d: Diagnosis)
    requires d in Deployments.DeploymentFindings(say, snap) && d.id == DeploymentUnavailableReplicas
    ensures d.summary == say(DeploymentUnavailableReplicas, 0, [Number(snap.deployment.available), Number(DeploymentVerdict.Wanted(snap.deployment))])
  {
    Deployments.InDeploymentFindings(say, snap, d);
    if d !in Deployments.AvailabilityRule(say, snap) {
      OtherDeploymentFindings(say, snap, d);
    }
  }

  function CountUnready(s: seq<Services.Endpoint>): int {
    if s == [] then 0 else CountUnready(Front(s)) + if Last(s).ready then 0 else 1
  }

  lemma {:induction false} UnreadyCount(s: seq<Services.Endpoint>)
    ensures |s| - |Filter(Services.IsReady, s)| == CountUnready(s)
  {
    if s != [] {
      UnreadyCount(Front(s));
    }
  }

  /** Unready endpoints of all. */
  lemma EndpointsSummary(say: Wording, snap: Services.ServiceSnap, d: Diagnosis)
    requires d in Services.EndpointsRule(say, snap) && d.id == ServiceSomeEndpointsNotReady
    ensures d.summary == say(ServiceSomeEndpointsNotReady, 0, [Number(CountUnready(snap.endpoints.addresses)), Number(|snap.endpoints.addresses|)])
  {
    UnreadyCount(snap.endpoints.addresses);
  }

  lemma AboutOneClaim(say: Wording, snap: StatefulSets.SetSnap, name: string, d: Diagnosis)
    requires d in StatefulSets.SetClaimFindings(say, snap, name)
    ensures d.id == StatefulSetClaimNotFound || d.id == StatefulSetClaimNotBound
  {
  }

  lemma ClaimFinding(say: Wording, snap: StatefulSets.SetSnap, order: seq<string>, d: Diagnosis)
    requires d in StatefulSets.SetClaimRule(say, snap, order)
    ensures d.id == StatefulSetClaimNotFound || d.id == StatefulSetClaimNotBound
  {
    var f, names := StatefulSets.SetClaimOf(say, snap), StableSort.Sort(Names.ByName(), order);
    InFlatMap(f, names, d);
    var i :| 0 <= i < |names| && d in f(names[i]);
    AboutOneClaim(say, snap, names[i], d);
  }

  lemma OtherSetFinding(say: Wording, snap: StatefulSets.SetSnap, d: Diagnosis)
    requires d in StatefulSets.ServiceRule(say, snap) || d in StatefulSets.UpdateRule(say, snap)
    ensures d.id != StatefulSetUnavailableReplicas && d.id != StatefulSetOrderedRolloutBlocked
  {
  }

  /** Ready replicas of those wanted; the lowest unready replica, and how many wait behind it. */
  lemma SetSummary(say: Wording, snap: StatefulSets.SetSnap, order: seq<string>, d: Diagnosis)
    requires d in StatefulSets.SetFindings(say, snap, order)
    ensures d.id == StatefulSetUnavailableReplicas ==>
              var wanted := match snap.sts.replicas case None => 1 case Some(n) => n;
              d.summary == say(StatefulSetUnavailableReplicas, 0, [Number(snap.sts.readyReplicas), Number(wanted)])
    ensures d.id == StatefulSetOrderedRolloutBlocked ==>
              var waiting := |Ordinals.MissingOrdinals(StatefulSets.PodsIn(snap), snap.sts.Desired())|;
              waiting > 0 && d.summary == say(StatefulSetOrderedRolloutBlocked, 0, [Text(d.component), Number(waiting)])
  {
    StatefulSets.InSetFindings(say, snap, order, d);
    if d in StatefulSets.SetClaimRule(say, snap, order) {
      ClaimFinding(say, snap, order, d);
    } else if d in StatefulSets.ServiceRule(say, snap) || d in StatefulSets.UpdateRule(say, snap) {
      OtherSetFinding(say, snap, d);
    }
  }
}
