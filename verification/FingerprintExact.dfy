/** The normal form is itself made of defaulting steps, so the fingerprint forgets exactly those. */
module FingerprintExact {
  import opened Common
  import opened Ordering
  import opened PodFingerprint

  function ContainerSteps(c: Container, steps: seq<ContainerStep>): Container
    decreases |steps|
  {
    if steps == [] then c else ContainerSteps(StepContainer(c, steps[0]), steps[1..])
  }

  ghost predicate ContainerReaches(c: Container, d: Container) {
    exists steps :: ContainerSteps(c, steps) == d
  }

  ghost predicate Reaches(p: PodSpec, q: PodSpec) {
    exists steps :: Steps(p, steps) == q
  }

  lemma {:induction false} ContainerStepsConcat(c: Container, a: seq<ContainerStep>, b: seq<ContainerStep>)
    ensures ContainerSteps(c, a + b) == ContainerSteps(ContainerSteps(c, a), b)
    decreases |a|
  {
    if a == [] {
      assert a + b == b;
    } else {
      assert (a + b)[1..] == a[1..] + b;
      ContainerStepsConcat(StepContainer(c, a[0]), a[1..], b);
    }
  }

  lemma {:induction false} StepsConcat(p: PodSpec, a: seq<SpecStep>, b: seq<SpecStep>)
    ensures Steps(p, a + b) == Steps(Steps(p, a), b)
    decreases |a|
  {
    if a == [] {
      assert a + b == b;
    } else {
      assert (a + b)[1..] == a[1..] + b;
      StepsConcat(StepSpec(p, a[0]), a[1..], b);
    }
  }

  lemma {:induction false} ContainerThen(c: Container, d: Container, s: ContainerStep)
    requires ContainerReaches(c, d)
    ensures ContainerReaches(c, StepContainer(d, s))
  {
    var a :| ContainerSteps(c, a) == d;
    ContainerStepsConcat(c, a, [s]);
    assert ContainerSteps(StepContainer(d, s), [s][1..]) == StepContainer(d, s);
  }

  lemma {:induction false} Then(p: PodSpec, q: PodSpec, s: SpecStep)
    requires Reaches(p, q)
    ensures Reaches(p, StepSpec(q, s))
  {
    var a :| Steps(p, a) == q;
    StepsConcat(p, a, [s]);
    assert Steps(StepSpec(q, s), [s][1..]) == StepSpec(q, s);
  }

  lemma {:induction false} ContainerSelf(c: Container)
    ensures ContainerReaches(c, c)
  {
    assert ContainerSteps(c, []) == c;
  }

  lemma {:induction false} Self(p: PodSpec)
    ensures Reaches(p, p)
  {
    assert Steps(p, []) == p;
  }

  /** Filling in the requests of the named limits, in any order. */
  lemma {:induction false} RequestsReached(c: Container, d: Container, missing: set<string>)
    requires ContainerReaches(c, d) && missing == d.limits.Keys - d.requests.Keys
    ensures ContainerReaches(c, d.(requests := NormalRequests(d)))
    decreases missing
  {
    if missing == {} {
      forall k | k in d.limits ensures k in d.requests {
        assert k !in d.limits.Keys - d.requests.Keys;
      }
      assert NormalRequests(d) == d.requests;
    } else {
      var name :| name in missing;
      var e := StepContainer(d, DefaultRequest(name));
      ContainerThen(c, d, DefaultRequest(name));
      RequestsReached(c, e, missing - {name});
      assert NormalRequests(e) == NormalRequests(d);
    }
  }

  lemma {:induction false} EnvReached(c: Container, d: Container, j: nat)
    requires ContainerReaches(c, d) && j <= |d.env| && forall k :: 0 <= k < j ==> d.env[k] == NormalEnv(d.env[k])
    ensures ContainerReaches(c, d.(env := Apply(NormalEnv, d.env)))
    decreases |d.env| - j
  {
    if j == |d.env| {
      assert Apply(NormalEnv, d.env) == d.env;
    } else {
      var e := StepContainer(d, DefaultFieldVersion(j));
      var f := StepContainer(e, DefaultDivisor(j));
      ContainerThen(c, d, DefaultFieldVersion(j));
      ContainerThen(c, e, DefaultDivisor(j));
      assert f == d.(env := d.env[j := NormalEnv(d.env[j])]);
      EnvReached(c, f, j + 1);
      assert Apply(NormalEnv, f.env) == Apply(NormalEnv, d.env);
    }
  }

  lemma {:induction false} PortsReached(c: Container, d: Container, j: nat)
    requires ContainerReaches(c, d) && j <= |d.ports| && forall k :: 0 <= k < j ==> d.ports[k] == NormalPort(d.ports[k])
    ensures ContainerReaches(c, d.(ports := Apply(NormalPort, d.ports)))
    decreases |d.ports| - j
  {
    if j == |d.ports| {
      assert Apply(NormalPort, d.ports) == d.ports;
    } else {
      var e := StepContainer(d, DefaultProtocol(j));
      ContainerThen(c, d, DefaultProtocol(j));
      PortsReached(c, e, j + 1);
      assert Apply(NormalPort, e.ports) == Apply(NormalPort, d.ports);
    }
  }

  lemma {:induction false} ProbeReached(c: Container, d: Container, n: ProbeName) returns (e: Container)
    requires ContainerReaches(c, d)
    ensures ContainerReaches(c, e)
    ensures match n
      case Readiness => e == d.(readiness := NormalProbe(d.readiness))
      case Liveness => e == d.(liveness := NormalProbe(d.liveness))
      case Startup => e == d.(startup := NormalProbe(d.startup))
  {
    e := d;
    ContainerThen(c, e, DefaultProbe(n, Timeout));
    e := StepContainer(e, DefaultProbe(n, Timeout));
    ContainerThen(c, e, DefaultProbe(n, Period));
    e := StepContainer(e, DefaultProbe(n, Period));
    ContainerThen(c, e, DefaultProbe(n, Success));
    e := StepContainer(e, DefaultProbe(n, Success));
    ContainerThen(c, e, DefaultProbe(n, Failure));
    e := StepContainer(e, DefaultProbe(n, Failure));
  }

  lemma {:induction false} ContainerNormalReached(c: Container)
    ensures ContainerReaches(c, NormalContainer(c))
  {
    ContainerSelf(c);
    RequestsReached(c, c, c.limits.Keys - c.requests.Keys);
    var d := c.(requests := NormalRequests(c));
    EnvReached(c, d, 0);
    d := d.(env := Apply(NormalEnv, d.env));
    PortsReached(c, d, 0);
    d := d.(ports := Apply(NormalPort, d.ports));
    ContainerThen(c, d, DefaultMessagePath);
    d := StepContainer(d, DefaultMessagePath);
    ContainerThen(c, d, DefaultMessagePolicy);
    d := StepContainer(d, DefaultMessagePolicy);
    d := ProbeReached(c, d, Readiness);
    d := ProbeReached(c, d, Liveness);
    d := ProbeReached(c, d, Startup);
    assert d == NormalContainer(c);
  }

  /** A container's steps, taken inside a specification. */
  lemma {:induction false} InContainer(p: PodSpec, q: PodSpec, i: nat, steps: seq<ContainerStep>)
    requires Reaches(p, q) && i < |q.containers|
    ensures Reaches(p, q.(containers := q.containers[i := ContainerSteps(q.containers[i], steps)]))
    decreases |steps|
  {
    if steps == [] {
      assert q.(containers := q.containers[i := q.containers[i]]) == q;
    } else {
      var r := StepSpec(q, OnContainer(i, steps[0]));
      Then(p, q, OnContainer(i, steps[0]));
      InContainer(p, r, i, steps[1..]);
      assert r.containers[i := ContainerSteps(r.containers[i], steps[1..])] == q.containers[i := ContainerSteps(q.containers[i], steps)];
    }
  }

  lemma {:induction false} InInit(p: PodSpec, q: PodSpec, i: nat, steps: seq<ContainerStep>)
    requires Reaches(p, q) && i < |q.initContainers|
    ensures Reaches(p, q.(initContainers := q.initContainers[i := ContainerSteps(q.initContainers[i], steps)]))
    decreases |steps|
  {
    if steps == [] {
      assert q.(initContainers := q.initContainers[i := q.initContainers[i]]) == q;
    } else {
      var r := StepSpec(q, OnInit(i, steps[0]));
      Then(p, q, OnInit(i, steps[0]));
      InInit(p, r, i, steps[1..]);
      assert r.initContainers[i := ContainerSteps(r.initContainers[i], steps[1..])] == q.initContainers[i := ContainerSteps(q.initContainers[i], steps)];
    }
  }

  /** The first i elements normalized. */
  function Partly<T>(f: T -> T, s: seq<T>, i: nat): seq<T>
    requires i <= |s|
  {
    Apply(f, s[..i]) + s[i..]
  }

  lemma {:induction false} PartlyNext<T>(f: T -> T, s: seq<T>, i: nat)
    requires i < |s|
    ensures Partly(f, s, i)[i] == s[i] && Partly(f, s, i + 1) == Partly(f, s, i)[i := f(s[i])]
  {
  }

  lemma {:induction false} PartlyEnds<T>(f: T -> T, s: seq<T>)
    ensures Partly(f, s, 0) == s && Partly(f, s, |s|) == Apply(f, s)
  {
  }

  lemma {:induction false} ContainersReached(p: PodSpec, q: PodSpec, i: nat)
    requires i <= |q.containers| && Reaches(p, q.(containers := Partly(NormalContainer, q.containers, i)))
    ensures Reaches(p, q.(containers := Apply(NormalContainer, q.containers)))
    decreases |q.containers| - i
  {
    if i == |q.containers| {
      PartlyEnds(NormalContainer, q.containers);
    } else {
      PartlyNext(NormalContainer, q.containers, i);
      ContainerNormalReached(q.containers[i]);
      var steps :| ContainerSteps(q.containers[i], steps) == NormalContainer(q.containers[i]);
      InContainer(p, q.(containers := Partly(NormalContainer, q.containers, i)), i, steps);
      ContainersReached(p, q, i + 1);
    }
  }

  lemma {:induction false} InitsReached(p: PodSpec, q: PodSpec, i: nat)
    requires i <= |q.initContainers| && Reaches(p, q.(initContainers := Partly(NormalContainer, q.initContainers, i)))
    ensures Reaches(p, q.(initContainers := Apply(NormalContainer, q.initContainers)))
    decreases |q.initContainers| - i
  {
    if i == |q.initContainers| {
      PartlyEnds(NormalContainer, q.initContainers);
    } else {
      PartlyNext(NormalContainer, q.initContainers, i);
      ContainerNormalReached(q.initContainers[i]);
      var steps :| ContainerSteps(q.initContainers[i], steps) == NormalContainer(q.initContainers[i]);
      InInit(p, q.(initContainers := Partly(NormalContainer, q.initContainers, i)), i, steps);
      InitsReached(p, q, i + 1);
    }
  }

  lemma {:induction false} VolumesReached(p: PodSpec, q: PodSpec, i: nat)
    requires i <= |q.volumes| && Reaches(p, q.(volumes := Partly(NormalVolume, q.volumes, i)))
    ensures Reaches(p, q.(volumes := Apply(NormalVolume, q.volumes)))
    decreases |q.volumes| - i
  {
    if i == |q.volumes| {
      PartlyEnds(NormalVolume, q.volumes);
    } else {
      PartlyNext(NormalVolume, q.volumes, i);
      var r := q.(volumes := Partly(NormalVolume, q.volumes, i));
      Then(p, r, OnVolume(i, Secret));
      r := StepSpec(r, OnVolume(i, Secret));
      Then(p, r, OnVolume(i, ConfigMap));
      r := StepSpec(r, OnVolume(i, ConfigMap));
      Then(p, r, OnVolume(i, Projected));
      r := StepSpec(r, OnVolume(i, Projected));
      assert r.volumes == Partly(NormalVolume, q.volumes, i)[i := NormalVolume(q.volumes[i])];
      VolumesReached(p, q, i + 1);
    }
  }

  lemma {:induction false} OperatorsReached(p: PodSpec, q: PodSpec, i: nat)
    requires i <= |q.tolerations| && Reaches(p, q.(tolerations := Partly(WithOperator, q.tolerations, i)))
    ensures Reaches(p, q.(tolerations := Apply(WithOperator, q.tolerations)))
    decreases |q.tolerations| - i
  {
    if i == |q.tolerations| {
      PartlyEnds(WithOperator, q.tolerations);
    } else {
      PartlyNext(WithOperator, q.tolerations, i);
      Then(p, q.(tolerations := Partly(WithOperator, q.tolerations, i)), DefaultOperator(i));
      OperatorsReached(p, q, i + 1);
    }
  }

  lemma {:induction false} AllOperatorsReached(p: PodSpec, q: PodSpec)
    requires Reaches(p, q)
    ensures Reaches(p, q.(tolerations := Apply(WithOperator, q.tolerations)))
  {
    PartlyEnds(WithOperator, q.tolerations);
    assert q.(tolerations := q.tolerations) == q;
    OperatorsReached(p, q, 0);
  }

  lemma {:induction false} SortReached(json: Toleration -> string, p: PodSpec, q: PodSpec)
    requires Reaches(p, q)
    ensures Reaches(p, q.(tolerations := Sort(json, q.tolerations)))
  {
    SortSorts(json, q.tolerations);
    Then(p, q, Reorder(Sort(json, q.tolerations)));
  }

  lemma {:induction false} TolerationsReached(json: Toleration -> string, p: PodSpec, q: PodSpec)
    requires Reaches(p, q)
    ensures Reaches(p, q.(tolerations := NormalTolerations(json, q.tolerations)))
  {
    Then(p, q, AdmitNotReady);
    var r := StepSpec(q, AdmitNotReady);
    Then(p, r, AdmitUnreachable);
    r := StepSpec(r, AdmitUnreachable);
    AllOperatorsReached(p, r);
    SortReached(json, p, r.(tolerations := Apply(WithOperator, r.tolerations)));
  }

  lemma {:induction false} ScalarsReached(p: PodSpec) returns (q: PodSpec)
    ensures Reaches(p, q)
    ensures q == PodSpec("", Or(p.dnsPolicy, "ClusterFirst"), Or(p.schedulerName, "default-scheduler"), p.serviceAccountName,
      Or(p.deprecatedServiceAccount, p.serviceAccountName), OrSome(p.enableServiceLinks, true),
      OrSome(p.preemptionPolicy, "PreemptLowerPriority"), OrSome(p.priority, 0), p.tolerations,
      p.containers, p.initContainers, p.volumes, p.rest)
  {
    q := p;
    Self(p);
    Then(p, q, AssignNode(""));
    q := StepSpec(q, AssignNode(""));
    Then(p, q, DefaultDns);
    q := StepSpec(q, DefaultDns);
    Then(p, q, DefaultScheduler);
    q := StepSpec(q, DefaultScheduler);
    Then(p, q, DefaultAccount);
    q := StepSpec(q, DefaultAccount);
    Then(p, q, DefaultLinks);
    q := StepSpec(q, DefaultLinks);
    Then(p, q, DefaultPreemption);
    q := StepSpec(q, DefaultPreemption);
    Then(p, q, DefaultPriority);
    q := StepSpec(q, DefaultPriority);
  }

  lemma {:induction false} NormalReached(json: Toleration -> string, p: PodSpec)
    ensures Reaches(p, Normal(json, p))
  {
    var q := ScalarsReached(p);
    TolerationsReached(json, p, q);
    q := q.(tolerations := NormalTolerations(json, q.tolerations));
    PartlyEnds(NormalContainer, q.containers);
    assert q.(containers := q.containers) == q;
    ContainersReached(p, q, 0);
    q := q.(containers := Apply(NormalContainer, q.containers));
    PartlyEnds(NormalContainer, q.initContainers);
    assert q.(initContainers := q.initContainers) == q;
    InitsReached(p, q, 0);
    q := q.(initContainers := Apply(NormalContainer, q.initContainers));
    PartlyEnds(NormalVolume, q.volumes);
    assert q.(volumes := q.volumes) == q;
    VolumesReached(p, q, 0);
  }

  /** Normalizing twice is normalizing once. */
  lemma {:induction false} NormalIdempotent(json: Toleration -> string, p: PodSpec)
    requires Injective(json)
    ensures Normal(json, Normal(json, p)) == Normal(json, p)
  {
    NormalReached(json, p);
    var steps :| Steps(p, steps) == Normal(json, p);
    StepsAbsorbed(json, p, steps);
  }

  /** Two specifications have the same fingerprint exactly when defaulting, node assignment and
      toleration reordering can make them the same: nothing else is forgotten. */
  lemma {:induction false} FingerprintForgetsExactlySteps(json: Toleration -> string, a: PodSpec, b: PodSpec)
    requires Injective(json)
    ensures Normal(json, a) == Normal(json, b) <==> exists q :: Reaches(a, q) && Reaches(b, q)
  {
    if Normal(json, a) == Normal(json, b) {
      NormalReached(json, a);
      NormalReached(json, b);
    }
    if q :| Reaches(a, q) && Reaches(b, q) {
      var s :| Steps(a, s) == q;
      var t :| Steps(b, t) == q;
      StepsAbsorbed(json, a, s);
      StepsAbsorbed(json, b, t);
    }
  }
}
