/** The fingerprint of a Pod specification: src/internal/kubernetes/fingerprint.go. Empty strings
    and None are the unset fields of the Kubernetes types; rest stands for every field the
    normalisation leaves alone. */
module PodFingerprint {
  import opened Common
  import opened Ordering

  datatype Toleration = Toleration(key: string, operator: string, value: string, effect: string, seconds: Option<int>)

  datatype FieldRef = FieldRef(apiVersion: string, path: string)
  datatype ResourceRef = ResourceRef(divisor: nat, rest: string)
  datatype EnvVar = EnvVar(field: Option<FieldRef>, resource: Option<ResourceRef>, rest: string)

  datatype Port = Port(protocol: string, rest: string)

  datatype Probe = Probe(timeout: int, period: int, success: int, failure: int, rest: string)

  datatype Container = Container(
    limits: map<string, int>,
    requests: map<string, int>,
    env: seq<EnvVar>,
    messagePath: string,
    messagePolicy: string,
    ports: seq<Port>,
    readiness: Option<Probe>,
    liveness: Option<Probe>,
    startup: Option<Probe>,
    rest: string
  )

  /** A volume source's default mode, when the volume has that source. */
  datatype Volume = Volume(
    secret: Option<Option<int>>,
    configMap: Option<Option<int>>,
    projected: Option<Option<int>>,
    rest: string
  )

  datatype PodSpec = PodSpec(
    nodeName: string,
    dnsPolicy: string,
    schedulerName: string,
    serviceAccountName: string,
    deprecatedServiceAccount: string,
    enableServiceLinks: Option<bool>,
    preemptionPolicy: Option<string>,
    priority: Option<int>,
    tolerations: seq<Toleration>,
    containers: seq<Container>,
    initContainers: seq<Container>,
    volumes: seq<Volume>,
    rest: string
  )

  function Or(s: string, default: string): string {
    if s == "" then default else s
  }

  function OrSome<T>(o: Option<T>, default: T): Option<T> {
    if o.None? then Some(default) else o
  }

  function OrOne(n: int, default: int): int {
    if n == 0 then default else n
  }

  function Apply<T>(f: T -> T, s: seq<T>): (r: seq<T>)
    ensures |r| == |s| && forall i :: 0 <= i < |s| ==> r[i] == f(s[i])
  {
    seq(|s|, i requires 0 <= i < |s| => f(s[i]))
  }

  /* Tolerations */

  const NOT_READY := "node.kubernetes.io/not-ready"
  const UNREACHABLE := "node.kubernetes.io/unreachable"

  predicate Tolerates(t: Toleration, key: string) {
    (t.key == key || t.key == "") && (t.effect == "" || t.effect == "NoExecute")
  }

  predicate Tolerated(ts: seq<Toleration>, key: string) {
    exists i :: 0 <= i < |ts| && Tolerates(ts[i], key)
  }

  function Tolerate(key: string): Toleration {
    Toleration(key, "Exists", "", "NoExecute", Some(300))
  }

  function WithToleration(ts: seq<Toleration>, key: string): seq<Toleration> {
    if Tolerated(ts, key) then ts else ts + [Tolerate(key)]
  }

  function WithOperator(t: Toleration): Toleration {
    t.(operator := Or(t.operator, "Equal"))
  }

  function NormalTolerations(json: Toleration -> string, ts: seq<Toleration>): seq<Toleration> {
    Sort(json, Apply(WithOperator, WithToleration(WithToleration(ts, NOT_READY), UNREACHABLE)))
  }

  /* Containers and volumes */

  function NormalRequests(c: Container): map<string, int> {
    map k | k in c.limits.Keys + c.requests.Keys :: if k in c.requests then c.requests[k] else c.limits[k]
  }

  function NormalEnv(e: EnvVar): EnvVar {
    e.(field := if e.field.Some? then Some(e.field.value.(apiVersion := Or(e.field.value.apiVersion, "v1"))) else None,
       resource := if e.resource.Some? && e.resource.value.divisor == 0 then Some(e.resource.value.(divisor := 1)) else e.resource)
  }

  function NormalPort(p: Port): Port {
    p.(protocol := Or(p.protocol, "TCP"))
  }

  function NormalProbe(p: Option<Probe>): Option<Probe> {
    match p
    case None => None
    case Some(q) => Some(Probe(OrOne(q.timeout, 1), OrOne(q.period, 10), OrOne(q.success, 1), OrOne(q.failure, 3), q.rest))
  }

  function NormalContainer(c: Container): Container {
    Container(c.limits, NormalRequests(c), Apply(NormalEnv, c.env),
              Or(c.messagePath, "/dev/termination-log"), Or(c.messagePolicy, "File"),
              Apply(NormalPort, c.ports), NormalProbe(c.readiness), NormalProbe(c.liveness), NormalProbe(c.startup), c.rest)
  }

  function NormalMode(m: Option<Option<int>>): Option<Option<int>> {
    if m == Some(None) then Some(Some(420)) else m
  }

  function NormalVolume(v: Volume): Volume {
    Volume(NormalMode(v.secret), NormalMode(v.configMap), NormalMode(v.projected), v.rest)
  }

  /** What the fingerprint is the digest of. json is the text a toleration is sorted by. */
  function Normal(json: Toleration -> string, p: PodSpec): PodSpec {
    PodSpec("", Or(p.dnsPolicy, "ClusterFirst"), Or(p.schedulerName, "default-scheduler"), p.serviceAccountName,
            Or(p.deprecatedServiceAccount, p.serviceAccountName), OrSome(p.enableServiceLinks, true),
            OrSome(p.preemptionPolicy, "PreemptLowerPriority"), OrSome(p.priority, 0), NormalTolerations(json, p.tolerations),
            Apply(NormalContainer, p.containers), Apply(NormalContainer, p.initContainers), Apply(NormalVolume, p.volumes), p.rest)
  }

  /* The same, in place, as specFingerprint does it. */

  method ContainerDefaults(containers: seq<Container>) returns (r: seq<Container>)
    ensures r == Apply(NormalContainer, containers)
  {
    r := containers;
    for i := 0 to |containers|
      invariant |r| == |containers|
      invariant forall k :: 0 <= k < i ==> r[k] == NormalContainer(containers[k])
      invariant forall k :: i <= k < |r| ==> r[k] == containers[k]
    {
      var c := r[i];
      var requests, missing := c.requests, c.limits.Keys;
      while missing != {}
        invariant missing <= c.limits.Keys && c.requests.Keys <= requests.Keys
        invariant requests.Keys == c.requests.Keys + (c.limits.Keys - missing)
        invariant forall k :: k in requests ==> requests[k] == if k in c.requests then c.requests[k] else c.limits[k]
        decreases missing
      {
        var name :| name in missing;
        if name !in requests {
          requests := requests[name := c.limits[name]];
        }
        missing := missing - {name};
      }
      var env := c.env;
      for j := 0 to |env|
        invariant |env| == |c.env|
        invariant forall k :: 0 <= k < |env| ==> env[k] == if k < j then NormalEnv(c.env[k]) else c.env[k]
      {
        if env[j].field.Some? && env[j].field.value.apiVersion == "" {
          env := env[j := env[j].(field := Some(env[j].field.value.(apiVersion := "v1")))];
        }
        if env[j].resource.Some? && env[j].resource.value.divisor == 0 {
          env := env[j := env[j].(resource := Some(env[j].resource.value.(divisor := 1)))];
        }
      }
      var ports := c.ports;
      for n := 0 to |ports|
        invariant |ports| == |c.ports|
        invariant forall k :: 0 <= k < |ports| ==> ports[k] == if k < n then NormalPort(c.ports[k]) else c.ports[k]
      {
        if ports[n].protocol == "" {
          ports := ports[n := ports[n].(protocol := "TCP")];
        }
      }
      assert requests == NormalRequests(c);
      assert env == Apply(NormalEnv, c.env) && ports == Apply(NormalPort, c.ports);
      c := c.(requests := requests, env := env, ports := ports,
              messagePath := Or(c.messagePath, "/dev/termination-log"), messagePolicy := Or(c.messagePolicy, "File"),
              readiness := NormalProbe(c.readiness), liveness := NormalProbe(c.liveness), startup := NormalProbe(c.startup));
      r := r[i := c];
    }
  }

  method TolerationDefaults(tolerations: seq<Toleration>) returns (ts: seq<Toleration>)
    ensures ts == Apply(WithOperator, WithToleration(WithToleration(tolerations, NOT_READY), UNREACHABLE))
  {
    ts := tolerations;
    var keys := [NOT_READY, UNREACHABLE];
    for n := 0 to 2
      invariant n == 0 ==> ts == tolerations
      invariant n == 1 ==> ts == WithToleration(tolerations, NOT_READY)
      invariant n == 2 ==> ts == WithToleration(WithToleration(tolerations, NOT_READY), UNREACHABLE)
    {
      var found := false;
      for i := 0 to |ts|
        invariant found <==> exists k :: 0 <= k < i && Tolerates(ts[k], keys[n])
      {
        if Tolerates(ts[i], keys[n]) {
          found := true;
        }
      }
      if !found {
        ts := ts + [Tolerate(keys[n])];
      }
    }
    ghost var tolerated := ts;
    for i := 0 to |ts|
      invariant |ts| == |tolerated|
      invariant forall k :: 0 <= k < |ts| ==> ts[k] == if k < i then WithOperator(tolerated[k]) else tolerated[k]
    {
      if ts[i].operator == "" {
        ts := ts[i := ts[i].(operator := "Equal")];
      }
    }
    assert ts == Apply(WithOperator, tolerated);
  }

  method VolumeDefaults(input: seq<Volume>) returns (volumes: seq<Volume>)
    ensures volumes == Apply(NormalVolume, input)
  {
    volumes := input;
    for i := 0 to |volumes|
      invariant |volumes| == |input|
      invariant forall k :: 0 <= k < |volumes| ==> volumes[k] == if k < i then NormalVolume(input[k]) else input[k]
    {
      var v := volumes[i];
      if v.secret == Some(None) {
        v := v.(secret := Some(Some(420)));
      }
      if v.configMap == Some(None) {
        v := v.(configMap := Some(Some(420)));
      }
      if v.projected == Some(None) {
        v := v.(projected := Some(Some(420)));
      }
      volumes := volumes[i := v];
    }
    assert volumes == Apply(NormalVolume, input);
  }

  method SpecFingerprint(json: Toleration -> string, input: PodSpec) returns (p: PodSpec)
    ensures p == Normal(json, input)
  {
    p := input.(nodeName := "");
    if p.dnsPolicy == "" {
      p := p.(dnsPolicy := "ClusterFirst");
    }
    if p.schedulerName == "" {
      p := p.(schedulerName := "default-scheduler");
    }
    if p.deprecatedServiceAccount == "" {
      p := p.(deprecatedServiceAccount := p.serviceAccountName);
    }
    if p.enableServiceLinks.None? {
      p := p.(enableServiceLinks := Some(true));
    }
    if p.preemptionPolicy.None? {
      p := p.(preemptionPolicy := Some("PreemptLowerPriority"));
    }
    if p.priority.None? {
      p := p.(priority := Some(0));
    }
    var ts := TolerationDefaults(p.tolerations);
    p := p.(tolerations := Sort(json, ts));
    var main := ContainerDefaults(p.containers);
    var init := ContainerDefaults(p.initContainers);
    var volumes := VolumeDefaults(p.volumes);
    p := p.(containers := main, initContainers := init, volumes := volumes);
  }

  /* What the API server, its admission plugins and the scheduler may do to an admitted Pod. */

  datatype ProbeName = Readiness | Liveness | Startup
  datatype ProbeField = Timeout | Period | Success | Failure
  datatype SourceName = Secret | ConfigMap | Projected

  datatype ContainerStep =
    | DefaultRequest(name: string)
    | DefaultFieldVersion(j: nat)
    | DefaultDivisor(j: nat)
    | DefaultMessagePath
    | DefaultMessagePolicy
    | DefaultProtocol(j: nat)
    | DefaultProbe(probe: ProbeName, field: ProbeField)

  datatype SpecStep =
    | AssignNode(name: string)
    | DefaultDns
    | DefaultScheduler
    | DefaultAccount
    | DefaultLinks
    | DefaultPreemption
    | DefaultPriority
    | AdmitNotReady
    | AdmitUnreachable
    | DefaultOperator(i: nat)
    | Reorder(tolerations: seq<Toleration>)
    | OnContainer(i: nat, step: ContainerStep)
    | OnInit(i: nat, step: ContainerStep)
    | OnVolume(i: nat, source: SourceName)

  function ProbeStep(p: Option<Probe>, f: ProbeField): Option<Probe> {
    if p.None? then None
    else match f
      case Timeout => Some(p.value.(timeout := OrOne(p.value.timeout, 1)))
      case Period => Some(p.value.(period := OrOne(p.value.period, 10)))
      case Success => Some(p.value.(success := OrOne(p.value.success, 1)))
      case Failure => Some(p.value.(failure := OrOne(p.value.failure, 3)))
  }

  function StepContainer(c: Container, s: ContainerStep): Container {
    match s
    case DefaultRequest(name) =>
      if name in c.limits && name !in c.requests then c.(requests := c.requests[name := c.limits[name]]) else c
    case DefaultFieldVersion(j) =>
      if j < |c.env| && c.env[j].field.Some?
      then c.(env := c.env[j := c.env[j].(field := Some(c.env[j].field.value.(apiVersion := Or(c.env[j].field.value.apiVersion, "v1"))))])
      else c
    case DefaultDivisor(j) =>
      if j < |c.env| && c.env[j].resource.Some? && c.env[j].resource.value.divisor == 0
      then c.(env := c.env[j := c.env[j].(resource := Some(c.env[j].resource.value.(divisor := 1)))])
      else c
    case DefaultMessagePath => c.(messagePath := Or(c.messagePath, "/dev/termination-log"))
    case DefaultMessagePolicy => c.(messagePolicy := Or(c.messagePolicy, "File"))
    case DefaultProtocol(j) => if j < |c.ports| then c.(ports := c.ports[j := NormalPort(c.ports[j])]) else c
    case DefaultProbe(Readiness, f) => c.(readiness := ProbeStep(c.readiness, f))
    case DefaultProbe(Liveness, f) => c.(liveness := ProbeStep(c.liveness, f))
    case DefaultProbe(Startup, f) => c.(startup := ProbeStep(c.startup, f))
  }

  function StepVolume(v: Volume, s: SourceName): Volume {
    match s
    case Secret => v.(secret := NormalMode(v.secret))
    case ConfigMap => v.(configMap := NormalMode(v.configMap))
    case Projected => v.(projected := NormalMode(v.projected))
  }

  function StepSpec(p: PodSpec, s: SpecStep): PodSpec {
    match s
    case AssignNode(name) => p.(nodeName := name)
    case DefaultDns => p.(dnsPolicy := Or(p.dnsPolicy, "ClusterFirst"))
    case DefaultScheduler => p.(schedulerName := Or(p.schedulerName, "default-scheduler"))
    case DefaultAccount => p.(deprecatedServiceAccount := Or(p.deprecatedServiceAccount, p.serviceAccountName))
    case DefaultLinks => p.(enableServiceLinks := OrSome(p.enableServiceLinks, true))
    case DefaultPreemption => p.(preemptionPolicy := OrSome(p.preemptionPolicy, "PreemptLowerPriority"))
    case DefaultPriority => p.(priority := OrSome(p.priority, 0))
    case AdmitNotReady => p.(tolerations := WithToleration(p.tolerations, NOT_READY))
    case AdmitUnreachable => p.(tolerations := WithToleration(p.tolerations, UNREACHABLE))
    case DefaultOperator(i) =>
      if i < |p.tolerations| then p.(tolerations := p.tolerations[i := WithOperator(p.tolerations[i])]) else p
    case Reorder(ts) => if multiset(ts) == multiset(p.tolerations) then p.(tolerations := ts) else p
    case OnContainer(i, t) =>
      if i < |p.containers| then p.(containers := p.containers[i := StepContainer(p.containers[i], t)]) else p
    case OnInit(i, t) =>
      if i < |p.initContainers| then p.(initContainers := p.initContainers[i := StepContainer(p.initContainers[i], t)]) else p
    case OnVolume(i, v) =>
      if i < |p.volumes| then p.(volumes := p.volumes[i := StepVolume(p.volumes[i], v)]) else p
  }

  function Steps(p: PodSpec, steps: seq<SpecStep>): PodSpec
    decreases |steps|
  {
    if steps == [] then p else Steps(StepSpec(p, steps[0]), steps[1..])
  }

  /* Each such step leaves the normal form alone. */

  lemma {:induction false} ListStepAbsorbed(c: Container, s: ContainerStep)
    requires s.DefaultFieldVersion? || s.DefaultDivisor? || s.DefaultProtocol?
    ensures NormalContainer(StepContainer(c, s)) == NormalContainer(c)
  {
    var d := StepContainer(c, s);
    if s.DefaultProtocol? {
      if s.j < |c.ports| {
        ApplyUpdated(NormalPort, c.ports, s.j, d.ports[s.j]);
      }
    } else if s.j < |c.env| {
      assert NormalEnv(d.env[s.j]) == NormalEnv(c.env[s.j]);
      assert d.env == c.env[s.j := d.env[s.j]];
      ApplyUpdated(NormalEnv, c.env, s.j, d.env[s.j]);
    }
    assert NormalRequests(d) == NormalRequests(c);
  }

  lemma {:induction false} ApplyUpdated<T>(f: T -> T, s: seq<T>, i: nat, x: T)
    requires i < |s| && f(x) == f(s[i])
    ensures Apply(f, s[i := x]) == Apply(f, s)
  {
  }

  lemma {:induction false} ScalarStepAbsorbed(c: Container, s: ContainerStep)
    requires s.DefaultRequest? || s.DefaultMessagePath? || s.DefaultMessagePolicy?
    ensures NormalContainer(StepContainer(c, s)) == NormalContainer(c)
  {
    assert NormalRequests(StepContainer(c, s)) == NormalRequests(c);
  }

  lemma {:induction false} ProbesAbsorbed(c: Container, s: ContainerStep)
    requires s.DefaultProbe?
    ensures NormalContainer(StepContainer(c, s)) == NormalContainer(c)
  {
    ProbeStepAbsorbed(c.readiness, s.field);
    ProbeStepAbsorbed(c.liveness, s.field);
    ProbeStepAbsorbed(c.startup, s.field);
    SameButProbes(c, StepContainer(c, s));
  }

  lemma {:induction false} SameButProbes(c: Container, d: Container)
    requires d == c.(readiness := d.readiness, liveness := d.liveness, startup := d.startup)
    requires NormalProbe(d.readiness) == NormalProbe(c.readiness)
    requires NormalProbe(d.liveness) == NormalProbe(c.liveness) && NormalProbe(d.startup) == NormalProbe(c.startup)
    ensures NormalContainer(d) == NormalContainer(c)
  {
    assert NormalRequests(d) == NormalRequests(c);
  }

  lemma {:induction false} ContainerStepAbsorbed(c: Container, s: ContainerStep)
    ensures NormalContainer(StepContainer(c, s)) == NormalContainer(c)
  {
    if s.DefaultProbe? {
      ProbesAbsorbed(c, s);
    } else if s.DefaultFieldVersion? || s.DefaultDivisor? || s.DefaultProtocol? {
      ListStepAbsorbed(c, s);
    } else {
      ScalarStepAbsorbed(c, s);
    }
  }

  lemma {:induction false} ProbeStepAbsorbed(p: Option<Probe>, f: ProbeField)
    ensures NormalProbe(ProbeStep(p, f)) == NormalProbe(p)
  {
  }

  lemma {:induction false} ApplyConcat<T>(f: T -> T, a: seq<T>, b: seq<T>)
    ensures Apply(f, a + b) == Apply(f, a) + Apply(f, b)
  {
  }

  lemma {:induction false} RemoveAt<T>(s: seq<T>, i: nat)
    requires i < |s|
    ensures multiset(s[..i] + s[i + 1..]) == multiset(s) - multiset{s[i]}
    ensures s == s[..i] + ([s[i]] + s[i + 1..])
  {
    assert s == s[..i] + ([s[i]] + s[i + 1..]);
  }

  lemma {:induction false} ApplyRemoveAt<T>(f: T -> T, s: seq<T>, i: nat)
    requires i < |s|
    ensures multiset(Apply(f, s)) == multiset(Apply(f, s[..i] + s[i + 1..])) + multiset{f(s[i])}
  {
    RemoveAt(s, i);
    ApplyConcat(f, s[..i], [s[i]] + s[i + 1..]);
    ApplyConcat(f, [s[i]], s[i + 1..]);
    ApplyConcat(f, s[..i], s[i + 1..]);
    assert Apply(f, [s[i]]) == [f(s[i])];
  }

  lemma {:induction false} ApplyKeepsMultiset<T>(f: T -> T, a: seq<T>, b: seq<T>)
    requires multiset(a) == multiset(b)
    ensures multiset(Apply(f, a)) == multiset(Apply(f, b))
    decreases |a|
  {
    assert |multiset(a)| == |multiset(b)|;
    if a != [] {
      assert a[0] in multiset(b);
      var i :| 0 <= i < |b| && b[i] == a[0];
      var c, d := a[..0] + a[1..], b[..i] + b[i + 1..];
      RemoveAt(a, 0);
      RemoveAt(b, i);
      assert multiset(c) == multiset(d);
      ApplyKeepsMultiset(f, c, d);
      ApplyRemoveAt(f, a, 0);
      ApplyRemoveAt(f, b, i);
    }
  }

  lemma {:induction false} ToleratedIsUnordered(a: seq<Toleration>, b: seq<Toleration>, key: string)
    requires multiset(a) == multiset(b)
    ensures Tolerated(a, key) <==> Tolerated(b, key)
    ensures multiset(WithToleration(a, key)) == multiset(WithToleration(b, key))
  {
    if Tolerated(a, key) {
      var i :| 0 <= i < |a| && Tolerates(a[i], key);
      assert a[i] in multiset(b);
    }
    if Tolerated(b, key) {
      var i :| 0 <= i < |b| && Tolerates(b[i], key);
      assert b[i] in multiset(a);
    }
  }

  lemma {:induction false} NormalTolerationsUnordered(json: Toleration -> string, a: seq<Toleration>, b: seq<Toleration>)
    requires Injective(json) && multiset(a) == multiset(b)
    ensures NormalTolerations(json, a) == NormalTolerations(json, b)
  {
    ToleratedIsUnordered(a, b, NOT_READY);
    var a1, b1 := WithToleration(a, NOT_READY), WithToleration(b, NOT_READY);
    ToleratedIsUnordered(a1, b1, UNREACHABLE);
    var a2, b2 := WithToleration(a1, UNREACHABLE), WithToleration(b1, UNREACHABLE);
    ApplyKeepsMultiset(WithOperator, a2, b2);
    SortCanonical(json, Apply(WithOperator, a2), Apply(WithOperator, b2));
  }

  lemma {:induction false} AdmittedTolerates(ts: seq<Toleration>, key: string, other: string)
    requires key != other && other != ""
    ensures Tolerated(WithToleration(ts, key), key)
    ensures Tolerated(WithToleration(ts, other), key) <==> Tolerated(ts, key)
  {
    var a, b := WithToleration(ts, key), WithToleration(ts, other);
    if !Tolerated(ts, key) {
      assert Tolerates(a[|ts|], key);
    }
    if Tolerated(ts, key) {
      var i :| 0 <= i < |ts| && Tolerates(ts[i], key);
      assert Tolerates(b[i], key);
    }
  }

  lemma {:induction false} AdmissionAbsorbed(json: Toleration -> string, ts: seq<Toleration>)
    requires Injective(json)
    ensures NormalTolerations(json, WithToleration(ts, NOT_READY)) == NormalTolerations(json, ts)
    ensures NormalTolerations(json, WithToleration(ts, UNREACHABLE)) == NormalTolerations(json, ts)
  {
    AdmittedTolerates(ts, NOT_READY, UNREACHABLE);
    AdmittedTolerates(ts, UNREACHABLE, NOT_READY);
    var u := WithToleration(ts, UNREACHABLE);
    var nu, un := WithToleration(WithToleration(ts, NOT_READY), UNREACHABLE), WithToleration(u, NOT_READY);
    AdmittedTolerates(u, UNREACHABLE, NOT_READY);
    assert multiset(nu) == multiset(un);
    assert WithToleration(un, UNREACHABLE) == un;
    ApplyKeepsMultiset(WithOperator, nu, un);
    SortCanonical(json, Apply(WithOperator, nu), Apply(WithOperator, un));
  }

  lemma {:induction false} OperatorAbsorbed(json: Toleration -> string, ts: seq<Toleration>, i: nat)
    requires i < |ts|
    ensures NormalTolerations(json, ts[i := WithOperator(ts[i])]) == NormalTolerations(json, ts)
  {
    var us := ts[i := WithOperator(ts[i])];
    OperatorKeepsTolerated(ts, i, NOT_READY);
    OperatorKeepsTolerated(ts, i, UNREACHABLE);
    var a, b := WithToleration(ts, NOT_READY), WithToleration(us, NOT_READY);
    assert b == a[i := WithOperator(a[i])];
    OperatorKeepsTolerated(a, i, UNREACHABLE);
    assert Apply(WithOperator, WithToleration(a, UNREACHABLE)) == Apply(WithOperator, WithToleration(b, UNREACHABLE));
  }

  lemma {:induction false} OperatorKeepsTolerated(ts: seq<Toleration>, i: nat, key: string)
    requires i < |ts|
    ensures Tolerated(ts[i := WithOperator(ts[i])], key) <==> Tolerated(ts, key)
  {
    var us := ts[i := WithOperator(ts[i])];
    if Tolerated(ts, key) {
      var k :| 0 <= k < |ts| && Tolerates(ts[k], key);
      assert Tolerates(us[k], key);
    }
    if Tolerated(us, key) {
      var k :| 0 <= k < |us| && Tolerates(us[k], key);
      assert Tolerates(ts[k], key);
    }
  }

  lemma {:induction false} StepAbsorbed(json: Toleration -> string, p: PodSpec, s: SpecStep)
    requires Injective(json)
    ensures Normal(json, StepSpec(p, s)) == Normal(json, p)
  {
    var q := StepSpec(p, s);
    match s {
      case AdmitNotReady => AdmissionAbsorbed(json, p.tolerations);
      case AdmitUnreachable => AdmissionAbsorbed(json, p.tolerations);
      case DefaultOperator(i) =>
        if i < |p.tolerations| {
          OperatorAbsorbed(json, p.tolerations, i);
        }
      case Reorder(ts) => NormalTolerationsUnordered(json, q.tolerations, p.tolerations);
      case OnContainer(i, t) => PartAbsorbed(p, s);
      case OnInit(i, t) => PartAbsorbed(p, s);
      case OnVolume(i, v) => PartAbsorbed(p, s);
      case _ =>
    }
  }

  lemma {:induction false} ListedAbsorbed(cs: seq<Container>, i: nat, t: ContainerStep)
    requires i < |cs|
    ensures Apply(NormalContainer, cs[i := StepContainer(cs[i], t)]) == Apply(NormalContainer, cs)
  {
    ContainerStepAbsorbed(cs[i], t);
    ApplyUpdated(NormalContainer, cs, i, StepContainer(cs[i], t));
  }

  lemma {:induction false} VolumeAbsorbed(vs: seq<Volume>, i: nat, v: SourceName)
    requires i < |vs|
    ensures Apply(NormalVolume, vs[i := StepVolume(vs[i], v)]) == Apply(NormalVolume, vs)
  {
    ApplyUpdated(NormalVolume, vs, i, StepVolume(vs[i], v));
  }

  /** A step on one container or volume. */
  lemma {:induction false} PartAbsorbed(p: PodSpec, s: SpecStep)
    requires s.OnContainer? || s.OnInit? || s.OnVolume?
    ensures var q := StepSpec(p, s);
      && q == p.(containers := q.containers, initContainers := q.initContainers, volumes := q.volumes)
      && Apply(NormalContainer, q.containers) == Apply(NormalContainer, p.containers)
      && Apply(NormalContainer, q.initContainers) == Apply(NormalContainer, p.initContainers)
      && Apply(NormalVolume, q.volumes) == Apply(NormalVolume, p.volumes)
  {
    match s
    case OnContainer(i, t) =>
      if i < |p.containers| {
        ListedAbsorbed(p.containers, i, t);
        assert StepSpec(p, s) == p.(containers := p.containers[i := StepContainer(p.containers[i], t)]);
      }
    case OnInit(i, t) =>
      if i < |p.initContainers| {
        ListedAbsorbed(p.initContainers, i, t);
        assert StepSpec(p, s) == p.(initContainers := p.initContainers[i := StepContainer(p.initContainers[i], t)]);
      }
    case OnVolume(i, v) =>
      if i < |p.volumes| {
        VolumeAbsorbed(p.volumes, i, v);
        assert StepSpec(p, s) == p.(volumes := p.volumes[i := StepVolume(p.volumes[i], v)]);
      }
  }

  /** Any defaulting, node assignment and toleration reordering, in any order, is invisible. */
  lemma {:induction false} StepsAbsorbed(json: Toleration -> string, p: PodSpec, steps: seq<SpecStep>)
    requires Injective(json)
    ensures Normal(json, Steps(p, steps)) == Normal(json, p)
    decreases |steps|
  {
    if steps != [] {
      StepAbsorbed(json, p, steps[0]);
      StepsAbsorbed(json, StepSpec(p, steps[0]), steps[1..]);
    }
  }
}
