/** Convergence of workload templates: the hosted Deployment's model settings and the BYOC template defaults. */
module Workload {
  import opened Calls

  datatype EnvVar = EnvVar(name: string, value: string)

  /** Quantities compare by value, however they are written. */
  datatype Resources = Resources(value: nat, rendering: string)

  /** `http` is the path and port of an HTTP probe. */
  datatype Probe = Probe(http: Option<(string, int)>, success: int, failure: int, timeout: int, other: string)

  datatype Port = Port(number: int, protocol: string)

  /** `other` stands for all fields that neither operation touches. */
  datatype Container = Container(
    name: string, image: string, args: seq<string>, env: seq<EnvVar>, resources: Resources,
    readiness: Option<Probe>, liveness: Option<Probe>, ports: seq<Port>,
    pullPolicy: string, messagePath: string, messagePolicy: string, other: string)

  const INIT := "download-model"
  const SERVER := "llama-cpp-server"
  const MODEL_PATH := "MODEL_PATH"
  const HEALTH := ("/health", 8000)
  const READINESS := Probe(Some(HEALTH), 0, 6, 2, "period 5")
  const LIVENESS := Probe(Some(HEALTH), 0, 6, 2, "delay 20, period 10")

  /** What a model selection asks of the two containers. */
  datatype Desired = Desired(
    initArg: string, initResources: Resources, image: string, path: string, args: seq<string>, resources: Resources)

  // ---------------------------------------------------------------------------------------------
  // The converged form
  // ---------------------------------------------------------------------------------------------

  function Settle(current: Resources, desired: Resources): Resources {
    if current.value == desired.value then current else desired
  }

  function InitDone(c: Container, d: Desired): Container {
    if c.name != INIT then c
    else c.(args := [d.initArg], resources := Settle(c.resources, d.initResources))
  }

  predicate Mentions(env: seq<EnvVar>, name: string) {
    exists i :: 0 <= i < |env| && env[i].name == name
  }

  function WithValue(env: seq<EnvVar>, path: string): seq<EnvVar> {
    seq(|env|, i requires 0 <= i < |env| => if env[i].name == MODEL_PATH then env[i].(value := path) else env[i])
  }

  function EnvDone(env: seq<EnvVar>, path: string): seq<EnvVar> {
    if Mentions(env, MODEL_PATH) then WithValue(env, path) else env + [EnvVar(MODEL_PATH, path)]
  }

  function ProbeDone(p: Option<Probe>, standard: Probe): Option<Probe> {
    if p.Some? && p.value.http == Some(HEALTH) then p else Some(standard)
  }

  function ServerDone(c: Container, d: Desired): Container {
    if c.name != SERVER then c
    else c.(image := d.image, env := EnvDone(c.env, d.path), args := d.args, resources := Settle(c.resources, d.resources),
            readiness := ProbeDone(c.readiness, READINESS), liveness := ProbeDone(c.liveness, LIVENESS))
  }

  function All(f: Container -> Container, cs: seq<Container>): seq<Container> {
    seq(|cs|, i requires 0 <= i < |cs| => f(cs[i]))
  }

  // ---------------------------------------------------------------------------------------------
  // ensureDeploymentModel
  // ---------------------------------------------------------------------------------------------

  /** The environment loop of the server container. */
  method EnsureEnv(env: seq<EnvVar>, path: string) returns (updated: bool, out: seq<EnvVar>)
    ensures out == EnvDone(env, path) && (updated <==> out != env)
  {
    out, updated := env, false;
    var has := false;
    for j := 0 to |env|
      invariant |out| == |env| && has == Mentions(env[..j], MODEL_PATH)
      invariant forall i :: 0 <= i < j ==> out[i] == if env[i].name == MODEL_PATH then env[i].(value := path) else env[i]
      invariant forall i :: j <= i < |env| ==> out[i] == env[i]
      invariant updated <==> exists i :: 0 <= i < j && out[i] != env[i]
    {
      assert Mentions(env[..j + 1], MODEL_PATH) <==> Mentions(env[..j], MODEL_PATH) || env[j].name == MODEL_PATH by {
        assert env[..j + 1] == env[..j] + [env[j]];
        assert env[..j + 1][j] == env[j];
        assert forall i :: 0 <= i < j ==> env[..j + 1][i] == env[..j][i];
      }
      if out[j].name != MODEL_PATH {
        continue;
      }
      has := true;
      if out[j].value != path {
        out := out[j := out[j].(value := path)];
        updated := true;
      }
    }
    assert env[..|env|] == env;
    if !has {
      assert out == env;
      out, updated := out + [EnvVar(MODEL_PATH, path)], true;
    } else {
      assert out == WithValue(env, path);
      assert out != env <==> exists i :: 0 <= i < |env| && out[i] != env[i];
    }
  }

  /** ensureLLMContainerProbes. */
  method EnsureProbes(c: Container) returns (updated: bool, out: Container)
    ensures out == c.(readiness := ProbeDone(c.readiness, READINESS), liveness := ProbeDone(c.liveness, LIVENESS))
    ensures updated <==> out != c
  {
    updated, out := false, c;
    if out.readiness.None? || out.readiness.value.http != Some(HEALTH) {
      out, updated := out.(readiness := Some(READINESS)), true;
    }
    if out.liveness.None? || out.liveness.value.http != Some(HEALTH) {
      out, updated := out.(liveness := Some(LIVENESS)), true;
    }
  }

  method EnsureServer(c: Container, d: Desired) returns (updated: bool, out: Container)
    requires c.name == SERVER
    ensures out == ServerDone(c, d) && (updated <==> out != c)
  {
    updated, out := false, c;
    if out.image != d.image {
      out, updated := out.(image := d.image), true;
    }
    var changed, env := EnsureEnv(out.env, d.path);
    out, updated := out.(env := env), updated || changed;
    if out.args != d.args {
      out, updated := out.(args := d.args), true;
    }
    if out.resources.value != d.resources.value {
      out, updated := out.(resources := d.resources), true;
    }
    changed, out := EnsureProbes(out);
    updated := updated || changed;
  }

  method EnsureInit(c: Container, d: Desired) returns (updated: bool, out: Container)
    requires c.name == INIT
    ensures out == InitDone(c, d) && (updated <==> out != c)
  {
    updated, out := false, c;
    if |out.args| != 1 || out.args[0] != d.initArg {
      out, updated := out.(args := [d.initArg]), true;
    }
    if out.resources.value != d.initResources.value {
      out, updated := out.(resources := d.initResources), true;
    }
  }

  /** ensureDeploymentModel, in place on the two container lists. */
  method EnsureDeploymentModel(inits: array<Container>, servers: array<Container>, d: Desired) returns (updated: bool)
    requires inits != servers
    modifies inits, servers
    ensures inits[..] == All(c => InitDone(c, d), old(inits[..]))
    ensures servers[..] == All(c => ServerDone(c, d), old(servers[..]))
    ensures updated <==> inits[..] != old(inits[..]) || servers[..] != old(servers[..])
  {
    var first := EnsureInits(inits, d);
    var second := EnsureServers(servers, d);
    updated := first || second;
  }

  method EnsureInits(a: array<Container>, d: Desired) returns (updated: bool)
    modifies a
    ensures a[..] == All(c => InitDone(c, d), old(a[..]))
    ensures updated <==> a[..] != old(a[..])
  {
    updated := false;
    for i := 0 to a.Length
      invariant forall j :: 0 <= j < i ==> a[j] == InitDone(old(a[j]), d)
      invariant forall j :: i <= j < a.Length ==> a[j] == old(a[j])
      invariant updated <==> exists j :: 0 <= j < i && a[j] != old(a[j])
    {
      if a[i].name != INIT {
        continue;
      }
      var changed, c := EnsureInit(a[i], d);
      a[i] := c;
      updated := updated || changed;
    }
    assert forall j :: 0 <= j < a.Length ==> a[..][j] == a[j] && old(a[..])[j] == old(a[j]);
    assert updated ==> exists j :: 0 <= j < a.Length && a[..][j] != old(a[..])[j];
  }

  method EnsureServers(a: array<Container>, d: Desired) returns (updated: bool)
    modifies a
    ensures a[..] == All(c => ServerDone(c, d), old(a[..]))
    ensures updated <==> a[..] != old(a[..])
  {
    updated := false;
    for i := 0 to a.Length
      invariant forall j :: 0 <= j < i ==> a[j] == ServerDone(old(a[j]), d)
      invariant forall j :: i <= j < a.Length ==> a[j] == old(a[j])
      invariant updated <==> exists j :: 0 <= j < i && a[j] != old(a[j])
    {
      hide ServerDone;
      if a[i].name != SERVER {
        assert ServerDone(a[i], d) == a[i] by { NotServer(a[i], d); }
        continue;
      }
      var changed, c := EnsureServer(a[i], d);
      a[i] := c;
      updated := updated || changed;
    }
    assert forall j :: 0 <= j < a.Length ==> a[..][j] == a[j] && old(a[..])[j] == old(a[j]);
    assert updated ==> exists j :: 0 <= j < a.Length && a[..][j] != old(a[..])[j];
  }

  lemma NotServer(c: Container, d: Desired)
    requires c.name != SERVER
    ensures ServerDone(c, d) == c
  {
  }

  lemma EnvSettles(env: seq<EnvVar>, path: string)
    ensures EnvDone(EnvDone(env, path), path) == EnvDone(env, path)
  {
    var done := EnvDone(env, path);
    if Mentions(env, MODEL_PATH) {
      var i :| 0 <= i < |env| && env[i].name == MODEL_PATH;
      assert done[i].name == MODEL_PATH;
    } else {
      assert done[|env|].name == MODEL_PATH;
    }
    assert WithValue(done, path) == done;
  }

  /** What the server container ends with: the model's image, arguments and budget, MODEL_PATH once at least and with this
      value everywhere, and two probes of the health endpoint; every other field, variable and health probe is kept, and
      so is a budget that only reads differently. */
  lemma ServerMeans(c: Container, d: Desired)
    requires c.name == "llama-cpp-server"
    ensures var s := ServerDone(c, d);
            && s.image == d.image && s.args == d.args && s.resources.value == d.resources.value
            && (c.resources.value == d.resources.value ==> s.resources == c.resources)
            && (exists i :: 0 <= i < |s.env| && s.env[i] == EnvVar("MODEL_PATH", d.path))
            && (forall i :: 0 <= i < |s.env| && s.env[i].name == "MODEL_PATH" ==> s.env[i].value == d.path)
            && (forall i :: 0 <= i < |c.env| ==>
                  i < |s.env| && s.env[i].name == c.env[i].name && (c.env[i].name != "MODEL_PATH" ==> s.env[i] == c.env[i]))
            && (|s.env| > |c.env| ==> |s.env| == |c.env| + 1 && s.env[|c.env|].name == "MODEL_PATH")
            && (forall p :: p in [(c.readiness, s.readiness), (c.liveness, s.liveness)] ==>
                  && p.1.Some? && p.1.value.http == Some(("/health", 8000))
                  && (p.1 == p.0 || (p.1.value.failure == 6 && p.1.value.timeout == 2))
                  && (p.0.Some? && p.0.value.http == Some(("/health", 8000)) ==> p.1 == p.0))
            && s == c.(image := s.image, args := s.args, resources := s.resources, env := s.env,
                       readiness := s.readiness, liveness := s.liveness)
  {
    var s := ServerDone(c, d);
    if Mentions(c.env, MODEL_PATH) {
      var i :| 0 <= i < |c.env| && c.env[i].name == MODEL_PATH;
      assert s.env[i] == EnvVar("MODEL_PATH", d.path);
    } else {
      assert s.env[|c.env|] == EnvVar("MODEL_PATH", d.path);
    }
  }

  /** The download container ends with the one argument and the budget of the model, and is kept otherwise. */
  lemma InitMeans(c: Container, d: Desired)
    requires c.name == "download-model"
    ensures var s := InitDone(c, d);
            && s.args == [d.initArg] && s.resources.value == d.initResources.value
            && (c.resources.value == d.initResources.value ==> s.resources == c.resources)
            && s == c.(args := s.args, resources := s.resources)
  {
  }

  /** Converged lists stay as they are, and containers of other names are never touched. */
  lemma ModelSettles(cs: seq<Container>, d: Desired)
    ensures var init, server := All(c => InitDone(c, d), cs), All(c => ServerDone(c, d), cs);
            && All(c => InitDone(c, d), init) == init && All(c => ServerDone(c, d), server) == server
            && (forall i :: 0 <= i < |cs| ==> (cs[i].name != INIT ==> init[i] == cs[i]) && (cs[i].name != SERVER ==> server[i] == cs[i]))
  {
    forall i | 0 <= i < |cs|
      ensures ServerDone(ServerDone(cs[i], d), d) == ServerDone(cs[i], d)
    {
      EnvSettles(cs[i].env, d.path);
    }
  }

  /** A second pass with the same model changes nothing and reports so. */
  method EnsureTwice(inits: array<Container>, servers: array<Container>, d: Desired) returns (again: bool)
    requires inits != servers
    modifies inits, servers
    ensures !again
    ensures inits[..] == All(c => InitDone(c, d), old(inits[..]))
    ensures servers[..] == All(c => ServerDone(c, d), old(servers[..]))
  {
    hide InitDone, ServerDone;
    var _ := EnsureDeploymentModel(inits, servers, d);
    ModelSettles(old(inits[..]), d);
    ModelSettles(old(servers[..]), d);
    again := EnsureDeploymentModel(inits, servers, d);
  }

  // ---------------------------------------------------------------------------------------------
  // corev1defaults
  // ---------------------------------------------------------------------------------------------

  datatype PodSettings = PodSettings(
    restart: string, grace: Option<int>, scheduler: string, account: string, deprecatedAccount: string, fsGroup: Option<int>)

  datatype VolumeSource = VolumeSource(mode: Option<int>, other: string)

  datatype Volume = Volume(secret: Option<VolumeSource>, configMap: Option<VolumeSource>, other: string)

  const POD_DEFAULTS := PodSettings("Always", Some(30), "default-scheduler", "default", "default", Some(65532))
  const SECRET_MODE := 288
  const CONFIG_MODE := 292

  datatype Template = Template(settings: PodSettings, containers: seq<Container>, inits: seq<Container>, volumes: seq<Volume>)

  function OrDefault(value: int, standard: int): int {
    if value == 0 then standard else value
  }

  function ProbeDefaults(p: Option<Probe>): Option<Probe> {
    if p.None? then p
    else Some(p.value.(success := OrDefault(p.value.success, 1), failure := OrDefault(p.value.failure, 3),
                       timeout := OrDefault(p.value.timeout, 1)))
  }

  function PortDefaults(ports: seq<Port>): seq<Port> {
    seq(|ports|, i requires 0 <= i < |ports| => ports[i].(protocol := "TCP"))
  }

  function ContainerDefaults(c: Container): Container {
    c.(pullPolicy := "IfNotPresent", messagePath := "/dev/termination-log", messagePolicy := "File",
       ports := PortDefaults(c.ports), readiness := ProbeDefaults(c.readiness), liveness := ProbeDefaults(c.liveness))
  }

  function VolumeDefaults(v: Volume): Volume {
    v.(secret := if v.secret.Some? then Some(v.secret.value.(mode := Some(SECRET_MODE))) else None,
       configMap := if v.configMap.Some? then Some(v.configMap.value.(mode := Some(CONFIG_MODE))) else None)
  }

  function Defaults(t: Template): Template {
    Template(POD_DEFAULTS, All(ContainerDefaults, t.containers), All(ContainerDefaults, t.inits),
             seq(|t.volumes|, i requires 0 <= i < |t.volumes| => VolumeDefaults(t.volumes[i])))
  }

  /** What filling in defaults sets, and that it sets nothing else. */
  lemma ContainerMeans(c: Container)
    ensures var s := ContainerDefaults(c);
            && s.pullPolicy == "IfNotPresent" && s.messagePath == "/dev/termination-log" && s.messagePolicy == "File"
            && |s.ports| == |c.ports| && (forall i :: 0 <= i < |s.ports| ==> s.ports[i] == Port(c.ports[i].number, "TCP"))
            && (forall p :: p in [(c.readiness, s.readiness), (c.liveness, s.liveness)] ==>
                  && (p.0.None? <==> p.1.None?)
                  && (p.0.Some? ==>
                        && p.1.value.success == (if p.0.value.success == 0 then 1 else p.0.value.success)
                        && p.1.value.failure == (if p.0.value.failure == 0 then 3 else p.0.value.failure)
                        && p.1.value.timeout == (if p.0.value.timeout == 0 then 1 else p.0.value.timeout)
                        && p.1.value.http == p.0.value.http && p.1.value.other == p.0.value.other))
            && s.name == c.name && s.image == c.image && s.args == c.args && s.env == c.env && s.resources == c.resources && s.other == c.other
  {
  }

  /** The same for the whole template; Secrets are mounted with mode 0440 and ConfigMaps with 0444. */
  lemma TemplateMeans(t: Template)
    ensures var s := Defaults(t);
            && s.settings == PodSettings("Always", Some(30), "default-scheduler", "default", "default", Some(65532))
            && |s.containers| == |t.containers| && (forall i :: 0 <= i < |t.containers| ==> s.containers[i] == ContainerDefaults(t.containers[i]))
            && |s.inits| == |t.inits| && (forall i :: 0 <= i < |t.inits| ==> s.inits[i] == ContainerDefaults(t.inits[i]))
            && |s.volumes| == |t.volumes|
            && forall i :: 0 <= i < |t.volumes| ==>
                 && (t.volumes[i].secret.Some? ==> s.volumes[i].secret == Some(t.volumes[i].secret.value.(mode := Some(288))))
                 && (t.volumes[i].configMap.Some? ==> s.volumes[i].configMap == Some(t.volumes[i].configMap.value.(mode := Some(292))))
                 && (t.volumes[i].secret.None? ==> s.volumes[i].secret.None?) && (t.volumes[i].configMap.None? ==> s.volumes[i].configMap.None?)
                 && s.volumes[i].other == t.volumes[i].other
  {
  }

  /** Filling in defaults twice is the same as once. */
  lemma DefaultsSettle(t: Template)
    ensures Defaults(Defaults(t)) == Defaults(t)
  {
    forall c: Container
      ensures ContainerDefaults(ContainerDefaults(c)) == ContainerDefaults(c)
    {
      assert PortDefaults(PortDefaults(c.ports)) == PortDefaults(c.ports);
    }
    assert All(ContainerDefaults, All(ContainerDefaults, t.containers)) == All(ContainerDefaults, t.containers);
    assert All(ContainerDefaults, All(ContainerDefaults, t.inits)) == All(ContainerDefaults, t.inits);
    assert Defaults(Defaults(t)).volumes == Defaults(t).volumes;
  }

  method DefaultProbe(p: Option<Probe>) returns (out: Option<Probe>)
    ensures out == ProbeDefaults(p)
  {
    if p.None? {
      return p;
    }
    var probe := p.value;
    if probe.success == 0 {
      probe := probe.(success := 1);
    }
    if probe.failure == 0 {
      probe := probe.(failure := 3);
    }
    if probe.timeout == 0 {
      probe := probe.(timeout := 1);
    }
    return Some(probe);
  }

  method DefaultContainer(c: Container) returns (out: Container)
    ensures out == ContainerDefaults(c)
  {
    out := c.(pullPolicy := "IfNotPresent", messagePath := "/dev/termination-log", messagePolicy := "File");
    for j := 0 to |c.ports|
      invariant |out.ports| == |c.ports|
      invariant out == c.(pullPolicy := "IfNotPresent", messagePath := "/dev/termination-log", messagePolicy := "File", ports := out.ports)
      invariant forall i :: 0 <= i < |c.ports| ==> out.ports[i] == if i < j then c.ports[i].(protocol := "TCP") else c.ports[i]
    {
      out := out.(ports := out.ports[j := out.ports[j].(protocol := "TCP")]);
    }
    assert out.ports == PortDefaults(c.ports);
    var readiness := DefaultProbe(out.readiness);
    var liveness := DefaultProbe(out.liveness);
    out := out.(readiness := readiness, liveness := liveness);
  }

  method DefaultContainers(a: array<Container>)
    modifies a
    ensures a[..] == All(ContainerDefaults, old(a[..]))
  {
    for i := 0 to a.Length
      invariant forall j :: 0 <= j < i ==> a[j] == ContainerDefaults(old(a[j]))
      invariant forall j :: i <= j < a.Length ==> a[j] == old(a[j])
    {
      a[i] := DefaultContainer(a[i]);
    }
  }

  /** A pod template under construction. */
  class PodTemplate {
    var settings: PodSettings
    const containers: array<Container>
    const inits: array<Container>
    const volumes: array<Volume>

    ghost predicate Valid()
      reads this
    {
      containers != inits
    }

    ghost function Contents(): Template
      reads this, containers, inits, volumes
    {
      Template(settings, containers[..], inits[..], volumes[..])
    }

    constructor (settings: PodSettings, containers: array<Container>, inits: array<Container>, volumes: array<Volume>)
      requires containers != inits
      ensures Valid() && Contents() == Template(settings, containers[..], inits[..], volumes[..])
    {
      this.settings, this.containers, this.inits, this.volumes := settings, containers, inits, volumes;
    }

    /** corev1defaults. */
    method FillDefaults()
      requires Valid()
      modifies this`settings, containers, inits, volumes
      ensures Valid() && Contents() == Defaults(old(Contents()))
    {
      settings := settings.(restart := "Always", grace := Some(30), scheduler := "default-scheduler");
      settings := settings.(account := "default", deprecatedAccount := "default", fsGroup := Some(65532));
      DefaultContainers(containers);
      DefaultContainers(inits);
      for i := 0 to volumes.Length
        invariant settings == POD_DEFAULTS
        invariant containers[..] == All(ContainerDefaults, old(containers[..]))
        invariant inits[..] == All(ContainerDefaults, old(inits[..]))
        invariant forall j :: 0 <= j < i ==> volumes[j] == VolumeDefaults(old(volumes[j]))
        invariant forall j :: i <= j < volumes.Length ==> volumes[j] == old(volumes[j])
      {
        var v := volumes[i];
        if v.secret.Some? {
          v := v.(secret := Some(v.secret.value.(mode := Some(SECRET_MODE))));
        }
        if v.configMap.Some? {
          v := v.(configMap := Some(v.configMap.value.(mode := Some(CONFIG_MODE))));
        }
        volumes[i] := v;
      }
      assert volumes[..] == Defaults(old(Contents())).volumes;
    }
  }

  // ---------------------------------------------------------------------------------------------
  // reconcileBYOCDeployment
  // ---------------------------------------------------------------------------------------------

  datatype Deployment = Deployment(owned: bool, selector: string, template: Template, replicas: int, strategy: string)

  datatype Outcome = Refused | Kept | Written(deployment: Deployment)

  /** What one pass does with the stored Deployment, for a desired one with filled-in defaults. */
  function Converge(existing: Option<Deployment>, desired: Deployment): Outcome {
    if existing.None? then Written(desired)
    else
      var e := existing.value;
      if !e.owned then Refused
      else
        var template := Defaults(desired.template);
        if e.template == template && e.replicas == desired.replicas && e.strategy == desired.strategy then Kept
        else Written(e.(template := template, replicas := desired.replicas, strategy := desired.strategy))
  }

  /** A Deployment of somebody else is refused; ours is left alone exactly when it has the desired template, with defaults
      filled in, replicas and strategy, and otherwise gets these three and keeps the rest. */
  lemma ConvergeExactly(existing: Option<Deployment>, desired: Deployment)
    ensures var r, template := Converge(existing, desired), Defaults(desired.template);
            && (r == Refused <==> existing.Some? && !existing.value.owned)
            && (r == Kept <==>
                  && existing.Some?
                  && existing.value == Deployment(true, existing.value.selector, template, desired.replicas, desired.strategy))
            && (r.Written? ==>
                  if existing.Some? then r.deployment == Deployment(true, existing.value.selector, template, desired.replicas, desired.strategy)
                  else r.deployment == desired)
  {
  }

  /** After a write, the next pass with the same desired workload writes nothing, so pods are not restarted;
      a write to an existing Deployment keeps its selector and leaves nothing of the old template. */
  lemma ConvergeSettles(existing: Option<Deployment>, raw: Deployment)
    requires raw.owned
    ensures var desired := raw.(template := Defaults(raw.template));
            Converge(existing, desired).Written? ==>
              var stored := Converge(existing, desired).deployment;
              && Converge(Some(stored), desired) == Kept
              && stored.template == desired.template
              && (existing.Some? ==> stored.selector == existing.value.selector && existing.value.owned)
  {
    DefaultsSettle(raw.template);
  }
}
