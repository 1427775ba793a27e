/**
 * The configuration layer of the Concourse module (concourse/main.go): the
 * module value with its built-in resource types and variables, a loaded
 * pipeline with its first-match lookups, pipeline assembly from a parsed
 * config, the check request and its response, the latest version, and the
 * normalisation of YAML map keys. Containers, files and secrets are opaque
 * handles; what the outside world does with them is a parameter.
 */
module Configs {
  import opened Errors
  import opened Resources

  /** A container, either built from an image reference or produced elsewhere. */
  datatype Container = FromImage(ref: string) | Produced(id: nat)

  /** A secret handle; its plaintext lives outside the model. */
  datatype Secret = Secret(id: nat)

  /** A `((variable))` value, as JSON text. */
  datatype Var = Var(name: string, value: Json)

  /** A secret `((variable))`. */
  datatype SecretVar = SecretVar(name: string, value: Secret)

  /** `ResourceType`: a name and the container that implements it; `pipeline` is the back-pointer a lookup sets. */
  datatype ResourceType = ResourceType(pipeline: Option<Pipeline>, name: string, container: Container)

  /** `Resource`: a named resource of some type's container, with its source; `concourse` is the back-pointer a lookup sets. */
  datatype Resource = Resource(concourse: Option<Concourse>, name: string, container: Container, source: Json)

  /** `Job`: a named job config; `pipeline` is the back-pointer a lookup sets. */
  datatype Job = Job(pipeline: Option<Pipeline>, name: string, config: Json)

  /** The `Concourse` module value. */
  datatype Concourse = Concourse(resourceTypes: seq<ResourceType>, vars: seq<Var>, secretVars: seq<SecretVar>)

  /** The resource types every pipeline starts with, in order. */
  const BuiltinTypeNames: seq<string> := [
    "git", "registry-image", "time", "s3", "semver", "docker-image",
    "github-release", "bosh-io-release", "bosh-io-stemcell"
  ]

  /** The built-in type `name`, running the `concourse/<name>-resource` image. */
  function Builtin(name: string): (t: ResourceType)
    ensures t.name == name && t.pipeline.None?
    ensures t.container == FromImage("concourse/" + name + "-resource")
  {
    ResourceType(None, name, FromImage("concourse/" + name + "-resource"))
  }

  /** `New`: a module value with the nine built-in resource types and no variables. */
  function NewConcourse(): (c: Concourse)
    ensures |c.resourceTypes| == |BuiltinTypeNames| == 9
    ensures forall i :: 0 <= i < 9 ==> c.resourceTypes[i] == Builtin(BuiltinTypeNames[i])
    ensures c.vars == [] && c.secretVars == []
  {
    Concourse(seq(|BuiltinTypeNames|, i requires 0 <= i < |BuiltinTypeNames| => Builtin(BuiltinTypeNames[i])), [], [])
  }

  /** `WithVar`: a copy of the module value with one variable appended; the receiver is a value and is left as it was. */
  function WithVar(c: Concourse, name: string, value: Json): (r: Concourse)
    ensures |r.vars| == |c.vars| + 1 && r.vars[..|c.vars|] == c.vars && r.vars[|c.vars|] == Var(name, value)
    ensures r.secretVars == c.secretVars && r.resourceTypes == c.resourceTypes
  {
    c.(vars := c.vars + [Var(name, value)])
  }

  /** `WithSecretVar`: a copy of the module value with one secret variable appended. */
  function WithSecretVar(c: Concourse, name: string, value: Secret): (r: Concourse)
    ensures |r.secretVars| == |c.secretVars| + 1 && r.secretVars[..|c.secretVars|] == c.secretVars
    ensures r.secretVars[|c.secretVars|] == SecretVar(name, value)
    ensures r.vars == c.vars && r.resourceTypes == c.resourceTypes
  {
    c.(secretVars := c.secretVars + [SecretVar(name, value)])
  }

  /** Variables accumulate in call order, and the two kinds of variable do not interfere. */
  lemma VarsAccumulateInOrder(c: Concourse, a: string, x: Json, b: string, y: Json, s: string, secret: Secret)
    ensures WithVar(WithVar(c, a, x), b, y).vars == c.vars + [Var(a, x), Var(b, y)]
    ensures WithSecretVar(WithVar(c, a, x), s, secret) == WithVar(WithSecretVar(c, s, secret), a, x)
  {
    assert WithVar(WithVar(c, a, x), b, y).vars == (c.vars + [Var(a, x)]) + [Var(b, y)];
  }

  /**
   * The index of the first element of `xs` whose name (by `nameOf`) is
   * `name`: the linear search the lookups share.
   */
  function FirstNamed<T>(xs: seq<T>, nameOf: T -> string, name: string): (r: Option<nat>)
    ensures r.None? <==> forall i :: 0 <= i < |xs| ==> nameOf(xs[i]) != name
    ensures r.Some? ==> r.value < |xs| && nameOf(xs[r.value]) == name
    ensures r.Some? ==> forall j :: 0 <= j < r.value ==> nameOf(xs[j]) != name
  {
    if xs == [] then None
    else if nameOf(xs[0]) == name then Some(0)
    else
      var rest := FirstNamed(xs[1..], nameOf, name);
      assert forall i :: 1 <= i < |xs| ==> xs[i] == xs[1..][i - 1];
      if rest.None? then None else Some(rest.value + 1)
  }

  /** A name found in a prefix is found there, whatever follows it. */
  lemma {:induction false} FirstNamedInPrefix<T>(xs: seq<T>, ys: seq<T>, nameOf: T -> string, name: string)
    requires FirstNamed(xs, nameOf, name).Some?
    ensures FirstNamed(xs + ys, nameOf, name) == FirstNamed(xs, nameOf, name)
  {
    if nameOf(xs[0]) != name {
      assert (xs + ys)[0] == xs[0];
      assert (xs + ys)[1..] == xs[1..] + ys;
      FirstNamedInPrefix(xs[1..], ys, nameOf, name);
    }
  }

  function TypeName(t: ResourceType): string { t.name }
  function ResourceName(r: Resource): string { r.name }
  function JobName(j: Job): string { j.name }

  /** The parts a loaded pipeline is assembled from. */
  datatype Parts = Parts(resourceTypes: seq<ResourceType>, resources: seq<Resource>, jobs: seq<Job>)

  /** A loaded pipeline; `LoadPipeline` fills its lists in config order. */
  class Pipeline {
    var concourse: Concourse
    var resourceTypes: seq<ResourceType>
    var resources: seq<Resource>
    var jobs: seq<Job>

    constructor(c: Concourse, parts: Parts)
      ensures concourse == c && Contents() == parts
    {
      concourse := c;
      resourceTypes := parts.resourceTypes;
      resources := parts.resources;
      jobs := parts.jobs;
    }

    function Contents(): Parts
      reads this
    {
      Parts(resourceTypes, resources, jobs)
    }

    /**
     * `ResourceType(name)`: a copy of the first resource type of that name,
     * pointing back at this pipeline, or none.
     */
    function ResourceTypeNamed(name: string): (r: Option<ResourceType>)
      reads this
      ensures r.None? <==> forall i :: 0 <= i < |resourceTypes| ==> resourceTypes[i].name != name
      ensures r.Some? ==>
        exists i :: 0 <= i < |resourceTypes| && resourceTypes[i].name == name &&
          (forall j :: 0 <= j < i ==> resourceTypes[j].name != name) &&
          r.value == resourceTypes[i].(pipeline := Some(this))
    {
      var i := FirstNamed(resourceTypes, TypeName, name);
      if i.None? then None else Some(resourceTypes[i.value].(pipeline := Some(this)))
    }

    /** `Job(name)`: a copy of the first job of that name, pointing back at this pipeline, or none. */
    function JobNamed(name: string): (r: Option<Job>)
      reads this
      ensures r.None? <==> forall i :: 0 <= i < |jobs| ==> jobs[i].name != name
      ensures r.Some? ==>
        exists i :: 0 <= i < |jobs| && jobs[i].name == name &&
          (forall j :: 0 <= j < i ==> jobs[j].name != name) &&
          r.value == jobs[i].(pipeline := Some(this))
    {
      var i := FirstNamed(jobs, JobName, name);
      if i.None? then None else Some(jobs[i.value].(pipeline := Some(this)))
    }

    /**
     * `Resource(name)`: a copy of the first resource of that name, pointing
     * back at the pipeline's module value, or none.
     */
    function ResourceNamed(name: string): (r: Option<Resource>)
      reads this
      ensures r.None? <==> forall i :: 0 <= i < |resources| ==> resources[i].name != name
      ensures r.Some? ==>
        exists i :: 0 <= i < |resources| && resources[i].name == name &&
          (forall j :: 0 <= j < i ==> resources[j].name != name) &&
          r.value == resources[i].(concourse := Some(concourse))
    {
      var i := FirstNamed(resources, ResourceName, name);
      if i.None? then None else Some(resources[i.value].(concourse := Some(concourse)))
    }
  }

  /** A resource type declared by a pipeline config: its name, its base type, and how to fetch its image. */
  datatype ResourceTypeConfig = ResourceTypeConfig(name: string, baseType: string, source: Json, params: Json)

  /** A resource declared by a pipeline config. */
  datatype ResourceConfig = ResourceConfig(name: string, typeName: string, source: Json)

  /** A job declared by a pipeline config, with its whole config as JSON. */
  datatype JobConfig = JobConfig(name: string, config: Json)

  /** A parsed pipeline config. */
  datatype Config = Config(resourceTypes: seq<ResourceTypeConfig>, resources: seq<ResourceConfig>, jobs: seq<JobConfig>)

  /** How loading ends: a value, an error, or a panic on a nil pointer. */
  datatype Load<+T> = Done(value: T) | Fail(err: Error) | Panic

  /**
   * `imageResource` as the outside world answers it: the image of a
   * configured resource type, checked and fetched with its base type's
   * container.
   */
  type ImageFetch = (Container, ResourceTypeConfig) -> Result<Container>

  /**
   * The resource-type loop from the list `types` on: each configured type is
   * appended after the ones before it, built on the first type named like
   * its base type; an unknown base type dereferences nil.
   */
  function InstallAfter(types: seq<ResourceType>, rest: seq<ResourceTypeConfig>, image: ImageFetch)
    : (r: Load<seq<ResourceType>>)
    ensures r.Done? ==> |r.value| == |types| + |rest| && r.value[..|types|] == types
    ensures r.Done? ==> forall j :: 0 <= j < |rest| ==>
      r.value[|types| + j].name == rest[j].name && r.value[|types| + j].pipeline.None?
    decreases |rest|
  {
    if rest == [] then Done(types)
    else
      var base := FirstNamed(types, TypeName, rest[0].baseType);
      if base.None? then Panic
      else
        match image(types[base.value].container, rest[0])
        case Err(e) => Fail(Wrapped("install resource type " + rest[0].name, e))
        case Ok(ctr) =>
          var r := InstallAfter(types + [ResourceType(None, rest[0].name, ctr)], rest[1..], image);
          assert r.Done? ==> forall j :: 1 <= j < |rest| ==> rest[j] == rest[1..][j - 1];
          assert r.Done? ==> r.value[..|types|] == (r.value[..|types| + 1])[..|types|];
          r
  }

  /** The resource a config entry becomes, run by the first type of its type name; none if that type is unknown. */
  function ResourceOf(types: seq<ResourceType>, cfg: ResourceConfig): (r: Option<Resource>)
    ensures r.None? <==> forall i :: 0 <= i < |types| ==> types[i].name != cfg.typeName
    ensures r.Some? ==> r.value.name == cfg.name && r.value.source == cfg.source && r.value.concourse.None?
  {
    var t := FirstNamed(types, TypeName, cfg.typeName);
    if t.None? then None else Some(Resource(None, cfg.name, types[t.value].container, cfg.source))
  }

  /** The resource loop after `done`: each entry appended in order, the first unknown type ending it. */
  function ResourcesAfter(types: seq<ResourceType>, done: seq<Resource>, rest: seq<ResourceConfig>)
    : (r: Result<seq<Resource>>)
    ensures r.Ok? ==> |r.value| == |done| + |rest| && r.value[..|done|] == done
    ensures r.Ok? ==> forall j :: 0 <= j < |rest| ==> ResourceOf(types, rest[j]) == Some(r.value[|done| + j])
    decreases |rest|
  {
    if rest == [] then Ok(done)
    else
      match ResourceOf(types, rest[0])
      case None => Err(Failure("unknown resource type: " + rest[0].typeName))
      case Some(res) =>
        var r := ResourcesAfter(types, done + [res], rest[1..]);
        assert forall j :: 1 <= j < |rest| ==> rest[j] == rest[1..][j - 1];
        assert r.Ok? ==> r.value[..|done|] == (r.value[..|done| + 1])[..|done|];
        r
  }

  /** The resource loop fails exactly when some entry's type is unknown. */
  lemma {:induction false} ResourcesFailOnUnknown(types: seq<ResourceType>, done: seq<Resource>, rest: seq<ResourceConfig>)
    ensures ResourcesAfter(types, done, rest).Err? <==> exists j :: 0 <= j < |rest| && ResourceOf(types, rest[j]).None?
    decreases |rest|
  {
    if rest != [] && ResourceOf(types, rest[0]).Some? {
      ResourcesFailOnUnknown(types, done + [ResourceOf(types, rest[0]).value], rest[1..]);
      assert forall j :: 1 <= j < |rest| ==> rest[j] == rest[1..][j - 1];
    }
  }

  /** A failing resource loop names the type of the first entry whose type is unknown. */
  lemma {:induction false} ResourcesFailAtFirstUnknown(types: seq<ResourceType>, done: seq<Resource>, rest: seq<ResourceConfig>)
    requires ResourcesAfter(types, done, rest).Err?
    ensures
      exists j :: 0 <= j < |rest| && ResourceOf(types, rest[j]).None? &&
        (forall k :: 0 <= k < j ==> ResourceOf(types, rest[k]).Some?) &&
        ResourcesAfter(types, done, rest).error == Failure("unknown resource type: " + rest[j].typeName)
    decreases |rest|
  {
    if ResourceOf(types, rest[0]).None? {
      assert ResourcesAfter(types, done, rest).error == Failure("unknown resource type: " + rest[0].typeName);
    } else {
      var tail := rest[1..];
      ResourcesFailAtFirstUnknown(types, done + [ResourceOf(types, rest[0]).value], tail);
      var j :| 0 <= j < |tail| && ResourceOf(types, tail[j]).None? &&
        (forall k :: 0 <= k < j ==> ResourceOf(types, tail[k]).Some?) &&
        ResourcesAfter(types, done, rest).error == Failure("unknown resource type: " + tail[j].typeName);
      assert forall k :: 1 <= k <= j + 1 ==> rest[k] == tail[k - 1];
    }
  }

  /** The job a config entry becomes: its name and its config. */
  function JobOf(cfg: JobConfig): (j: Job)
    ensures j.name == cfg.name && j.config == cfg.config && j.pipeline.None?
  {
    Job(None, cfg.name, cfg.config)
  }

  /** The whole assembly after validation: resource types, then resources, then jobs. */
  function Assemble(c: Concourse, cfg: Config, image: ImageFetch): Load<Parts> {
    match InstallAfter(c.resourceTypes, cfg.resourceTypes, image)
    case Panic => Panic
    case Fail(e) => Fail(e)
    case Done(types) =>
      match ResourcesAfter(types, [], cfg.resources)
      case Err(e) => Fail(e)
      case Ok(resources) => Done(Parts(types, resources, seq(|cfg.jobs|, i requires 0 <= i < |cfg.jobs| => JobOf(cfg.jobs[i]))))
  }

  /**
   * `LoadPipeline` end to end: the file is read and parsed, any validation
   * error rejects the config as a whole, and otherwise it is assembled.
   */
  function LoadOutcome(c: Concourse, contents: Result<string>, parse: string -> Result<Config>,
                       validate: Config -> seq<string>, image: ImageFetch): Load<Parts> {
    if contents.Err? then Fail(Wrapped("read config file", contents.error))
    else if parse(contents.value).Err? then Fail(Wrapped("malformed config", parse(contents.value).error))
    else if |validate(parse(contents.value).value)| > 0 then Fail(Failure("invalid pipeline"))
    else Assemble(c, parse(contents.value).value, image)
  }

  /** The resource-type loop of `LoadPipeline`, appending to the pipeline's own list. */
  method InstallResourceTypes(p: Pipeline, cfgs: seq<ResourceTypeConfig>, image: ImageFetch) returns (r: Load<seq<ResourceType>>)
    modifies p
    ensures r == InstallAfter(old(p.resourceTypes), cfgs, image)
    ensures r.Done? ==> p.resourceTypes == r.value
    ensures p.concourse == old(p.concourse) && p.resources == old(p.resources) && p.jobs == old(p.jobs)
  {
    var i := 0;
    while i < |cfgs|
      invariant 0 <= i <= |cfgs|
      invariant InstallAfter(old(p.resourceTypes), cfgs, image) == InstallAfter(p.resourceTypes, cfgs[i..], image)
      invariant p.concourse == old(p.concourse) && p.resources == old(p.resources) && p.jobs == old(p.jobs)
    {
      var rt := cfgs[i];
      assert cfgs[i..][0] == rt && cfgs[i..][1..] == cfgs[i + 1..];
      var base := p.ResourceTypeNamed(rt.baseType);
      if base.None? {
        return Panic;
      }
      var ctr := image(base.value.container, rt);
      if ctr.Err? {
        return Fail(Wrapped("install resource type " + rt.name, ctr.error));
      }
      p.resourceTypes := p.resourceTypes + [ResourceType(None, rt.name, ctr.value)];
      i := i + 1;
    }
    r := Done(p.resourceTypes);
  }

  /** The resource loop of `LoadPipeline`. */
  method AddResources(p: Pipeline, cfgs: seq<ResourceConfig>) returns (err: Option<Error>)
    modifies p
    ensures var spec := ResourcesAfter(p.resourceTypes, old(p.resources), cfgs);
      && (err.None? <==> spec.Ok?)
      && (spec.Err? ==> err == Some(spec.error))
      && (spec.Ok? ==> p.resources == spec.value)
    ensures p.concourse == old(p.concourse) && p.resourceTypes == old(p.resourceTypes) && p.jobs == old(p.jobs)
  {
    var i := 0;
    while i < |cfgs|
      invariant 0 <= i <= |cfgs|
      invariant p.concourse == old(p.concourse) && p.resourceTypes == old(p.resourceTypes) && p.jobs == old(p.jobs)
      invariant ResourcesAfter(p.resourceTypes, old(p.resources), cfgs) == ResourcesAfter(p.resourceTypes, p.resources, cfgs[i..])
    {
      var res := cfgs[i];
      assert cfgs[i..][0] == res && cfgs[i..][1..] == cfgs[i + 1..];
      var t := p.ResourceTypeNamed(res.typeName);
      if t.None? {
        return Some(Failure("unknown resource type: " + res.typeName));
      }
      p.resources := p.resources + [Resource(None, res.name, t.value.container, res.source)];
      i := i + 1;
    }
    err := None;
  }

  /** The job loop of `LoadPipeline`. */
  method AddJobs(p: Pipeline, cfgs: seq<JobConfig>)
    modifies p
    ensures p.jobs == old(p.jobs) + seq(|cfgs|, i requires 0 <= i < |cfgs| => JobOf(cfgs[i]))
    ensures p.concourse == old(p.concourse) && p.resourceTypes == old(p.resourceTypes) && p.resources == old(p.resources)
  {
    var i := 0;
    while i < |cfgs|
      invariant 0 <= i <= |cfgs|
      invariant p.jobs == old(p.jobs) + seq(i, k requires 0 <= k < i => JobOf(cfgs[k]))
      invariant p.concourse == old(p.concourse) && p.resourceTypes == old(p.resourceTypes) && p.resources == old(p.resources)
    {
      p.jobs := p.jobs + [JobOf(cfgs[i])];
      i := i + 1;
    }
  }

  /**
   * `LoadPipeline`: a fresh pipeline over the module's resource types,
   * filled by the three loops, or the first error (or panic) on the way.
   */
  method LoadPipeline(c: Concourse, contents: Result<string>, parse: string -> Result<Config>,
                      validate: Config -> seq<string>, image: ImageFetch) returns (r: Load<Pipeline>)
    ensures r.Panic? <==> LoadOutcome(c, contents, parse, validate, image).Panic?
    ensures r.Fail? <==> LoadOutcome(c, contents, parse, validate, image).Fail?
    ensures r.Fail? ==> r.err == LoadOutcome(c, contents, parse, validate, image).err
    ensures r.Done? ==>
      fresh(r.value) && r.value.concourse == c &&
      r.value.Contents() == LoadOutcome(c, contents, parse, validate, image).value
  {
    if contents.Err? {
      return Fail(Wrapped("read config file", contents.error));
    }
    var parsed := parse(contents.value);
    if parsed.Err? {
      return Fail(Wrapped("malformed config", parsed.error));
    }
    var cfg := parsed.value;
    if |validate(cfg)| > 0 {
      return Fail(Failure("invalid pipeline"));
    }
    var pipeline := new Pipeline(c, Parts(c.resourceTypes, [], []));
    var installed := InstallResourceTypes(pipeline, cfg.resourceTypes, image);
    if installed.Panic? {
      return Panic;
    } else if installed.Fail? {
      return Fail(installed.err);
    }
    var err := AddResources(pipeline, cfg.resources);
    if err.Some? {
      return Fail(err.value);
    }
    AddJobs(pipeline, cfg.jobs);
    r := Done(pipeline);
  }

  /** Any validation error rejects the whole config, before any resource type is installed. */
  lemma InvalidConfigRejected(c: Concourse, contents: string, parse: string -> Result<Config>,
                              validate: Config -> seq<string>, image: ImageFetch)
    requires parse(contents).Ok? && validate(parse(contents).value) != []
    ensures LoadOutcome(c, Ok(contents), parse, validate, image) == Fail(Failure("invalid pipeline"))
  {
  }

  /**
   * A loaded pipeline keeps the module's resource types first and then the
   * configured ones, and its resources and jobs in config order.
   */
  lemma LoadedPipelineKeepsConfigOrder(c: Concourse, cfg: Config, image: ImageFetch)
    requires Assemble(c, cfg, image).Done?
    ensures var parts := Assemble(c, cfg, image).value;
      && |parts.resourceTypes| == |c.resourceTypes| + |cfg.resourceTypes|
      && parts.resourceTypes[..|c.resourceTypes|] == c.resourceTypes
      && (forall j :: 0 <= j < |cfg.resourceTypes| ==> parts.resourceTypes[|c.resourceTypes| + j].name == cfg.resourceTypes[j].name)
      && |parts.resources| == |cfg.resources|
      && (forall j :: 0 <= j < |cfg.resources| ==> parts.resources[j].name == cfg.resources[j].name)
      && |parts.jobs| == |cfg.jobs|
      && (forall j :: 0 <= j < |cfg.jobs| ==> parts.jobs[j].name == cfg.jobs[j].name)
  {
    var types := InstallAfter(c.resourceTypes, cfg.resourceTypes, image).value;
    var resources := ResourcesAfter(types, [], cfg.resources).value;
    forall j | 0 <= j < |cfg.resources|
      ensures resources[j].name == cfg.resources[j].name
    {
      assert ResourceOf(types, cfg.resources[j]) == Some(resources[0 + j]);
    }
  }

  /**
   * A configured resource type named like one of the module's types is
   * shadowed: lookups in the loaded pipeline find the module's type.
   */
  lemma ModuleTypesShadowConfigTypes(c: Concourse, cfg: Config, image: ImageFetch, name: string)
    requires Assemble(c, cfg, image).Done?
    requires exists i :: 0 <= i < |c.resourceTypes| && c.resourceTypes[i].name == name
    ensures var types := Assemble(c, cfg, image).value.resourceTypes;
      FirstNamed(types, TypeName, name) == FirstNamed(c.resourceTypes, TypeName, name)
  {
    var types := InstallAfter(c.resourceTypes, cfg.resourceTypes, image).value;
    assert types == c.resourceTypes + types[|c.resourceTypes|..];
    FirstNamedInPrefix(c.resourceTypes, types[|c.resourceTypes|..], TypeName, name);
  }

  /** A resource of a type neither built in nor configured fails the load with "unknown resource type". */
  lemma UnknownResourceTypeRejected(c: Concourse, cfg: Config, image: ImageFetch, j: nat)
    requires InstallAfter(c.resourceTypes, cfg.resourceTypes, image).Done?
    requires j < |cfg.resources|
    requires forall t :: t in InstallAfter(c.resourceTypes, cfg.resourceTypes, image).value ==> t.name != cfg.resources[j].typeName
    ensures Assemble(c, cfg, image).Fail?
    ensures
      exists k :: 0 <= k <= j &&
        Assemble(c, cfg, image).err == Failure("unknown resource type: " + cfg.resources[k].typeName)
  {
    var types := InstallAfter(c.resourceTypes, cfg.resourceTypes, image).value;
    assert ResourceOf(types, cfg.resources[j]).None?;
    ResourcesFailOnUnknown(types, [], cfg.resources);
    ResourcesFailAtFirstUnknown(types, [], cfg.resources);
  }

  /** The request a check sends on stdin: always the source, and the cursor version only when there is one. */
  function CheckRequest(source: Json, from: Json): (req: map<string, Json>)
    ensures "source" in req && req["source"] == source
    ensures "version" in req <==> from != ""
    ensures from != "" ==> req["version"] == from
    ensures forall k :: k in req ==> k == "source" || k == "version"
  {
    if from == "" then map["source" := source] else map["source" := source, "version" := from]
  }

  /**
   * What the check script answers for a request, in its container: the
   * elements of the JSON array it prints, or the error of running it or of
   * parsing what it printed.
   */
  type CheckRun = (Container, map<string, Json>) -> Result<seq<Json>>

  /**
   * `Resource.Check(from)`: the interpolated source (or its error) goes into
   * the request; each element of the response becomes one version of this
   * resource, in order.
   */
  method Check(r: Resource, from: Json, interpolated: Result<Json>, run: CheckRun) returns (vs: Result<seq<ResourceVersion>>)
    ensures interpolated.Err? ==> vs == Err(Wrapped("interpolate resource vars", interpolated.error))
    ensures interpolated.Ok? && run(r.container, CheckRequest(interpolated.value, from)).Err? ==>
      vs == Err(run(r.container, CheckRequest(interpolated.value, from)).error)
    ensures interpolated.Ok? && run(r.container, CheckRequest(interpolated.value, from)).Ok? ==>
      var out := run(r.container, CheckRequest(interpolated.value, from)).value;
      vs.Ok? && |vs.value| == |out| &&
      forall i :: 0 <= i < |out| ==> vs.value[i] == ResourceVersion(r.name, out[i])
  {
    if interpolated.Err? {
      return Err(Wrapped("interpolate resource vars", interpolated.error));
    }
    var req := CheckRequest(interpolated.value, from);
    var stdout := run(r.container, req);
    if stdout.Err? {
      return Err(stdout.error);
    }
    var out := stdout.value;
    var versions: seq<ResourceVersion> := [];
    var i := 0;
    while i < |out|
      invariant 0 <= i <= |out|
      invariant |versions| == i
      invariant forall k :: 0 <= k < i ==> versions[k] == ResourceVersion(r.name, out[k])
    {
      versions := versions + [ResourceVersion(r.name, out[i])];
      i := i + 1;
    }
    vs := Ok(versions);
  }

  /** A name as Go's `%q` prints it, for names without characters that need escaping. */
  function Quoted(name: string): (q: string)
    ensures |q| == |name| + 2 && q[0] == '"' && q[|q| - 1] == '"' && q[1..|q| - 1] == name
  {
    "\"" + name + "\""
  }

  /**
   * `Resource.LatestVersion`: the last version a check from no cursor
   * returns; an error when it returns none.
   */
  function LatestVersion(r: Resource, checked: Result<seq<ResourceVersion>>): (v: Result<ResourceVersion>)
    ensures checked.Err? ==> v == Err(checked.error)
    ensures checked.Ok? && checked.value == [] ==> v == Err(Failure("resource " + Quoted(r.name) + ": no versions found"))
    ensures checked.Ok? && v.Ok? ==> v.value in checked.value
    ensures checked.Ok? && checked.value != [] ==> v == Ok(checked.value[|checked.value| - 1])
  {
    if checked.Err? then Err(checked.error)
    else if |checked.value| == 0 then Err(Failure("resource " + Quoted(r.name) + ": no versions found"))
    else Ok(checked.value[|checked.value| - 1])
  }

  /**
   * The latest version is the one version a resource stream keeps when it
   * checks from no cursor: `LatestVersion` and `finiteStream("")` agree.
   */
  lemma LatestVersionIsWhatAnEmptyCursorKeeps(r: Resource, vs: seq<ResourceVersion>)
    requires vs != []
    ensures FiniteLoad("", Ok(vs)) == Ok([LatestVersion(r, Ok(vs)).value])
  {
  }

  /** A value decoded from YAML: strings, other scalars, lists, maps with keys of any kind, and maps with string keys. */
  datatype Value =
    | Str(s: string)
    | Scalar(text: string)
    | List(items: seq<Value>)
    | AnyMap(entries: seq<Entry>)
    | StringMap(fields: seq<Field>)

  /** An entry of a map whose keys may be any value. */
  datatype Entry = Entry(key: Value, val: Value)

  /** An entry of a map with string keys. */
  datatype Field = Field(name: string, val: Value)

  /**
   * `itsSymbolsVsStringKeysAllOverAgain`: every map with keys of any kind
   * becomes a map with string keys, recursively; lists are rewritten element
   * by element; anything else, a string-keyed map included, is returned as
   * it is. None is the panic of a key that is not a string.
   */
  function Normalize(v: Value): (r: Option<Value>)
    ensures r.Some? && v.AnyMap? ==> r.value.StringMap? && |r.value.fields| == |v.entries|
    ensures r.Some? && v.List? ==> r.value.List? && |r.value.items| == |v.items|
    ensures !v.AnyMap? && !v.List? ==> r == Some(v)
    decreases v, 1
  {
    match v
    case AnyMap(_) =>
      var fields := NormalizeEntries(v, 0);
      if fields.None? then None else Some(StringMap(fields.value))
    case List(_) =>
      var items := NormalizeItems(v, 0);
      if items.None? then None else Some(List(items.value))
    case _ => Some(v)
  }

  /** The map loop from entry `i` on: each key must be a string; each value is normalised. */
  function NormalizeEntries(m: Value, i: nat): (r: Option<seq<Field>>)
    requires m.AnyMap? && i <= |m.entries|
    ensures r.Some? ==> |r.value| == |m.entries| - i
    ensures r.Some? ==> forall k :: 0 <= k < |r.value| ==>
      m.entries[i + k].key == Str(r.value[k].name) && Normalize(m.entries[i + k].val) == Some(r.value[k].val)
    decreases m, 0, |m.entries| - i
  {
    if i == |m.entries| then Some([])
    else
      var e := m.entries[i];
      if !e.key.Str? then None
      else
        match (Normalize(e.val), NormalizeEntries(m, i + 1))
        case (Some(x), Some(rest)) => Some([Field(e.key.s, x)] + rest)
        case _ => None
  }

  /** The list loop from element `i` on: each element is normalised. */
  function NormalizeItems(l: Value, i: nat): (r: Option<seq<Value>>)
    requires l.List? && i <= |l.items|
    ensures r.Some? ==> |r.value| == |l.items| - i
    ensures r.Some? ==> forall k :: 0 <= k < |r.value| ==> Normalize(l.items[i + k]) == Some(r.value[k])
    decreases l, 0, |l.items| - i
  {
    if i == |l.items| then Some([])
    else
      match (Normalize(l.items[i]), NormalizeItems(l, i + 1))
      case (Some(x), Some(rest)) => Some([x] + rest)
      case _ => None
  }

  /** A value as YAML decoding produces it: no map with string keys anywhere. */
  predicate YamlShaped(v: Value) {
    match v
    case StringMap(_) => false
    case List(items) => forall i :: 0 <= i < |items| ==> YamlShaped(items[i])
    case AnyMap(entries) => forall i :: 0 <= i < |entries| ==> YamlShaped(entries[i].key) && YamlShaped(entries[i].val)
    case _ => true
  }

  /** A value JSON can encode as it is: no map with keys of any kind anywhere. */
  predicate Clean(v: Value) {
    match v
    case AnyMap(_) => false
    case List(items) => forall i :: 0 <= i < |items| ==> Clean(items[i])
    case StringMap(fields) => forall i :: 0 <= i < |fields| ==> Clean(fields[i].val)
    case _ => true
  }

  /** Some map the conversion reaches has a key that is not a string. */
  predicate BadKey(v: Value) {
    match v
    case AnyMap(entries) => exists i :: 0 <= i < |entries| && (!entries[i].key.Str? || BadKey(entries[i].val))
    case List(items) => exists i :: 0 <= i < |items| && BadKey(items[i])
    case _ => false
  }

  /** Normalising YAML leaves no map with keys of any kind. */
  lemma {:induction false} NormalizeRemovesAnyMaps(v: Value)
    requires YamlShaped(v) && Normalize(v).Some?
    ensures Clean(Normalize(v).value)
    decreases v
  {
    var w := Normalize(v).value;
    match v
    case AnyMap(entries) =>
      var fields := NormalizeEntries(v, 0).value;
      forall k | 0 <= k < |fields|
        ensures Clean(fields[k].val)
      {
        assert Normalize(entries[0 + k].val) == Some(fields[k].val);
        NormalizeRemovesAnyMaps(entries[k].val);
      }
    case List(items) =>
      var xs := NormalizeItems(v, 0).value;
      forall k | 0 <= k < |xs|
        ensures Clean(xs[k])
      {
        assert Normalize(items[0 + k]) == Some(xs[k]);
        NormalizeRemovesAnyMaps(items[k]);
      }
    case _ =>
  }

  /** The conversion panics exactly when it reaches a key that is not a string. */
  lemma {:induction false} NormalizePanicsOnBadKey(v: Value)
    ensures Normalize(v).None? <==> BadKey(v)
    decreases v, 1
  {
    match v
    case AnyMap(entries) => EntriesPanicOnBadKey(v, 0);
    case List(items) => ItemsPanicOnBadKey(v, 0);
    case _ =>
  }

  lemma {:induction false} EntriesPanicOnBadKey(m: Value, i: nat)
    requires m.AnyMap? && i <= |m.entries|
    ensures NormalizeEntries(m, i).None? <==>
      exists k :: i <= k < |m.entries| && (!m.entries[k].key.Str? || BadKey(m.entries[k].val))
    decreases m, 0, |m.entries| - i
  {
    if i < |m.entries| {
      NormalizePanicsOnBadKey(m.entries[i].val);
      EntriesPanicOnBadKey(m, i + 1);
    }
  }

  lemma {:induction false} ItemsPanicOnBadKey(l: Value, i: nat)
    requires l.List? && i <= |l.items|
    ensures NormalizeItems(l, i).None? <==> exists k :: i <= k < |l.items| && BadKey(l.items[k])
    decreases l, 0, |l.items| - i
  {
    if i < |l.items| {
      NormalizePanicsOnBadKey(l.items[i]);
      ItemsPanicOnBadKey(l, i + 1);
    }
  }

  /** Normalising is idempotent: what it returns it returns unchanged. */
  lemma {:induction false} NormalizeIdempotent(v: Value)
    requires Normalize(v).Some?
    ensures Normalize(Normalize(v).value) == Normalize(v)
    decreases v
  {
    if v.List? {
      var xs := NormalizeItems(v, 0).value;
      forall k | 0 <= k < |xs|
        ensures Normalize(xs[k]) == Some(xs[k])
      {
        assert Normalize(v.items[0 + k]) == Some(xs[k]);
        NormalizeIdempotent(v.items[k]);
      }
      FixedItems(List(xs), 0);
      assert xs[0..] == xs;
    }
  }

  /** A list of values normalising to themselves normalises to itself. */
  lemma {:induction false} FixedItems(l: Value, i: nat)
    requires l.List? && i <= |l.items|
    requires forall k :: 0 <= k < |l.items| ==> Normalize(l.items[k]) == Some(l.items[k])
    ensures NormalizeItems(l, i) == Some(l.items[i..])
    decreases |l.items| - i
  {
    if i < |l.items| {
      FixedItems(l, i + 1);
      assert Normalize(l.items[i]) == Some(l.items[i]);
      assert NormalizeItems(l, i) == Some([l.items[i]] + l.items[i + 1..]);
      assert l.items[i..] == [l.items[i]] + l.items[i + 1..];
    } else {
      assert l.items[i..] == [];
    }
  }
}
