/**
 * The build-step interpreter (concourse/build.go): a build walks a step tree,
 * keeping the directories that `get` steps fetch in an asset store that later
 * `task` steps mount.
 *
 * Containers, checks, fetches and config files are outside the model: an
 * `Env` says what each of them yields. `Exec` is the meaning of a step as a
 * function of the asset store; `Visit` is the interpreter that runs it
 * against a `BuildState`, and is proved to agree with `Exec`.
 */
module Builds {
  import opened Errors
  import opened Resources

  /** A directory handed out by the container engine. */
  datatype Dir = Dir(id: nat)

  /** `BuildState.Assets`: nil until the first asset is stored. */
  type Assets = Option<map<string, Dir>>

  /** `BuildState.Asset` on a store: not found when the map is nil or lacks the name. */
  function Lookup(assets: Assets, name: string): (dir: Option<Dir>)
    ensures assets.None? ==> dir.None?
    ensures assets.Some? && name !in assets.value ==> dir.None?
    ensures assets.Some? && name in assets.value ==> dir == Some(assets.value[name])
  {
    if assets.Some? && name in assets.value then Some(assets.value[name]) else None
  }

  /** `BuildState.StoreAsset` on a store: the map is created if nil, then `name` is bound to `dir`. */
  function Store(assets: Assets, name: string, dir: Dir): (r: Assets)
    ensures r.Some? && r.value.Keys == (if assets.Some? then assets.value.Keys else {}) + {name}
  {
    Some((if assets.Some? then assets.value else map[])[name := dir])
  }

  /** What is stored can be looked up, and storing leaves every other name as it was. */
  lemma StoreThenLookup(assets: Assets, name: string, dir: Dir, other: string)
    ensures Lookup(Store(assets, name, dir), name) == Some(dir)
    ensures other != name ==> Lookup(Store(assets, name, dir), other) == Lookup(assets, other)
  {
  }

  class BuildState {
    var assets: Assets

    /** A fresh build's state, with no asset map yet. */
    constructor ()
      ensures assets == None
    {
      assets := None;
    }

    /** `BuildState.Asset`. */
    method Asset(name: string) returns (dir: Option<Dir>)
      ensures dir == Lookup(assets, name)
    {
      if assets.None? {
        return None;
      }
      if name in assets.value {
        return Some(assets.value[name]);
      }
      return None;
    }

    /** `BuildState.StoreAsset`. */
    method StoreAsset(name: string, dir: Dir)
      modifies this
      ensures assets == Store(old(assets), name, dir)
    {
      if assets.None? {
        assets := Some(map[]);
      }
      assets := Some(assets.value[name := dir]);
    }
  }

  /** An image resource of a task config: its type, source and params. */
  datatype ImageResource = ImageResource(kind: string, source: Json, params: Json)

  /** A task input: the asset it mounts and where ("" means at its name). */
  datatype TaskInput = TaskInput(name: string, path: string)

  datatype TaskConfig = TaskConfig(imageResource: Option<ImageResource>, rootfsUri: string, inputs: seq<TaskInput>)

  /** A task step: an inline config or a `config_path` into an asset, and an optional image artifact. */
  datatype TaskStep = TaskStep(name: string, configPath: string, config: Option<TaskConfig>, imageArtifact: string)

  /** The image a task runs in: from an image resource, or from an asset (nil when there is none). */
  datatype Image = FromResource(resource: ImageResource) | FromArtifact(dir: Option<Dir>)

  /** A task input mounted at a path. */
  datatype Mount = Mount(path: string, dir: Dir)

  /** The `version:` of a get step. */
  datatype VersionConfig = Latest | Every | Pinned(version: Json) | Unset

  /**
   * A get step. `resource` is the step's resource name as atc resolves it:
   * the step's own name when `resource:` is left empty. It names the
   * resource both for a pinned version and for the latest-version check.
   */
  datatype GetStep = GetStep(name: string, resource: string, version: Option<VersionConfig>, params: Json)

  /** The steps whose visitors do nothing: put, run, set_pipeline and load_var. */
  datatype NoOpKind = PutStep | RunStep | SetPipelineStep | LoadVarStep

  /** The step modifiers that run a hook step after the step they wrap. */
  datatype HookKind = OnSuccessHook | OnFailureHook | OnAbortHook | OnErrorHook | EnsureHook

  datatype Step =
    | Task(task: TaskStep)
    | Get(get: GetStep)
    | NoOp(kind: NoOpKind, name: string)
    | Try(step: Step)
    | Do(steps: seq<Step>)
    | Hooked(hookKind: HookKind, step: Step, hook: Step)
    | PassThrough(wrapper: PassThroughKind, step: Step)

  /** The step modifiers whose visitors only open a tracing span and visit the step they wrap. */
  datatype PassThroughKind = Across | Timeout | Retry

  function OnSuccess(s: Step, hook: Step): Step { Hooked(OnSuccessHook, s, hook) }
  function OnFailure(s: Step, hook: Step): Step { Hooked(OnFailureHook, s, hook) }
  function OnAbort(s: Step, hook: Step): Step { Hooked(OnAbortHook, s, hook) }
  function OnError(s: Step, hook: Step): Step { Hooked(OnErrorHook, s, hook) }
  function Ensure(s: Step, hook: Step): Step { Hooked(EnsureHook, s, hook) }

  /**
   * Everything a build consults outside the model: the job's input versions,
   * whether the build's context is done, and what reading a task config file,
   * preparing an image, running a task, finding a resource's latest version,
   * fetching a version and syncing a fetched directory yield.
   */
  datatype Env = Env(
    inputs: map<string, ResourceVersion>,
    aborted: bool,
    loadConfig: (Dir, string) -> Result<TaskConfig>,
    prepareImage: Image -> Option<Error>,
    runTask: (TaskStep, Image, seq<Mount>) -> Option<Error>,
    latest: string -> Result<ResourceVersion>,
    fetch: (ResourceVersion, Json) -> Result<Dir>,
    sync: Dir -> Option<Error>)

  /** The error a step returned, and the asset store afterwards. */
  datatype Outcome = Outcome(err: Option<Error>, assets: Assets)

  /** `strings.Cut(s, "/")`: the text before and after the first "/", if there is one. */
  function Cut(s: string): (r: Option<(string, string)>)
    ensures r.None? <==> '/' !in s
    ensures r.Some? ==> '/' !in r.value.0 && s == r.value.0 + "/" + r.value.1
  {
    if s == [] then None
    else if s[0] == '/' then Some(([], s[1..]))
    else
      match Cut(s[1..])
      case None => None
      case Some((before, after)) => Some(([s[0]] + before, after))
  }

  /** The config of a task step: read from `config_path` in an asset, or inline, or empty. */
  function TaskConfigOf(env: Env, step: TaskStep, assets: Assets): Result<TaskConfig>
  {
    if step.configPath != "" then
      match Cut(step.configPath)
      case None => Err(Failure("invalid config path: " + step.configPath))
      case Some((input, sub)) =>
        match Lookup(assets, input)
        case None => Err(Failure("undefined asset: " + input))
        case Some(dir) => env.loadConfig(dir, sub)
    else if step.config.Some? then Ok(step.config.value)
    else Ok(TaskConfig(None, "", []))
  }

  /**
   * The image of a task: the config's image resource first, then the image
   * artifact (looked up without a found check), then a rootfs URI, which is
   * rejected, and otherwise none at all, which is an error too.
   */
  function TaskImage(step: TaskStep, cfg: TaskConfig, assets: Assets): Result<Image>
  {
    if cfg.imageResource.Some? then Ok(FromResource(cfg.imageResource.value))
    else if step.imageArtifact != "" then Ok(FromArtifact(Lookup(assets, step.imageArtifact)))
    else if cfg.rootfsUri != "" then Err(Failure("rootfs uri not supported"))
    else Err(Failure("no image specified"))
  }

  /** Where an input is mounted: its path, or its name when the path is empty. */
  function MountPath(input: TaskInput): string {
    if input.path == "" then input.name else input.path
  }

  /** The mounts of a task's inputs, or the error for the first input without an asset. */
  function Mounts(inputs: seq<TaskInput>, assets: Assets): Result<seq<Mount>>
    decreases |inputs|
  {
    if inputs == [] then Ok([])
    else
      match Lookup(assets, inputs[0].name)
      case None => Err(Failure("undefined asset: " + inputs[0].name))
      case Some(dir) =>
        match Mounts(inputs[1..], assets)
        case Err(e) => Err(e)
        case Ok(rest) => Ok([Mount(MountPath(inputs[0]), dir)] + rest)
  }

  /** The first `i` inputs have assets and input `i` has none. */
  predicate FirstMissing(inputs: seq<TaskInput>, assets: Assets, i: int) {
    && 0 <= i < |inputs|
    && Lookup(assets, inputs[i].name).None?
    && forall j :: 0 <= j < i ==> Lookup(assets, inputs[j].name).Some?
  }

  /**
   * Every input is mounted, at its path or by default its name, exactly when
   * each has an asset; otherwise the error names the first input without one.
   */
  lemma {:induction false} MountsSpec(inputs: seq<TaskInput>, assets: Assets)
    ensures Mounts(inputs, assets).Ok? <==> forall i :: 0 <= i < |inputs| ==> Lookup(assets, inputs[i].name).Some?
    ensures Mounts(inputs, assets).Ok? ==> |Mounts(inputs, assets).value| == |inputs|
    ensures Mounts(inputs, assets).Ok? ==> forall i :: 0 <= i < |inputs| ==>
      Mounts(inputs, assets).value[i] == Mount(MountPath(inputs[i]), Lookup(assets, inputs[i].name).value)
    ensures Mounts(inputs, assets).Err? ==> exists i ::
      FirstMissing(inputs, assets, i) && Mounts(inputs, assets).error == Failure("undefined asset: " + inputs[i].name)
    decreases |inputs|
  {
    if inputs != [] {
      MountsSpec(inputs[1..], assets);
      var r := Mounts(inputs, assets);
      if Lookup(assets, inputs[0].name).None? {
        assert FirstMissing(inputs, assets, 0);
      } else if r.Err? {
        var i :| FirstMissing(inputs[1..], assets, i) && r.error == Failure("undefined asset: " + inputs[1..][i].name);
        assert inputs[1..][i] == inputs[i + 1];
        assert FirstMissing(inputs, assets, i + 1);
      }
    }
  }

  /** `VisitTask`: resolve the config, the image and the inputs, then run the task. It stores nothing. */
  function ExecTask(env: Env, step: TaskStep, assets: Assets): Option<Error> {
    match TaskConfigOf(env, step, assets)
    case Err(e) => Some(e)
    case Ok(cfg) =>
      match TaskImage(step, cfg, assets)
      case Err(e) => Some(e)
      case Ok(image) =>
        if env.prepareImage(image).Some? then env.prepareImage(image)
        else
          match Mounts(cfg.inputs, assets)
          case Err(e) => Some(e)
          case Ok(mounts) => env.runTask(step, image, mounts)
  }

  /**
   * The version a get step fetches: the job's input of the step's name; else
   * a pinned version; `every` is rejected; otherwise (latest, no version, or
   * none given) the resource's latest version.
   */
  function GetVersion(env: Env, step: GetStep): Result<ResourceVersion>
  {
    if step.name in env.inputs then Ok(env.inputs[step.name])
    else if step.version == Some(Every) then Err(Failure("version: every not supported"))
    else if step.version.Some? && step.version.value.Pinned? then Ok(ResourceVersion(step.resource, step.version.value.version))
    else env.latest(step.resource)
  }

  /** `VisitGet`: fetch the chosen version, store the directory under the step's name, then sync it. */
  function ExecGet(env: Env, step: GetStep, assets: Assets): Outcome {
    match GetVersion(env, step)
    case Err(e) => Outcome(Some(e), assets)
    case Ok(version) =>
      match env.fetch(version, step.params)
      case Err(e) => Outcome(Some(e), assets)
      case Ok(dir) => Outcome(env.sync(dir), Store(assets, step.name, dir))
  }

  /** What running `step` on the asset store `assets` returns and leaves behind. */
  function Exec(env: Env, step: Step, assets: Assets): Outcome
    decreases step, 1
  {
    match step
    case Task(t) => Outcome(ExecTask(env, t, assets), assets)
    case Get(g) => ExecGet(env, g, assets)
    case NoOp(_, _) => Outcome(None, assets)
    case Try(s) => Outcome(None, Exec(env, s, assets).assets)
    case Do(steps) => ExecFrom(env, step, 0, assets)
    case Hooked(kind, s, hook) =>
      var o := Exec(env, s, assets);
      if RunsHook(kind, env.aborted, o.err) then Combine(kind, o, Exec(env, hook, o.assets)) else o
    case PassThrough(_, s) => Exec(env, s, assets)
  }

  /**
   * Whether a modifier runs its hook after its step ended with `err`:
   * on_success after success, on_failure and on_error after an error,
   * on_abort when the build's context is done, ensure always.
   */
  function RunsHook(kind: HookKind, aborted: bool, err: Option<Error>): bool {
    match kind
    case OnSuccessHook => err.None?
    case OnFailureHook => err.Some?
    case OnAbortHook => aborted
    case OnErrorHook => err.Some?
    case EnsureHook => true
  }

  /**
   * What a modifier returns once its hook ran: on_success and on_error the
   * hook's error alone, the others both errors joined.
   */
  function Combine(kind: HookKind, o: Outcome, h: Outcome): Outcome {
    if kind.OnSuccessHook? || kind.OnErrorHook? then h else Outcome(Join(o.err, h.err), h.assets)
  }

  /** `VisitDo` from sub-step `i` on: the first error ends it. */
  function ExecFrom(env: Env, parent: Step, i: nat, assets: Assets): Outcome
    requires parent.Do? && i <= |parent.steps|
    decreases parent, 0, |parent.steps| - i
  {
    if i == |parent.steps| then Outcome(None, assets)
    else
      var o := Exec(env, parent.steps[i], assets);
      if o.err.Some? then o else ExecFrom(env, parent, i + 1, o.assets)
  }

  /**
   * The task input loop: mount each input's asset at its path (its name by
   * default); the first input without an asset ends it with an error.
   */
  method MountInputs(state: BuildState, inputs: seq<TaskInput>) returns (r: Result<seq<Mount>>)
    ensures r == Mounts(inputs, state.assets)
  {
    var mounts: seq<Mount> := [];
    var i := 0;
    assert inputs[0..] == inputs;
    MountsAfterNothing(inputs, state.assets);
    while i < |inputs|
      invariant 0 <= i <= |inputs|
      invariant Mounts(inputs, state.assets) == MountsAfter(mounts, inputs[i..], state.assets)
    {
      var input := inputs[i];
      var path := input.path;
      if path == "" {
        path := input.name;
      }
      var asset := state.Asset(input.name);
      MountsAfterStep(mounts, inputs[i..], state.assets);
      assert inputs[i..][1..] == inputs[i + 1..];
      if asset.None? {
        return Err(Failure("undefined asset: " + input.name));
      }
      mounts := mounts + [Mount(path, asset.value)];
      i := i + 1;
    }
    assert mounts + [] == mounts;
    return Ok(mounts);
  }

  /** `done` followed by the mounts of `rest`, or the error for the first of `rest` without an asset. */
  function MountsAfter(done: seq<Mount>, rest: seq<TaskInput>, assets: Assets): Result<seq<Mount>> {
    match Mounts(rest, assets)
    case Err(e) => Err(e)
    case Ok(ms) => Ok(done + ms)
  }

  lemma MountsAfterNothing(inputs: seq<TaskInput>, assets: Assets)
    ensures MountsAfter([], inputs, assets) == Mounts(inputs, assets)
  {
    if Mounts(inputs, assets).Ok? {
      assert [] + Mounts(inputs, assets).value == Mounts(inputs, assets).value;
    }
  }

  lemma MountsAfterStep(done: seq<Mount>, rest: seq<TaskInput>, assets: Assets)
    requires rest != []
    ensures Lookup(assets, rest[0].name).None? ==>
      MountsAfter(done, rest, assets) == Err(Failure("undefined asset: " + rest[0].name))
    ensures Lookup(assets, rest[0].name).Some? ==>
      MountsAfter(done, rest, assets) ==
      MountsAfter(done + [Mount(MountPath(rest[0]), Lookup(assets, rest[0].name).value)], rest[1..], assets)
  {
    var tail := Mounts(rest[1..], assets);
    if Lookup(assets, rest[0].name).Some? && tail.Ok? {
      var m := Mount(MountPath(rest[0]), Lookup(assets, rest[0].name).value);
      assert done + ([m] + tail.value) == (done + [m]) + tail.value;
    }
  }

  /** `VisitTask`, against the build state. */
  method VisitTask(env: Env, step: TaskStep, state: BuildState) returns (err: Option<Error>)
    ensures err == ExecTask(env, step, state.assets)
  {
    var cfg: TaskConfig := TaskConfig(None, "", []);
    if step.configPath != "" {
      var cut := Cut(step.configPath);
      if cut.None? {
        return Some(Failure("invalid config path: " + step.configPath));
      }
      var (inputName, subPath) := cut.value;
      var dir := state.Asset(inputName);
      if dir.None? {
        return Some(Failure("undefined asset: " + inputName));
      }
      var loaded := env.loadConfig(dir.value, subPath);
      if loaded.Err? {
        return Some(loaded.error);
      }
      cfg := loaded.value;
    } else if step.config.Some? {
      cfg := step.config.value;
    }
    assert TaskConfigOf(env, step, state.assets) == Ok(cfg);
    var image: Image;
    if cfg.imageResource.Some? {
      image := FromResource(cfg.imageResource.value);
    } else if step.imageArtifact != "" {
      image := FromArtifact(Lookup(state.assets, step.imageArtifact));
    } else if cfg.rootfsUri != "" {
      return Some(Failure("rootfs uri not supported"));
    } else {
      return Some(Failure("no image specified"));
    }
    err := env.prepareImage(image);
    if err.Some? {
      return;
    }
    var mounts := MountInputs(state, cfg.inputs);
    if mounts.Err? {
      return Some(mounts.error);
    }
    err := env.runTask(step, image, mounts.value);
  }

  /** `VisitGet`, against the build state. */
  method VisitGet(env: Env, step: GetStep, state: BuildState) returns (err: Option<Error>)
    modifies state
    ensures Outcome(err, state.assets) == ExecGet(env, step, old(state.assets))
  {
    var version: Option<ResourceVersion> := None;
    if step.name in env.inputs {
      version := Some(env.inputs[step.name]);
    }
    if version.None? && step.version.Some? {
      match step.version.value
      case Latest =>
      case Every => return Some(Failure("version: every not supported"));
      case Pinned(v) => version := Some(ResourceVersion(step.resource, v));
      case Unset =>
    }
    if version.None? {
      var latest := env.latest(step.resource);
      if latest.Err? {
        return Some(latest.error);
      }
      version := Some(latest.value);
    }
    assert GetVersion(env, step) == Ok(version.value);
    var dir := env.fetch(version.value, step.params);
    if dir.Err? {
      return Some(dir.error);
    }
    state.StoreAsset(step.name, dir.value);
    err := env.sync(dir.value);
  }

  /** `Visit` on a step: dispatches to the visitor of its kind; it agrees with `Exec`. */
  method Visit(env: Env, step: Step, state: BuildState) returns (err: Option<Error>)
    modifies state
    ensures Outcome(err, state.assets) == Exec(env, step, old(state.assets))
    decreases step, 1
  {
    match step
    case Task(t) => err := VisitTask(env, t, state);
    case Get(g) => err := VisitGet(env, g, state);
    case NoOp(_, _) => err := None;
    case Try(s) =>
      var _ := Visit(env, s, state);
      err := None;
    case Do(_) => err := VisitDo(env, step, state);
    case PassThrough(_, s) => err := Visit(env, s, state);
    case Hooked(kind, s, hook) =>
      err := Visit(env, s, state);
      match kind
      case OnSuccessHook =>
        if err.None? {
          err := Visit(env, hook, state);
        }
      case OnFailureHook =>
        if err.Some? {
          var hookErr := Visit(env, hook, state);
          err := Join(err, hookErr);
        }
      case OnAbortHook =>
        if env.aborted {
          var hookErr := Visit(env, hook, state);
          err := Join(err, hookErr);
        }
      case OnErrorHook =>
        if err.Some? {
          err := Visit(env, hook, state);
        }
      case EnsureHook =>
        var hookErr := Visit(env, hook, state);
        err := Join(err, hookErr);
  }

  /** `VisitDo`: the sub-steps in order; the first error is returned and the rest do not run. */
  method VisitDo(env: Env, step: Step, state: BuildState) returns (err: Option<Error>)
    requires step.Do?
    modifies state
    ensures Outcome(err, state.assets) == ExecFrom(env, step, 0, old(state.assets))
    decreases step, 0
  {
    var i := 0;
    while i < |step.steps|
      invariant 0 <= i <= |step.steps|
      invariant ExecFrom(env, step, 0, old(state.assets)) == ExecFrom(env, step, i, state.assets)
    {
      err := Visit(env, step.steps[i], state);
      if err.Some? {
        return;
      }
      i := i + 1;
    }
    return None;
  }

  lemma {:induction false} ExecFromShift(env: Env, first: Step, rest: seq<Step>, i: nat, assets: Assets)
    requires i <= |rest|
    ensures ExecFrom(env, Do([first] + rest), i + 1, assets) == ExecFrom(env, Do(rest), i, assets)
    decreases |rest| - i
  {
    var whole := [first] + rest;
    if i < |rest| {
      assert whole[i + 1] == rest[i];
      var o := Exec(env, rest[i], assets);
      if o.err.None? {
        ExecFromShift(env, first, rest, i + 1, o.assets);
      }
    }
  }

  /** `do`: a failing first sub-step is the result of the whole, and the rest never run. */
  lemma DoStopsAtFirstError(env: Env, first: Step, rest: seq<Step>, assets: Assets)
    requires Exec(env, first, assets).err.Some?
    ensures Exec(env, Do([first] + rest), assets) == Exec(env, first, assets)
  {
    assert ([first] + rest)[0] == first;
  }

  /** `do`: after a succeeding first sub-step, the rest run on the store it left. */
  lemma DoRunsInOrder(env: Env, first: Step, rest: seq<Step>, assets: Assets)
    requires Exec(env, first, assets).err.None?
    ensures Exec(env, Do([first] + rest), assets) == Exec(env, Do(rest), Exec(env, first, assets).assets)
  {
    var whole := Do([first] + rest);
    var o := Exec(env, first, assets);
    assert whole.steps[0] == first;
    assert Exec(env, whole, assets) == ExecFrom(env, whole, 0, assets);
    assert ExecFrom(env, whole, 0, assets) == ExecFrom(env, whole, 1, o.assets);
    ExecFromShift(env, first, rest, 0, o.assets);
  }

  /** `try`: never fails, and keeps whatever the step stored. */
  lemma TryNeverFails(env: Env, s: Step, assets: Assets)
    ensures Exec(env, Try(s), assets).err.None?
    ensures Exec(env, Try(s), assets).assets == Exec(env, s, assets).assets
  {
  }

  /** One step of `Exec` on a modifier: the step runs, then the hook if the modifier calls for it. */
  lemma ExecHooked(env: Env, kind: HookKind, s: Step, hook: Step, assets: Assets, o: Outcome, h: Outcome)
    requires o == Exec(env, s, assets) && h == Exec(env, hook, o.assets)
    ensures Exec(env, Hooked(kind, s, hook), assets) == if RunsHook(kind, env.aborted, o.err) then Combine(kind, o, h) else o
  {
  }

  /** After a failing step, `on_success` returns the step's outcome and never runs its hook. */
  lemma OnSuccessSkipsHookAfterFailure(env: Env, s: Step, hook: Step, assets: Assets)
    requires Exec(env, s, assets).err.Some?
    ensures Exec(env, OnSuccess(s, hook), assets) == Exec(env, s, assets)
  {
    var o := Exec(env, s, assets);
    ExecHooked(env, OnSuccessHook, s, hook, assets, o, Exec(env, hook, o.assets));
  }

  /** After a failing step, `on_failure` runs the hook on what the step left and joins both errors. */
  lemma OnFailureJoinsErrors(env: Env, s: Step, hook: Step, assets: Assets)
    requires Exec(env, s, assets).err.Some?
    ensures var o := Exec(env, s, assets);
      var h := Exec(env, hook, o.assets);
      Exec(env, OnFailure(s, hook), assets) == Outcome(Join(o.err, h.err), h.assets)
    ensures Exec(env, OnFailure(s, hook), assets).err.Some?
  {
    var o := Exec(env, s, assets);
    var h := Exec(env, hook, o.assets);
    ExecHooked(env, OnFailureHook, s, hook, assets, o, h);
    assert RunsHook(OnFailureHook, env.aborted, o.err);
  }

  /** After a failing step, `on_error` runs the hook and returns the hook's outcome alone. */
  lemma OnErrorReturnsHookOutcome(env: Env, s: Step, hook: Step, assets: Assets)
    requires Exec(env, s, assets).err.Some?
    ensures Exec(env, OnError(s, hook), assets) == Exec(env, hook, Exec(env, s, assets).assets)
  {
    var o := Exec(env, s, assets);
    ExecHooked(env, OnErrorHook, s, hook, assets, o, Exec(env, hook, o.assets));
  }

  /** After a failing step, `ensure` and `on_failure` agree. */
  lemma EnsureAgreesWithOnFailure(env: Env, s: Step, hook: Step, assets: Assets)
    requires Exec(env, s, assets).err.Some?
    ensures Exec(env, Ensure(s, hook), assets) == Exec(env, OnFailure(s, hook), assets)
  {
    var o := Exec(env, s, assets);
    var h := Exec(env, hook, o.assets);
    ExecHooked(env, OnFailureHook, s, hook, assets, o, h);
    ExecHooked(env, EnsureHook, s, hook, assets, o, h);
  }

  /** After a succeeding step, `on_failure` and `on_error` return it without running their hooks. */
  lemma FailureHooksSkippedAfterSuccess(env: Env, s: Step, hook: Step, assets: Assets)
    requires Exec(env, s, assets).err.None?
    ensures Exec(env, OnFailure(s, hook), assets) == Exec(env, s, assets)
    ensures Exec(env, OnError(s, hook), assets) == Exec(env, s, assets)
  {
    var o := Exec(env, s, assets);
    var h := Exec(env, hook, o.assets);
    ExecHooked(env, OnFailureHook, s, hook, assets, o, h);
    ExecHooked(env, OnErrorHook, s, hook, assets, o, h);
  }

  /** After a succeeding step, `on_success` returns the hook's outcome on what the step left. */
  lemma OnSuccessRunsHook(env: Env, s: Step, hook: Step, assets: Assets)
    requires Exec(env, s, assets).err.None?
    ensures Exec(env, OnSuccess(s, hook), assets) == Exec(env, hook, Exec(env, s, assets).assets)
  {
    var o := Exec(env, s, assets);
    ExecHooked(env, OnSuccessHook, s, hook, assets, o, Exec(env, hook, o.assets));
  }

  /**
   * After a succeeding step, `ensure` runs the hook too, but wraps a hook
   * error in a join of one.
   */
  lemma EnsureWrapsHookError(env: Env, s: Step, hook: Step, assets: Assets)
    requires Exec(env, s, assets).err.None?
    ensures var h := Exec(env, hook, Exec(env, s, assets).assets);
      && Exec(env, Ensure(s, hook), assets).assets == h.assets
      && (h.err.None? ==> Exec(env, Ensure(s, hook), assets).err.None?)
      && (h.err.Some? ==> Exec(env, Ensure(s, hook), assets).err == Some(Joined([h.err.value])))
  {
    var h := Exec(env, hook, Exec(env, s, assets).assets);
    EnsureAfterSuccess(env, s, hook, assets, h);
    JoinOfOne(Exec(env, Ensure(s, hook), assets), h);
  }

  /** After a succeeding step, `ensure` returns the hook's assets and its error joined to no error. */
  lemma EnsureAfterSuccess(env: Env, s: Step, hook: Step, assets: Assets, h: Outcome)
    requires Exec(env, s, assets).err.None? && h == Exec(env, hook, Exec(env, s, assets).assets)
    ensures Exec(env, Ensure(s, hook), assets) == Outcome(Join(None, h.err), h.assets)
  {
    ExecHooked(env, EnsureHook, s, hook, assets, Exec(env, s, assets), h);
  }

  /** An outcome whose error is a missing error joined with `h`'s: nothing when `h` succeeded, a join of one otherwise. */
  lemma JoinOfOne(e: Outcome, h: Outcome)
    requires e == Outcome(Join(None, h.err), h.assets)
    ensures e.assets == h.assets
    ensures h.err.None? ==> e.err.None?
    ensures h.err.Some? ==> e.err == Some(Joined([h.err.value]))
  {
    if h.err.Some? {
      assert NonNil([None, h.err]) == [h.err.value];
    }
  }

  /** `on_abort`: without an abort the step's outcome is returned and the hook does not run. */
  lemma OnAbortSkippedWithoutAbort(env: Env, s: Step, hook: Step, assets: Assets)
    requires !env.aborted
    ensures Exec(env, OnAbort(s, hook), assets) == Exec(env, s, assets)
  {
    var o := Exec(env, s, assets);
    ExecHooked(env, OnAbortHook, s, hook, assets, o, Exec(env, hook, o.assets));
  }

  /** `on_abort`: on an abort the hook runs whatever the step returned, and the errors are joined. */
  lemma OnAbortJoinsErrors(env: Env, s: Step, hook: Step, assets: Assets)
    requires env.aborted
    ensures var o := Exec(env, s, assets);
      var h := Exec(env, hook, o.assets);
      Exec(env, OnAbort(s, hook), assets) == Outcome(Join(o.err, h.err), h.assets)
  {
    var o := Exec(env, s, assets);
    var h := Exec(env, hook, o.assets);
    ExecHooked(env, OnAbortHook, s, hook, assets, o, h);
    assert RunsHook(OnAbortHook, env.aborted, o.err);
  }

  /** `across`, `timeout` and `retry` do exactly what the step they wrap does, however deeply they are nested. */
  lemma {:induction false} PassThroughsAreTransparent(env: Env, kinds: seq<PassThroughKind>, s: Step, assets: Assets)
    ensures Exec(env, WrapAll(kinds, s), assets) == Exec(env, s, assets)
  {
    if kinds != [] {
      PassThroughsAreTransparent(env, kinds[1..], s, assets);
    }
  }

  /** `s` wrapped in the modifiers `kinds`, the first outermost. */
  function WrapAll(kinds: seq<PassThroughKind>, s: Step): Step {
    if kinds == [] then s else PassThrough(kinds[0], WrapAll(kinds[1..], s))
  }

  /** The put, run, set_pipeline and load_var visitors do nothing and succeed. */
  lemma NoOpSteps(env: Env, kind: NoOpKind, name: string, assets: Assets)
    ensures Exec(env, NoOp(kind, name), assets) == Outcome(None, assets)
  {
  }

  /**
   * A get step whose version and fetch succeed stores the directory under the
   * step's name, even when the following sync fails, and leaves every other
   * asset; a get that fails earlier stores nothing.
   */
  lemma GetStoresUnderStepName(env: Env, g: GetStep, assets: Assets, other: string)
    ensures var o := Exec(env, Get(g), assets);
      && (GetVersion(env, g).Err? ==> o == Outcome(Some(GetVersion(env, g).error), assets))
      && (GetVersion(env, g).Ok? && env.fetch(GetVersion(env, g).value, g.params).Err? ==> o.assets == assets && o.err.Some?)
      && (GetVersion(env, g).Ok? && env.fetch(GetVersion(env, g).value, g.params).Ok? ==>
            var dir := env.fetch(GetVersion(env, g).value, g.params).value;
            && Lookup(o.assets, g.name) == Some(dir)
            && (other != g.name ==> Lookup(o.assets, other) == Lookup(assets, other))
            && o.err == env.sync(dir))
  {
    if GetVersion(env, g).Ok? && env.fetch(GetVersion(env, g).value, g.params).Ok? {
      StoreThenLookup(assets, g.name, env.fetch(GetVersion(env, g).value, g.params).value, other);
    }
  }

  /** A job input named like the get step wins over any `version:`, even `every`. */
  lemma GetPrefersJobInput(env: Env, g: GetStep, v: Option<VersionConfig>)
    requires g.name in env.inputs
    ensures GetVersion(env, g.(version := v)) == GetVersion(env, g) == Ok(env.inputs[g.name])
  {
  }

  /** A task never changes the asset store; its image is settled before any input is looked at. */
  lemma TaskImageBeforeInputs(env: Env, t: TaskStep, assets: Assets)
    ensures Exec(env, Task(t), assets).assets == assets
    ensures TaskConfigOf(env, t, assets).Ok? && TaskImage(t, TaskConfigOf(env, t, assets).value, assets).Err? ==>
      Exec(env, Task(t), assets).err == Some(TaskImage(t, TaskConfigOf(env, t, assets).value, assets).error)
  {
  }

  /** `Cut` splits at the first "/": a name without one, a slash, and anything is cut back into the two. */
  lemma {:induction false} CutAtFirstSlash(name: string, rest: string)
    requires '/' !in name
    ensures Cut(name + "/" + rest) == Some((name, rest))
  {
    var s := name + "/" + rest;
    if name == [] {
      assert s == "/" + rest;
    } else {
      assert s[0] == name[0];
      assert s[1..] == name[1..] + "/" + rest;
      CutAtFirstSlash(name[1..], rest);
      assert [name[0]] + name[1..] == name;
    }
  }
  /**
   * A task's config comes from `file:` when it is set, read from the named
   * input's directory at the path after the first "/"; a file path without a
   * "/" or naming an input with no asset is an error. Without `file:` the
   * inline config is used, or an empty one.
   */
  lemma TaskConfigFromFile(env: Env, t: TaskStep, assets: Assets, input: string, sub: string)
    requires '/' !in input && t.configPath == input + "/" + sub
    ensures Lookup(assets, input).None? ==> TaskConfigOf(env, t, assets) == Err(Failure("undefined asset: " + input))
    ensures Lookup(assets, input).Some? ==> TaskConfigOf(env, t, assets) == env.loadConfig(Lookup(assets, input).value, sub)
  {
    CutAtFirstSlash(input, sub);
  }

  /** A `file:` path without a "/" is rejected; without `file:` the inline config, or an empty one, is used. */
  lemma TaskConfigWithoutFile(env: Env, t: TaskStep, assets: Assets)
    ensures t.configPath != "" && '/' !in t.configPath ==>
      TaskConfigOf(env, t, assets) == Err(Failure("invalid config path: " + t.configPath))
    ensures t.configPath == "" ==> TaskConfigOf(env, t, assets) == Ok(if t.config.Some? then t.config.value else TaskConfig(None, "", []))
  {
  }

  /**
   * The image of a task: the config's image resource wins over the step's
   * image artifact; a rootfs URI is rejected, and so is no image at all.
   */
  lemma TaskImageChoice(t: TaskStep, cfg: TaskConfig, assets: Assets)
    ensures TaskImage(t, cfg, assets).Ok? <==> cfg.imageResource.Some? || t.imageArtifact != ""
    ensures cfg.imageResource.Some? ==> TaskImage(t, cfg, assets) == Ok(FromResource(cfg.imageResource.value))
    ensures cfg.imageResource.None? && t.imageArtifact != "" ==>
      TaskImage(t, cfg, assets) == Ok(FromArtifact(Lookup(assets, t.imageArtifact)))
    ensures cfg.imageResource.None? && t.imageArtifact == "" ==>
      TaskImage(t, cfg, assets) == Err(Failure(if cfg.rootfsUri != "" then "rootfs uri not supported" else "no image specified"))
  {
  }

  /**
   * Without a job input of its name, a get step fetches a pinned version as
   * given, rejects `every`, and otherwise asks for the resource's latest version.
   */
  lemma GetVersionChoice(env: Env, g: GetStep)
    requires g.name !in env.inputs
    ensures g.version == Some(Every) ==> GetVersion(env, g) == Err(Failure("version: every not supported"))
    ensures g.version.Some? && g.version.value.Pinned? ==>
      GetVersion(env, g) == Ok(ResourceVersion(g.resource, g.version.value.version))
    ensures g.version.None? || g.version.value in {Latest, Unset} ==> GetVersion(env, g) == env.latest(g.resource)
  {
  }
}
