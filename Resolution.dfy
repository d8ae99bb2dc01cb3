/**
 * The decisions of `AcceleratorConnector` as functions of the connector's
 * fields.  `ConnectorState` is the value of those fields at one moment; each
 * function below gives the fields after one step of
 * pytorch_lightning/trainer/connectors/accelerator_connector.py, or the error
 * that step raises.  The class in Connector.dfy performs the same steps in
 * place and is proved to agree with these functions.
 */
module Resolution {
  import opened Wrappers
  import opened Text
  import opened Kinds
  import opened Plugins

  // ---------------------------------------------------------------------------
  // What the connector reads from outside itself
  // ---------------------------------------------------------------------------

  /**
   * The process environment and the library facts the connector consults:
   * `os.environ`, `torch.cuda.is_available()`, the `_*_AVAILABLE` and
   * `_IS_INTERACTIVE` flags, the torchelastic and kubeflow probes, the
   * interactive-compatible kinds, the training-type registry, `os.cpu_count()`
   * and `hvd.local_size()`.
   */
  datatype Env = Env(
    vars: map<string, string>,
    cudaAvailable: bool,
    nativeAmpAvailable: bool,
    apexAvailable: bool,
    horovodAvailable: bool,
    isInteractive: bool,
    interactiveCompatible: set<DistributedType>,
    usingTorchElastic: bool,
    usingKubeflow: bool,
    registry: map<string, RegistryEntry>,
    cpuCount: Option<int>,
    horovodLocalSize: int)

  /** `parse_tpu_cores` yields a core count or a list of core ids. */
  datatype TpuCores = CoreCount(count: int) | CoreList(ids: seq<int>)

  /** `ipus` is an int or some other non-`None` value. */
  datatype Ipus = IpuCount(count: int) | IpuOther

  /** The constructor arguments, after the gpu-id and tpu-core parsers and `AMPType.from_str`. */
  datatype Inputs = Inputs(
    numProcesses: Option<int>,
    tpuCores: Option<TpuCores>,
    ipus: Option<Ipus>,
    backend: Backend,
    gpuIds: Option<seq<int>>,
    numNodes: int,
    syncBatchnorm: bool,
    precision: int,
    ampType: Option<AmpType>,
    ampLevel: string,
    plugins: PluginsArg)

  /** The fields the connector never reassigns. */
  datatype Settings = Settings(
    tpuCores: Option<TpuCores>,
    ipus: Option<Ipus>,
    numNodes: int,
    syncBatchnorm: bool,
    precision: int,
    ampLevel: string,
    plugins: seq<PluginHint>)

  /** `MisconfigurationException`, `NotImplementedError` and the Python errors the code can raise. */
  datatype Error =
    | MultipleTrainingTypePlugins(hint: PluginHint)
    | MultiplePrecisionPlugins(hint: PluginHint)
    | MultipleClusterEnvironments(hint: PluginHint)
    | InvalidPlugin(hint: PluginHint)
    | UnknownDistributedType(name: string)
    | NotInteractiveCompatible(kind: DistributedType, compatible: set<DistributedType>)
    | HorovodNotInstalled
    | HorovodExplicitCounts
    | MultiNodeUnsupported
    | NoneProcessCount
    | DevicesUnbound
    | EmptyTpuCoreList
    | NativeAmpOnCpu
    | NativeAmpUnavailable
    | ApexUnavailable
    | ShardedWithApex
    | UnsupportedPrecision(bits: int)

  /** The `rank_zero_warn` calls, recorded in order. */
  datatype Warning =
    | MultipleGpusWithoutBackend
    | DdpCpuIgnoresGpus
    | GpuKindWithoutGpus
    | SingleProcessNoEffect
    | GpuAvailableButUnused
    | NativeAmpFallsBackToApex
    | AcceleratorIgnoresPlugins

  function GpuCount(ids: Option<seq<int>>): nat
  {
    if ids.None? then 0 else |ids.value|
  }

  /** The connector's fields at one moment. */
  datatype ConnectorState = ConnectorState(
    settings: Settings,
    deviceType: DeviceType,
    distribType: Option<DistributedType>,
    numProcesses: Option<int>,
    parallelDeviceIds: Option<seq<int>>,
    backend: Backend,
    slurmManaging: bool,
    trainingType: Option<Strategy>,
    precisionPlugin: Option<PrecisionPlugin>,
    clusterEnv: Option<ClusterEnvironment>,
    resolved: bool,
    ampType: Option<AmpType>,
    warnings: seq<Warning>)
  {
    /** `num_gpus`. */
    function NumGpus(): nat { GpuCount(parallelDeviceIds) }
    /** `on_cpu`: by device type. */
    predicate OnCpu() { deviceType == CPU }
    /** `on_tpu`: by the `tpu_cores` argument, not by device type. */
    predicate OnTpu() { settings.tpuCores.Some? }
    /** `on_ipu`: by the `ipus` argument. */
    predicate OnIpu() { settings.ipus.Some? }
    /** `on_gpu`: GPU ids were given and CUDA is available. */
    predicate OnGpu(cudaAvailable: bool) { NumGpus() > 0 && cudaAvailable }
    predicate UseDp() { distribType == Some(DP) }
    predicate UseDdp() { distribType.Some? && IsDdpFamily(distribType.value) }
    predicate UseDdp2() { distribType == Some(DDP2) }
    predicate UseHorovod() { distribType == Some(Horovod) }
    predicate UseDeepspeed() { distribType == Some(DeepSpeed) }
    /** A resolved strategy is always stored. */
    predicate Valid() { resolved ==> trainingType.Some? }
  }

  /** Lines 103-134: the fields before `set_distributed_mode` first runs. */
  function InitialState(inputs: Inputs): (st: ConnectorState)
    ensures st.Valid() && st.deviceType == CPU && st.distribType.None? && !st.slurmManaging
  {
    ConnectorState(
      Settings(inputs.tpuCores, inputs.ipus, inputs.numNodes, inputs.syncBatchnorm,
               inputs.precision, inputs.ampLevel, NormalizePlugins(inputs.plugins)),
      CPU, None, inputs.numProcesses, inputs.gpuIds, inputs.backend, false,
      None, None, None, false, inputs.ampType, [])
  }

  // ---------------------------------------------------------------------------
  // Environment probes
  // ---------------------------------------------------------------------------

  /** An environment variable read through `int(os.environ[name])`; `None` where that raises. */
  function EnvInt(env: Env, name: string): Option<int>
  {
    if name in env.vars then ParseInt(env.vars[name]) else None
  }

  /** `has_horovodrun()`. */
  predicate HasHorovodrun(env: Env)
  {
    "OMPI_COMM_WORLD_RANK" in env.vars || "HOROVOD_RANK" in env.vars
  }

  /** `os.environ.get("PL_IN_DDP_SUBPROCESS", False)` is truthy. */
  predicate InDdpSubprocess(env: Env)
  {
    "PL_IN_DDP_SUBPROCESS" in env.vars && env.vars["PL_IN_DDP_SUBPROCESS"] != ""
  }

  /** `FAKE_SLURM_MANAGING_TASKS` parses to a nonzero integer. */
  predicate FakeSlurmManaging(env: Env)
  {
    var f := EnvInt(env, "FAKE_SLURM_MANAGING_TASKS");
    f.Some? && f.value != 0
  }

  // ---------------------------------------------------------------------------
  // Simple derived values
  // ---------------------------------------------------------------------------

  /** `is_training_type_in_plugins`: some plugin is a registered name. */
  predicate IsTrainingTypeInPlugins(env: Env, plugins: seq<PluginHint>)
  {
    exists i :: 0 <= i < |plugins| && plugins[i].NameHint? && plugins[i].name in env.registry
  }

  /** `'cpu' in distributed_backend` for a non-empty name. */
  predicate NamesCpu(b: Backend)
  {
    b.Named? && IsSubstring("cpu", b.name)
  }

  /** `list(range(n))`. */
  function Range(n: int): (r: seq<int>)
    ensures |r| == if n < 0 then 0 else n
    ensures forall i :: 0 <= i < |r| ==> r[i] == i
  {
    seq(if n < 0 then 0 else n, i => i)
  }

  /** `parallel_devices` (lines 330-343); `DevicesUnbound` where `devices` is never assigned. */
  function ParallelDevices(env: Env, st: ConnectorState): (r: Result<seq<Device>, Error>)
    ensures st.OnGpu(env.cudaAvailable) ==>
      r.Success? && |r.value| == st.NumGpus()
      && forall i :: 0 <= i < |r.value| ==> r.value[i] == Cuda(st.parallelDeviceIds.value[i])
    ensures !st.OnGpu(env.cudaAvailable) && !st.OnTpu() && !st.OnIpu() ==>
      (r.Success? <==> st.numProcesses.Some?)
      && (r.Success? ==> |r.value| == (if st.numProcesses.value < 0 then 0 else st.numProcesses.value)
                         && forall i :: 0 <= i < |r.value| ==> r.value[i] == Cpu)
  {
    if st.OnGpu(env.cudaAvailable) then
      var ids := st.parallelDeviceIds.value;
      Success(seq(|ids|, i requires 0 <= i < |ids| => Cuda(ids[i])))
    else if st.OnTpu() then
      match st.settings.tpuCores.value
      case CoreCount(n) => Success(seq(|Range(n)|, i requires 0 <= i < |Range(n)| => Ordinal(Range(n)[i])))
      case CoreList(_) => Failure(DevicesUnbound)
    else if st.OnIpu() then
      match st.settings.ipus.value
      case IpuCount(n) => Success(seq(|Range(n)|, i requires 0 <= i < |Range(n)| => Ordinal(Range(n)[i])))
      case IpuOther => Failure(DevicesUnbound)
    else if st.numProcesses.None? then
      Failure(NoneProcessCount)
    else
      Success(seq(if st.numProcesses.value < 0 then 0 else st.numProcesses.value, _ => Cpu))
  }

  // ---------------------------------------------------------------------------
  // select_cluster_environment (lines 539-550)
  // ---------------------------------------------------------------------------

  /** First match wins: stored override, SLURM, TorchElastic, Kubeflow, Lightning. */
  function SelectClusterEnvironment(env: Env, st: ConnectorState): (r: ClusterEnvironment)
    ensures st.clusterEnv.Some? ==> r == st.clusterEnv.value
    ensures st.clusterEnv.None? ==>
      && (r == SLURMEnvironment <==> st.slurmManaging)
      && (r == TorchElasticEnvironment <==> !st.slurmManaging && env.usingTorchElastic)
      && (r == KubeflowEnvironment <==> !st.slurmManaging && !env.usingTorchElastic && env.usingKubeflow)
      && (r == LightningEnvironment <==> !st.slurmManaging && !env.usingTorchElastic && !env.usingKubeflow)
  {
    if st.clusterEnv.Some? then st.clusterEnv.value
    else if st.slurmManaging then SLURMEnvironment
    else if env.usingTorchElastic then TorchElasticEnvironment
    else if env.usingKubeflow then KubeflowEnvironment
    else LightningEnvironment
  }

  // ---------------------------------------------------------------------------
  // set_distributed_mode (lines 552-652) and its helpers
  // ---------------------------------------------------------------------------

  /** `check_horovod` (lines 679-691). */
  function CheckHorovod(env: Env, st: ConnectorState): Outcome<Error>
  {
    if !env.horovodAvailable then Fail(HorovodNotInstalled)
    else if st.NumGpus() > 1 || st.settings.numNodes > 1 then Fail(HorovodExplicitCounts)
    else Pass
  }

  /** `_set_horovod_backend` (lines 654-664). */
  function SetHorovodBackend(env: Env, st: ConnectorState): Result<ConnectorState, Error>
  {
    var check := CheckHorovod(env, st);
    if check.Fail? then Failure(check.error)
    else
      var s := st.(distribType := Some(Horovod));
      if s.OnGpu(env.cudaAvailable) then Success(s.(parallelDeviceIds := Some(Range(env.horovodLocalSize))))
      else Success(s.(numProcesses := Some(env.horovodLocalSize)))
  }

  /** `check_interactive_compatibility` (lines 666-677). */
  function CheckInteractiveCompatibility(env: Env, st: ConnectorState): Outcome<Error>
  {
    if env.isInteractive && st.distribType.Some? && st.distribType.value !in env.interactiveCompatible
    then Fail(NotInteractiveCompatible(st.distribType.value, env.interactiveCompatible))
    else Pass
  }

  /** Lines 557-560: a name argument, looked up in the registry, becomes the backend. */
  function WithBackendArg(env: Env, st: ConnectorState, arg: Option<string>): ConnectorState
  {
    match arg
    case None => st
    case Some(name) => st.(backend := Named(if name in env.registry then env.registry[name].backend else name))
  }

  /** Lines 565-575: the choice made when no backend was given. */
  function ChooseWithoutBackend(env: Env, st: ConnectorState): Result<ConnectorState, Error>
  {
    if HasHorovodrun(env) then SetHorovodBackend(env, st)
    else if st.NumGpus() == 0 && st.settings.numNodes <= 1 && st.numProcesses.None? then
      Failure(NoneProcessCount)
    else if st.NumGpus() == 0 && (st.settings.numNodes > 1 || st.numProcesses.value > 1) then
      Success(st.(distribType := Some(DDP)))
    else if st.NumGpus() > 1 then
      Success(st.(warnings := st.warnings + [MultipleGpusWithoutBackend], backend := Named("ddp_spawn")))
    else Success(st)
  }

  /** Lines 577-596: the `ddp_cpu`, TPU and IPU special cases, else the backend name parsed. */
  function ApplyBackendName(env: Env, st: ConnectorState): Result<ConnectorState, Error>
  {
    if st.backend == Named("ddp_cpu") then
      var s1 := st.(distribType := Some(DDPSpawn));
      var s2 := if s1.NumGpus() > 0
        then s1.(warnings := s1.warnings + [DdpCpuIgnoresGpus], parallelDeviceIds := None)
        else s1;
      Success(if s2.numProcesses.None? then s2.(numProcesses := env.cpuCount) else s2)
    else if st.backend == Named("tpu") || st.OnTpu() then
      var s1 := st.(deviceType := TPU);
      Success(if s1.OnTpu() && s1.settings.tpuCores.value.CoreCount? then s1.(distribType := Some(TPUSpawn)) else s1)
    else if st.backend == Named("ipu") then
      Success(st.(deviceType := IPU))
    else if st.backend.Named? && st.backend.name != "" && st.distribType.None? then
      var k := ParseKind(st.backend.name);
      if k.None? then Failure(UnknownDistributedType(st.backend.name)) else Success(st.(distribType := k))
    else Success(st)
  }

  /** Lines 599-601: GPUs are used unless the backend name asks for CPU. */
  function PromoteToGpu(st: ConnectorState): ConnectorState
  {
    if st.NumGpus() > 0 && !NamesCpu(st.backend) then st.(deviceType := GPU) else st
  }

  /** Lines 603-614: a GPU-only kind without GPUs becomes DDP, or nothing for one process. */
  function DowngradeWithoutGpus(st: ConnectorState): ConnectorState
  {
    if st.NumGpus() == 0 && st.distribType.Some? && NeedsGpu(st.distribType.value) && !NamesCpu(st.backend) then
      var warned := st.warnings + [GpuKindWithoutGpus];
      if st.settings.numNodes > 1 || (st.numProcesses.Some? && st.numProcesses.value > 1) then
        st.(warnings := warned, distribType := Some(DDP))
      else
        st.(warnings := warned + [SingleProcessNoEffect], distribType := None)
    else st
  }

  /** Lines 620-627: GPU DDP runs one process per GPU, GPU DDP2 one per node. */
  function OverrideProcessCount(st: ConnectorState): ConnectorState
  {
    if st.deviceType == GPU && (st.distribType == Some(DDP) || st.distribType == Some(DDPSpawn)) then
      st.(numProcesses := Some(st.NumGpus()))
    else if st.deviceType == GPU && st.distribType == Some(DDP2) then
      st.(numProcesses := Some(st.settings.numNodes))
    else st
  }

  /** Lines 648-652. */
  function WarnUnusedGpu(env: Env, st: ConnectorState): ConnectorState
  {
    if env.cudaAvailable && st.deviceType != GPU then st.(warnings := st.warnings + [GpuAvailableButUnused]) else st
  }

  /** Line 554: with no argument and a registered name among the plugins, nothing is inferred. */
  predicate DefersToPlugins(env: Env, st: ConnectorState, arg: Option<string>)
  {
    arg.None? && IsTrainingTypeInPlugins(env, st.settings.plugins)
  }

  /**
   * Lines 598-652, once the backend name has been applied: device promotion,
   * the GPU guard, the interactive check, process counts, Horovod and the
   * multi-node check.
   */
  function FinishMode(env: Env, s2: ConnectorState): Result<ConnectorState, Error>
  {
    var s3 := DowngradeWithoutGpus(PromoteToGpu(s2));
    var interactive := CheckInteractiveCompatibility(env, s3);
    if interactive.Fail? then Failure(interactive.error)
    else
      var s4 := OverrideProcessCount(s3);
      var s5 :- if s4.backend == Named("horovod") then SetHorovodBackend(env, s4) else Success(s4);
      if s5.settings.numNodes > 1 && !(s5.UseDdp() || s5.UseDdp2()) then Failure(MultiNodeUnsupported)
      else Success(WarnUnusedGpu(env, s5))
  }

  /** `set_distributed_mode(arg)`. */
  function SetDistributedMode(env: Env, st: ConnectorState, arg: Option<string>): Result<ConnectorState, Error>
  {
    if DefersToPlugins(env, st, arg) then Success(st)
    else
      var s0 := WithBackendArg(env, st, arg);
      if s0.backend.AcceleratorBackend? then Success(s0)
      else
        var s1 :- if s0.backend.NoBackend? then ChooseWithoutBackend(env, s0) else Success(s0);
        var s2 :- ApplyBackendName(env, s1);
        FinishMode(env, s2)
  }

  // ---------------------------------------------------------------------------
  // configure_slurm_ddp (lines 698-732)
  // ---------------------------------------------------------------------------

  /**
   * SLURM manages the tasks: `SLURM_NTASKS` is an integer equal to the requested
   * GPU count over all nodes (to the process count when that is zero), and
   * `SLURM_JOB_NAME` is present and not "bash".
   */
  predicate SlurmManagesTasks(env: Env, st: ConnectorState)
  {
    var tasks := EnvInt(env, "SLURM_NTASKS");
    var requested := st.NumGpus() * st.settings.numNodes;
    && tasks.Some?
    && "SLURM_JOB_NAME" in env.vars
    && env.vars["SLURM_JOB_NAME"] != "bash"
    && (if requested == 0 then st.numProcesses == Some(tasks.value) else tasks.value == requested)
  }

  /** `configure_slurm_ddp()`: only the SLURM flag changes. */
  function ConfigureSlurmDdp(env: Env, st: ConnectorState): (r: ConnectorState)
    ensures r == st.(slurmManaging := r.slurmManaging)
  {
    var s := if st.UseDdp() || st.UseDdp2() then st.(slurmManaging := SlurmManagesTasks(env, st)) else st;
    if FakeSlurmManaging(env) then s.(slurmManaging := true) else s
  }

  // ---------------------------------------------------------------------------
  // handle_given_plugins (lines 173-227)
  // ---------------------------------------------------------------------------

  /** The three local accumulators of `handle_given_plugins`. */
  datatype Hints = Hints(
    trainingType: Option<Strategy>,
    precision: Option<PrecisionPlugin>,
    clusterEnv: Option<ClusterEnvironment>)

  const NoHints := Hints(None, None, None)

  /** One iteration of the loop at line 179. */
  function ClassifyHint(env: Env, st: ConnectorState, acc: Hints, plug: PluginHint): Result<(ConnectorState, Hints), Error>
  {
    match plug
    case NameHint(name) =>
      if name in env.registry && acc.trainingType.Some? then Failure(MultipleTrainingTypePlugins(plug))
      else
        var acc' := if name in env.registry then acc.(trainingType := Some(env.registry[name].plugin)) else acc;
        var st' :- SetDistributedMode(env, st.(distribType := None), Some(name));
        Success((st', acc'))
    case TrainingTypeHint(s) =>
      if acc.trainingType.Some? then Failure(MultipleTrainingTypePlugins(plug))
      else Success((st, acc.(trainingType := Some(s))))
    case PrecisionHint(p) =>
      if acc.precision.Some? then Failure(MultiplePrecisionPlugins(plug))
      else Success((st, acc.(precision := Some(p))))
    case ClusterEnvironmentHint(c) =>
      if acc.clusterEnv.Some? then Failure(MultipleClusterEnvironments(plug))
      else Success((st, acc.(clusterEnv := Some(c))))
    case OtherHint(_) => Failure(InvalidPlugin(plug))
  }

  /** The loop at line 179 run over the remaining plugins `ps`. */
  function ClassifyHints(env: Env, st: ConnectorState, acc: Hints, ps: seq<PluginHint>): Result<(ConnectorState, Hints), Error>
    decreases |ps|
  {
    if ps == [] then Success((st, acc))
    else
      var step :- ClassifyHint(env, st, acc, ps[0]);
      ClassifyHints(env, step.0, step.1, ps[1..])
  }

  /** Lines 225-227: store what the loop found; the cluster environment is always chosen. */
  function StoreHints(env: Env, st: ConnectorState, acc: Hints): ConnectorState
  {
    st.(trainingType := acc.trainingType,
        precisionPlugin := acc.precision,
        clusterEnv := Some(if acc.clusterEnv.Some? then acc.clusterEnv.value else SelectClusterEnvironment(env, st)))
  }

  /** `handle_given_plugins()` from the loop accumulators `acc` onwards, over the plugins `ps` still to visit. */
  function HandleRemainingPlugins(env: Env, st: ConnectorState, acc: Hints, ps: seq<PluginHint>): Result<ConnectorState, Error>
  {
    var found :- ClassifyHints(env, st, acc, ps);
    Success(StoreHints(env, found.0, found.1))
  }

  /** `handle_given_plugins()`. */
  function HandleGivenPlugins(env: Env, st: ConnectorState): Result<ConnectorState, Error>
  {
    HandleRemainingPlugins(env, st, NoHints, st.settings.plugins)
  }

  // ---------------------------------------------------------------------------
  // select_training_type_plugin (lines 425-491) and the back-fill (lines 493-511)
  // ---------------------------------------------------------------------------

  /** Lines 440-474: the DDP plugin class, by fixed precedence. */
  function DdpPluginKind(env: Env, st: ConnectorState): StrategyKind
  {
    var slurmDdp := st.slurmManaging;
    var torchElasticDdp := env.usingTorchElastic && !InDdpSubprocess(env);
    var kubeflowDdp := env.usingKubeflow;
    var cpuSpawn := st.OnCpu();
    var cpuTorchElastic := cpuSpawn && env.usingTorchElastic;
    var cpuKubeflow := cpuSpawn && env.usingKubeflow;
    var cpuSlurm := cpuSpawn && st.slurmManaging;
    if st.OnTpu() && st.distribType == Some(TPUSpawn) then TPUSpawnPlugin
    else if st.distribType == Some(DDPSharded) then DDPShardedPlugin
    else if st.distribType == Some(DDPShardedSpawn) then DDPSpawnShardedPlugin
    else if cpuSlurm || slurmDdp || cpuTorchElastic || torchElasticDdp || kubeflowDdp || cpuKubeflow then DDPPlugin
    else if st.distribType == Some(DDPSpawn) || cpuSpawn then DDPSpawnPlugin
    else if st.distribType == Some(DDPFullySharded) then DDPFullyShardedPlugin
    else DDPPlugin
  }

  /** `select_training_type_plugin()`. */
  function SelectTrainingTypePlugin(env: Env, st: ConnectorState): Result<Strategy, Error>
  {
    if st.backend.AcceleratorBackend? && st.backend.handle.trainingTypePlugin.Some? then
      Success(st.backend.handle.trainingTypePlugin.value)
    else if st.UseDdp2() then
      var devices :- ParallelDevices(env, st);
      Success(NewParallelPlugin(DDP2Plugin, devices, st.clusterEnv))
    else if st.UseDdp() && st.UseDeepspeed() then
      var environment := SelectClusterEnvironment(env, st);
      var devices :- ParallelDevices(env, st);
      Success(NewParallelPlugin(DeepSpeedPlugin, devices, Some(environment)))
    else if st.UseDdp() then
      var devices :- ParallelDevices(env, st);
      Success(NewParallelPlugin(DdpPluginKind(env, st), devices, st.clusterEnv))
    else if st.UseDp() then
      var devices :- ParallelDevices(env, st);
      Success(NewParallelPlugin(DataParallelPlugin, devices, None))
    else if st.UseHorovod() then
      var devices :- ParallelDevices(env, st);
      Success(NewParallelPlugin(HorovodPlugin, devices, None))
    else if st.OnTpu() && st.settings.tpuCores.value.CoreList? then
      var ids := st.settings.tpuCores.value.ids;
      if ids == [] then Failure(EmptyTpuCoreList) else Success(NewSingleDevicePlugin(SingleTPUPlugin(ids[0])))
    else if st.OnIpu() then
      var devices :- ParallelDevices(env, st);
      Success(NewParallelPlugin(IPUPlugin, devices, None))
    else
      var device := if st.OnGpu(env.cudaAvailable) then Cuda(st.parallelDeviceIds.value[0]) else Cpu;
      Success(NewSingleDevicePlugin(SingleDevicePlugin(device)))
  }

  /**
   * `resolve_training_type_plugin(s)`: unset devices and cluster environment
   * are filled in, node count and batch-norm sync always come from the trainer.
   */
  function ResolveTrainingTypePlugin(env: Env, st: ConnectorState, s: Strategy): (r: Result<Strategy, Error>)
    ensures s.parallelDevices != Unset ==> r.Success?
    ensures r.Success? ==>
      var p := r.value;
      && p.kind == s.kind
      && (s.parallelDevices != Unset ==> p.parallelDevices == s.parallelDevices && p.numProcesses == s.numProcesses)
      && (s.parallelDevices == Unset ==>
            ParallelDevices(env, st).Success? && p.parallelDevices == Held(ParallelDevices(env, st).value)
            && p.numProcesses == (if s.numProcesses == Missing then Missing else Held(|ParallelDevices(env, st).value|)))
      && p.clusterEnvironment == (if s.clusterEnvironment == Unset then Held(SelectClusterEnvironment(env, st)) else s.clusterEnvironment)
      && p.numNodes == (if s.numNodes == Missing then Missing else Held(st.settings.numNodes))
      && p.syncBatchnorm == (if s.syncBatchnorm == Missing then Missing else Held(st.settings.syncBatchnorm))
    ensures s.parallelDevices == Unset && ParallelDevices(env, st).Failure? ==> r == Failure(ParallelDevices(env, st).error)
  {
    var s1 :-
      if s.parallelDevices == Unset then
        var devices :- ParallelDevices(env, st);
        Success(s.(parallelDevices := Held(devices),
                   numProcesses := if s.numProcesses == Missing then Missing else Held(|devices|)))
      else Success(s);
    var s2 := if s1.clusterEnvironment == Unset then s1.(clusterEnvironment := Held(SelectClusterEnvironment(env, st))) else s1;
    var s3 := if s2.numNodes == Missing then s2 else s2.(numNodes := Held(st.settings.numNodes));
    Success(if s3.syncBatchnorm == Missing then s3 else s3.(syncBatchnorm := Held(st.settings.syncBatchnorm)))
  }

  /** The memoized `training_type_plugin` property (lines 235-245). */
  function TrainingTypeProperty(env: Env, st: ConnectorState): (r: Result<(ConnectorState, Strategy), Error>)
    requires st.Valid()
    ensures r.Success? ==> r.value.0 == st.(trainingType := Some(r.value.1), resolved := true)
  {
    if st.resolved then Success((st, st.trainingType.value))
    else
      var chosen :- if st.trainingType.Some? then Success(st.trainingType.value) else SelectTrainingTypePlugin(env, st);
      var resolved :- ResolveTrainingTypePlugin(env, st, chosen);
      Success((st.(trainingType := Some(resolved), resolved := true), resolved))
  }

  // ---------------------------------------------------------------------------
  // select_precision_plugin (lines 369-423)
  // ---------------------------------------------------------------------------

  /** Lines 409-421: the Apex path, which needs the resolved strategy. */
  function SelectApexPrecision(env: Env, st: ConnectorState): Result<(ConnectorState, PrecisionPlugin), Error>
    requires st.Valid()
  {
    if !env.apexAvailable then Failure(ApexUnavailable)
    else
      var t :- TrainingTypeProperty(env, st);
      if IsSharded(t.1.kind) || IsFullySharded(t.1.kind) then Failure(ShardedWithApex)
      else Success((t.0, ApexMixedPrecisionPlugin(st.settings.ampLevel)))
  }

  /** Lines 387-423 for 16-bit precision off TPU. */
  function SelectHalfPrecision(env: Env, st: ConnectorState): Result<(ConnectorState, PrecisionPlugin), Error>
    requires st.Valid()
  {
    if st.ampType == Some(Native) then
      if st.OnCpu() then Failure(NativeAmpOnCpu)
      else if !env.nativeAmpAvailable then
        if env.apexAvailable then
          SelectApexPrecision(env, st.(ampType := Some(Apex), warnings := st.warnings + [NativeAmpFallsBackToApex]))
        else Failure(NativeAmpUnavailable)
      else
        var t :- TrainingTypeProperty(env, st);
        var plugin :=
          if IsSharded(t.1.kind) then ShardedNativeMixedPrecisionPlugin
          else if IsFullySharded(t.1.kind) then FullyShardedNativeMixedPrecisionPlugin
          else NativeMixedPrecisionPlugin;
        Success((t.0, plugin))
    else if st.ampType == Some(Apex) then SelectApexPrecision(env, st)
    else Failure(UnsupportedPrecision(16))
  }

  /** `select_precision_plugin()`. */
  function SelectPrecisionPlugin(env: Env, st: ConnectorState): Result<(ConnectorState, PrecisionPlugin), Error>
    requires st.Valid()
  {
    var bits := st.settings.precision;
    if st.OnIpu() then Success((st, IPUPrecisionPlugin(bits)))
    else if st.UseDeepspeed() || (st.trainingType.Some? && st.trainingType.value.kind == DeepSpeedPlugin) then
      Success((st, DeepSpeedPrecisionPlugin(bits)))
    else if bits == 32 then Success((st, FullPrecisionPlugin))
    else if bits == 64 then Success((st, DoublePrecisionPlugin))
    else if bits == 16 then
      if st.OnTpu() then Success((st, TPUHalfPrecisionPlugin)) else SelectHalfPrecision(env, st)
    else Failure(UnsupportedPrecision(bits))
  }

  /** The memoized `precision_plugin` property (lines 229-233). */
  function PrecisionProperty(env: Env, st: ConnectorState): Result<(ConnectorState, PrecisionPlugin), Error>
    requires st.Valid()
  {
    if st.precisionPlugin.Some? then Success((st, st.precisionPlugin.value))
    else
      var chosen :- SelectPrecisionPlugin(env, st);
      Success((chosen.0.(precisionPlugin := Some(chosen.1)), chosen.1))
  }

  // ---------------------------------------------------------------------------
  // select_accelerator (lines 513-537) and __init__ (lines 84-171)
  // ---------------------------------------------------------------------------

  /** The accelerator class for the device (lines 524-531). */
  function AcceleratorClassFor(env: Env, st: ConnectorState): AcceleratorClass
  {
    if st.OnGpu(env.cudaAvailable) then GPUAccelerator
    else if st.OnTpu() then TPUAccelerator
    else if st.OnIpu() then IPUAccelerator
    else CPUAccelerator
  }

  /** `select_accelerator()`: strategy first, then precision. */
  function SelectAccelerator(env: Env, st: ConnectorState): Result<(ConnectorState, Accelerator), Error>
    requires st.Valid()
  {
    if st.backend.AcceleratorBackend? then
      var warned := if st.precisionPlugin.Some? || st.trainingType.Some?
        then st.(warnings := st.warnings + [AcceleratorIgnoresPlugins]) else st;
      Success((warned, GivenAccelerator(st.backend.handle)))
    else
      var cls := AcceleratorClassFor(env, st);
      var t :- TrainingTypeProperty(env, st);
      var p :- PrecisionProperty(env, t.0);
      Success((p.0, BuiltAccelerator(cls, t.1, p.1)))
  }

  /** `AcceleratorConnector(...)`: the fields and the accelerator after construction. */
  function Initialize(env: Env, inputs: Inputs): Result<(ConnectorState, Accelerator), Error>
  {
    var s0 := InitialState(inputs);
    var s1 :- SetDistributedMode(env, s0, None);
    var s2 := ConfigureSlurmDdp(env, s1);
    var s3 :- HandleGivenPlugins(env, s2);
    var s4 := s3.(resolved := false);
    var selected :- SelectAccelerator(env, s4);
    var s5 := if selected.0.OnTpu() then selected.0.(backend := Named("tpu")) else selected.0;
    Success((s5, selected.1))
  }
}
