/**
 * Tags for the plugin, device, cluster-environment and accelerator objects the
 * connector selects.  Their classes live outside the connector; only the
 * identity of each class and the attributes the connector reads or writes are
 * kept.
 */
module Plugins {
  import opened Wrappers

  /** A `torch.device`: `cuda:<index>`, `cpu`, or the plain integers used for TPU and IPU devices. */
  datatype Device = Cuda(index: int) | Cpu | Ordinal(index: int)

  /** The launch environment that discovers rank and world size. */
  datatype ClusterEnvironment =
    | SLURMEnvironment | TorchElasticEnvironment | KubeflowEnvironment | LightningEnvironment
    | UserEnvironment(name: string)

  /**
   * An attribute a plugin may or may not have: `Missing` where `hasattr` is false,
   * `Unset` where it holds `None`, `Held(v)` otherwise.
   */
  datatype Slot<T> = Missing | Unset | Held(value: T)

  /** The class of a training-type (strategy) plugin. */
  datatype StrategyKind =
    | DDPPlugin | DDPSpawnPlugin | DDP2Plugin | DDPShardedPlugin | DDPSpawnShardedPlugin
    | DDPFullyShardedPlugin | DeepSpeedPlugin | TPUSpawnPlugin | DataParallelPlugin
    | HorovodPlugin | IPUPlugin | SingleTPUPlugin(tpuId: int) | SingleDevicePlugin(device: Device)
    | UserPlugin(name: string)

  /** A training-type plugin with the attributes the back-fill step reads and writes. */
  datatype Strategy = Strategy(
    kind: StrategyKind,
    parallelDevices: Slot<seq<Device>>,
    clusterEnvironment: Slot<ClusterEnvironment>,
    numProcesses: Slot<int>,
    numNodes: Slot<int>,
    syncBatchnorm: Slot<bool>)

  /** `isinstance(p, (DDPShardedPlugin, DDPSpawnShardedPlugin))`. */
  predicate IsSharded(k: StrategyKind)
  {
    k.DDPShardedPlugin? || k.DDPSpawnShardedPlugin?
  }

  /** `isinstance(p, DDPFullyShardedPlugin)`. */
  predicate IsFullySharded(k: StrategyKind)
  {
    k.DDPFullyShardedPlugin?
  }

  /** The plugin classes built on the DDP plugins, which carry process, node and batch-norm settings. */
  predicate HasNodeSettings(k: StrategyKind)
  {
    k.DDPPlugin? || k.DDPSpawnPlugin? || k.DDP2Plugin? || k.DDPShardedPlugin? || k.DDPSpawnShardedPlugin?
    || k.DDPFullyShardedPlugin? || k.DeepSpeedPlugin? || k.TPUSpawnPlugin?
  }

  /**
   * A library parallel plugin built as `Cls(parallel_devices=devices, cluster_environment=env)`.
   * It always has the device and environment attributes. A DDP-derived class
   * starts with one process per device; any other class lacks the settings,
   * which the back-fill then skips.
   */
  function NewParallelPlugin(kind: StrategyKind, devices: seq<Device>, env: Option<ClusterEnvironment>): (p: Strategy)
    ensures p.kind == kind && p.parallelDevices == Held(devices) && !p.clusterEnvironment.Missing?
    ensures env.Some? ==> p.clusterEnvironment == Held(env.value)
    ensures HasNodeSettings(kind) <==> p.numProcesses.Held?
    ensures HasNodeSettings(kind) ==> p.numProcesses == Held(|devices|)
    ensures !HasNodeSettings(kind) ==> p.numNodes.Missing? && p.syncBatchnorm.Missing?
  {
    var settings := HasNodeSettings(kind);
    Strategy(kind, Held(devices), if env.Some? then Held(env.value) else Unset,
             if settings then Held(|devices|) else Missing,
             if settings then Held(1) else Missing,
             if settings then Held(false) else Missing)
  }

  /** A library single-device plugin, which has none of the back-filled attributes. */
  function NewSingleDevicePlugin(kind: StrategyKind): Strategy
  {
    Strategy(kind, Missing, Missing, Missing, Missing, Missing)
  }

  /** The class of a precision plugin; `FullPrecisionPlugin` is the base `PrecisionPlugin()`. */
  datatype PrecisionPlugin =
    | IPUPrecisionPlugin(bits: int) | DeepSpeedPrecisionPlugin(bits: int)
    | FullPrecisionPlugin | DoublePrecisionPlugin | TPUHalfPrecisionPlugin
    | NativeMixedPrecisionPlugin | ShardedNativeMixedPrecisionPlugin
    | FullyShardedNativeMixedPrecisionPlugin | ApexMixedPrecisionPlugin(ampLevel: string)
    | UserPrecisionPlugin(name: string)

  /** An `Accelerator` instance passed as the distributed backend. */
  datatype CustomAccelerator = CustomAccelerator(name: string, trainingTypePlugin: Option<Strategy>)

  datatype AcceleratorClass = CPUAccelerator | GPUAccelerator | TPUAccelerator | IPUAccelerator

  /** The accelerator the connector hands back. */
  datatype Accelerator =
    | GivenAccelerator(handle: CustomAccelerator)
    | BuiltAccelerator(cls: AcceleratorClass, trainingTypePlugin: Strategy, precisionPlugin: PrecisionPlugin)

  /** The `distributed_backend` value: `None`, a name, or a user `Accelerator`. */
  datatype Backend = NoBackend | Named(name: string) | AcceleratorBackend(handle: CustomAccelerator)

  /** One element of the `plugins` argument. */
  datatype PluginHint =
    | NameHint(name: string)
    | TrainingTypeHint(strategy: Strategy)
    | PrecisionHint(precision: PrecisionPlugin)
    | ClusterEnvironmentHint(environment: ClusterEnvironment)
    | OtherHint(description: string)

  /** The `plugins` argument before normalisation: `None`, one object or string, or a sequence. */
  datatype PluginsArg = NoPlugins | OneHint(hint: PluginHint) | HintSequence(hints: seq<PluginHint>)

  /**
   * Lines 126-134: the argument as a list. A sequence is kept in order; a
   * single object or `None` gives a list holding exactly that one hint or none.
   */
  function NormalizePlugins(arg: PluginsArg): (ps: seq<PluginHint>)
    ensures arg.HintSequence? ==> ps == arg.hints
    ensures !arg.HintSequence? ==> |ps| <= 1 && forall h :: h in ps <==> arg.OneHint? && h == arg.hint
  {
    match arg
    case NoPlugins => []
    case OneHint(h) => [h]
    case HintSequence(hs) => hs
  }

  /** A `TrainingTypePluginsRegistry` entry: its `distributed_backend` and the plugin `get` builds. */
  datatype RegistryEntry = RegistryEntry(backend: string, plugin: Strategy)
}
