/**
 * `AcceleratorConnector` as a class whose methods update its fields in the
 * order pytorch_lightning/trainer/connectors/accelerator_connector.py does.
 * Each method is proved to leave the fields equal to the corresponding
 * function of Resolution.dfy applied to the old fields, or to raise the
 * error that function names.
 */
module Connector {
  import opened Wrappers
  import opened Kinds
  import opened Plugins
  import opened Resolution

  /** A step that returned `o` and left the fields at `post` did exactly what `spec` says. */
  predicate Agrees(o: Outcome<Error>, post: ConnectorState, spec: Result<ConnectorState, Error>)
  {
    match spec
    case Success(s) => o == Pass && post == s
    case Failure(e) => o == Fail(e)
  }

  /** The same for a step that also returns a value. */
  predicate AgreesOn<T(==)>(r: Result<T, Error>, post: ConnectorState, spec: Result<(ConnectorState, T), Error>)
  {
    match spec
    case Success(p) => r == Success(p.1) && post == p.0
    case Failure(e) => r == Failure(e)
  }

  class AcceleratorConnector {
    const env: Env
    const settings: Settings

    var deviceType: DeviceType
    var distribType: Option<DistributedType>
    var numProcesses: Option<int>
    var parallelDeviceIds: Option<seq<int>>
    var distributedBackend: Backend
    var isSlurmManagingTasks: bool
    var trainingTypePlugin: Option<Strategy>
    var precisionPlugin: Option<PrecisionPlugin>
    var clusterEnvironment: Option<ClusterEnvironment>
    var trainingTypePluginResolved: bool
    var ampType: Option<AmpType>
    var warnings: seq<Warning>
    var accelerator: Option<Accelerator>

    /** The fields as a value. */
    function Snapshot(): ConnectorState
      reads this
    {
      ConnectorState(settings, deviceType, distribType, numProcesses, parallelDeviceIds, distributedBackend,
                     isSlurmManagingTasks, trainingTypePlugin, precisionPlugin, clusterEnvironment,
                     trainingTypePluginResolved, ampType, warnings)
    }

    ghost predicate Valid()
      reads this
    {
      Snapshot().Valid()
    }

    /** Lines 103-140: record the arguments. */
    constructor (env: Env, inputs: Inputs)
      ensures this.env == env && Snapshot() == InitialState(inputs) && accelerator.None?
    {
      this.env := env;
      settings := Settings(inputs.tpuCores, inputs.ipus, inputs.numNodes, inputs.syncBatchnorm,
                           inputs.precision, inputs.ampLevel, NormalizePlugins(inputs.plugins));
      deviceType := CPU;
      distribType := None;
      numProcesses := inputs.numProcesses;
      distributedBackend := inputs.backend;
      ampType := inputs.ampType;
      isSlurmManagingTasks := false;
      precisionPlugin := None;
      trainingTypePlugin := None;
      clusterEnvironment := None;
      parallelDeviceIds := inputs.gpuIds;
      trainingTypePluginResolved := false;
      warnings := [];
      accelerator := None;
    }

    /** Lines 142-152: the whole resolution, in the constructor's order. */
    static method Create(env: Env, inputs: Inputs) returns (r: Result<AcceleratorConnector, Error>)
      ensures match Initialize(env, inputs)
        case Success(p) =>
          r.Success? && r.value.env == env && r.value.Snapshot() == p.0 && r.value.accelerator == Some(p.1)
        case Failure(e) => r == Failure(e)
    {
      var c := new AcceleratorConnector(env, inputs);
      var o := c.SetDistributedMode(None);
      if o.Fail? { return Failure(o.error); }
      c.ConfigureSlurmDdp();
      o := c.HandleGivenPlugins();
      if o.Fail? { return Failure(o.error); }
      c.trainingTypePluginResolved := false;
      var a := c.SelectAccelerator();
      if a.Failure? { return Failure(a.error); }
      c.accelerator := Some(a.value);
      if c.settings.tpuCores.Some? {
        c.distributedBackend := Named("tpu");
      }
      r := Success(c);
    }

    /** `_set_horovod_backend()`. */
    method SetHorovodBackend() returns (o: Outcome<Error>)
      modifies this
      ensures accelerator == old(accelerator)
      ensures Agrees(o, Snapshot(), Resolution.SetHorovodBackend(env, old(Snapshot())))
    {
      o := CheckHorovod(env, Snapshot());
      if o.Fail? { return; }
      distribType := Some(Horovod);
      if GpuCount(parallelDeviceIds) > 0 && env.cudaAvailable {
        parallelDeviceIds := Some(Range(env.horovodLocalSize));
      } else {
        numProcesses := Some(env.horovodLocalSize);
      }
    }

    /** `set_distributed_mode(arg)`: the stages below, in the source's order. */
    method SetDistributedMode(arg: Option<string>) returns (o: Outcome<Error>)
      modifies this
      ensures accelerator == old(accelerator)
      ensures Agrees(o, Snapshot(), Resolution.SetDistributedMode(env, old(Snapshot()), arg))
    {
      ghost var st := Snapshot();
      ghost var spec := Resolution.SetDistributedMode(env, st, arg);
      o := Pass;
      if arg.None? && IsTrainingTypeInPlugins(env, settings.plugins) { return; }
      if arg.Some? {
        var name := arg.value;
        distributedBackend := Named(if name in env.registry then env.registry[name].backend else name);
      }
      ghost var s0 := Snapshot();
      assert s0 == WithBackendArg(env, st, arg);
      if distributedBackend.AcceleratorBackend? { return; }
      if distributedBackend.NoBackend? {
        o := ChooseWithoutBackend();
        if o.Fail? {
          assert spec == Failure(o.error);
          return;
        }
      }
      ghost var s1 := Snapshot();
      assert (if s0.backend.NoBackend? then Resolution.ChooseWithoutBackend(env, s0) else Success(s0)) == Success(s1);
      o := ApplyBackendName();
      if o.Fail? {
        assert spec == Failure(o.error);
        return;
      }
      o := FinishMode();
    }

    /** Lines 598-652: the steps after the backend name has been applied. */
    method FinishMode() returns (o: Outcome<Error>)
      modifies this
      ensures accelerator == old(accelerator)
      ensures Agrees(o, Snapshot(), Resolution.FinishMode(env, old(Snapshot())))
    {
      ghost var s2 := Snapshot();
      ghost var spec := Resolution.FinishMode(env, s2);
      PromoteToGpu();
      DowngradeWithoutGpus();
      ghost var s3 := Snapshot();
      assert s3 == Resolution.DowngradeWithoutGpus(Resolution.PromoteToGpu(s2));
      o := CheckInteractiveCompatibility(env, Snapshot());
      if o.Fail? {
        assert spec == Failure(o.error);
        return;
      }
      OverrideProcessCount();
      ghost var s4 := Snapshot();
      if distributedBackend == Named("horovod") {
        o := SetHorovodBackend();
        if o.Fail? {
          assert spec == Failure(o.error);
          return;
        }
      }
      ghost var s5 := Snapshot();
      assert (if s4.backend == Named("horovod") then Resolution.SetHorovodBackend(env, s4) else Success(s4)) == Success(s5);
      var usingValidDistributed := (distribType.Some? && IsDdpFamily(distribType.value)) || distribType == Some(DDP2);
      if settings.numNodes > 1 && !usingValidDistributed {
        assert spec == Failure(MultiNodeUnsupported);
        return Fail(MultiNodeUnsupported);
      }
      WarnUnusedGpu();
      assert spec == Success(Snapshot());
    }

    /** Lines 565-575. */
    method ChooseWithoutBackend() returns (o: Outcome<Error>)
      modifies this
      ensures accelerator == old(accelerator)
      ensures Agrees(o, Snapshot(), Resolution.ChooseWithoutBackend(env, old(Snapshot())))
    {
      o := Pass;
      if HasHorovodrun(env) {
        o := SetHorovodBackend();
      } else if GpuCount(parallelDeviceIds) == 0 && settings.numNodes <= 1 && numProcesses.None? {
        o := Fail(NoneProcessCount);
      } else if GpuCount(parallelDeviceIds) == 0 && (settings.numNodes > 1 || numProcesses.value > 1) {
        distribType := Some(DDP);
      } else if GpuCount(parallelDeviceIds) > 1 {
        warnings := warnings + [MultipleGpusWithoutBackend];
        distributedBackend := Named("ddp_spawn");
      }
    }

    /** Lines 577-596: DDP on CPUs, TPUs, IPUs; else the name is parsed. */
    method ApplyBackendName() returns (o: Outcome<Error>)
      modifies this
      ensures accelerator == old(accelerator)
      ensures Agrees(o, Snapshot(), Resolution.ApplyBackendName(env, old(Snapshot())))
    {
      o := Pass;
      if distributedBackend == Named("ddp_cpu") {
        distribType := Some(DDPSpawn);
        if GpuCount(parallelDeviceIds) > 0 {
          warnings := warnings + [DdpCpuIgnoresGpus];
          parallelDeviceIds := None;
        }
        if numProcesses.None? {
          numProcesses := env.cpuCount;
        }
      } else if distributedBackend == Named("tpu") || settings.tpuCores.Some? {
        deviceType := TPU;
        if settings.tpuCores.Some? && settings.tpuCores.value.CoreCount? {
          distribType := Some(TPUSpawn);
        }
      } else if distributedBackend == Named("ipu") {
        deviceType := IPU;
      } else if distributedBackend.Named? && distributedBackend.name != "" && distribType.None? {
        var kind := ParseKind(distributedBackend.name);
        if kind.None? {
          o := Fail(UnknownDistributedType(distributedBackend.name));
        } else {
          distribType := kind;
        }
      }
    }

    /** Lines 599-601. */
    method PromoteToGpu()
      modifies this
      ensures accelerator == old(accelerator)
      ensures Snapshot() == Resolution.PromoteToGpu(old(Snapshot()))
    {
      if GpuCount(parallelDeviceIds) > 0 && !NamesCpu(distributedBackend) {
        deviceType := GPU;
      }
    }

    /** Lines 603-614. */
    method DowngradeWithoutGpus()
      modifies this
      ensures accelerator == old(accelerator)
      ensures Snapshot() == Resolution.DowngradeWithoutGpus(old(Snapshot()))
    {
      if GpuCount(parallelDeviceIds) == 0 && distribType.Some? && NeedsGpu(distribType.value)
         && !NamesCpu(distributedBackend) {
        warnings := warnings + [GpuKindWithoutGpus];
        if settings.numNodes > 1 || (numProcesses.Some? && numProcesses.value > 1) {
          distribType := Some(DDP);
        } else {
          warnings := warnings + [SingleProcessNoEffect];
          distribType := None;
        }
      }
    }

    /** Lines 620-627. */
    method OverrideProcessCount()
      modifies this
      ensures accelerator == old(accelerator)
      ensures Snapshot() == Resolution.OverrideProcessCount(old(Snapshot()))
    {
      if deviceType == GPU && (distribType == Some(DDP) || distribType == Some(DDPSpawn)) {
        numProcesses := Some(GpuCount(parallelDeviceIds));
      }
      if deviceType == GPU && distribType == Some(DDP2) {
        numProcesses := Some(settings.numNodes);
      }
    }

    /** Lines 648-652. */
    method WarnUnusedGpu()
      modifies this
      ensures accelerator == old(accelerator)
      ensures Snapshot() == Resolution.WarnUnusedGpu(env, old(Snapshot()))
    {
      if env.cudaAvailable && deviceType != GPU {
        warnings := warnings + [GpuAvailableButUnused];
      }
    }

    /** `configure_slurm_ddp()`: the flag is worked out step by step, as in the source, then stored. */
    method ConfigureSlurmDdp()
      modifies this
      ensures accelerator == old(accelerator)
      ensures Snapshot() == Resolution.ConfigureSlurmDdp(env, old(Snapshot()))
    {
      var managed := isSlurmManagingTasks;
      if (distribType.Some? && IsDdpFamily(distribType.value)) || distribType == Some(DDP2) {
        var requested := GpuCount(parallelDeviceIds) * settings.numNodes;
        var tasks := EnvInt(env, "SLURM_NTASKS");
        if tasks.None? {
          managed := false;
        } else {
          managed := tasks.value == requested;
          if requested == 0 {
            managed := numProcesses == Some(tasks.value);
          }
          if "SLURM_JOB_NAME" !in env.vars {
            managed := false;
          } else if env.vars["SLURM_JOB_NAME"] == "bash" {
            managed := false;
          }
        }
        assert managed == SlurmManagesTasks(env, Snapshot());
      }
      var fake := EnvInt(env, "FAKE_SLURM_MANAGING_TASKS");
      if fake.Some? && fake.value != 0 {
        managed := true;
      }
      isSlurmManagingTasks := managed;
    }

    /** `handle_given_plugins()`. */
    method HandleGivenPlugins() returns (o: Outcome<Error>)
      modifies this
      ensures accelerator == old(accelerator)
      ensures Agrees(o, Snapshot(), Resolution.HandleGivenPlugins(env, old(Snapshot())))
    {
      var trainingType: Option<Strategy> := None;
      var precision: Option<PrecisionPlugin> := None;
      var environment: Option<ClusterEnvironment> := None;
      var plugins := settings.plugins;
      var i := 0;
      while i < |plugins|
        invariant 0 <= i <= |plugins|
        invariant accelerator == old(accelerator)
        invariant HandleRemainingPlugins(env, Snapshot(), Hints(trainingType, precision, environment), plugins[i..])
                  == Resolution.HandleGivenPlugins(env, old(Snapshot()))
      {
        var plug := plugins[i];
        assert plugins[i..] == [plug] + plugins[i + 1..];
        if plug.NameHint? && plug.name in env.registry {
          if trainingType.None? {
            trainingType := Some(env.registry[plug.name].plugin);
          } else {
            return Fail(MultipleTrainingTypePlugins(plug));
          }
        }
        if plug.NameHint? {
          distribType := None;
          o := SetDistributedMode(Some(plug.name));
          if o.Fail? { return; }
        } else if plug.TrainingTypeHint? {
          if trainingType.None? {
            trainingType := Some(plug.strategy);
          } else {
            return Fail(MultipleTrainingTypePlugins(plug));
          }
        } else if plug.PrecisionHint? {
          if precision.None? {
            precision := Some(plug.precision);
          } else {
            return Fail(MultiplePrecisionPlugins(plug));
          }
        } else if plug.ClusterEnvironmentHint? {
          if environment.None? {
            environment := Some(plug.environment);
          } else {
            return Fail(MultipleClusterEnvironments(plug));
          }
        } else {
          return Fail(InvalidPlugin(plug));
        }
        i := i + 1;
      }
      var chosen := if environment.Some? then environment.value else SelectClusterEnvironment(env, Snapshot());
      trainingTypePlugin := trainingType;
      precisionPlugin := precision;
      clusterEnvironment := Some(chosen);
      o := Pass;
    }

    /** The memoized `training_type_plugin` property. */
    method ResolvedTrainingTypePlugin() returns (r: Result<Strategy, Error>)
      requires Valid()
      modifies this
      ensures accelerator == old(accelerator)
      ensures Valid()
      ensures AgreesOn(r, Snapshot(), TrainingTypeProperty(env, old(Snapshot())))
    {
      if trainingTypePluginResolved {
        return Success(trainingTypePlugin.value);
      }
      ghost var before := Snapshot();
      if trainingTypePlugin.None? {
        var selected := SelectTrainingTypePlugin(env, Snapshot());
        if selected.Failure? { return Failure(selected.error); }
        trainingTypePlugin := Some(selected.value);
      }
      assert ResolveTrainingTypePlugin(env, Snapshot(), trainingTypePlugin.value)
          == ResolveTrainingTypePlugin(env, before, trainingTypePlugin.value);
      var resolved := ResolveTrainingTypePlugin(env, Snapshot(), trainingTypePlugin.value);
      if resolved.Failure? { return Failure(resolved.error); }
      trainingTypePlugin := Some(resolved.value);
      trainingTypePluginResolved := true;
      r := Success(resolved.value);
    }

    /** `select_precision_plugin()`. */
    method SelectPrecisionPlugin() returns (r: Result<PrecisionPlugin, Error>)
      requires Valid()
      modifies this
      ensures accelerator == old(accelerator)
      ensures Valid()
      ensures AgreesOn(r, Snapshot(), Resolution.SelectPrecisionPlugin(env, old(Snapshot())))
    {
      var bits := settings.precision;
      if settings.ipus.Some? {
        return Success(IPUPrecisionPlugin(bits));
      }
      if distribType == Some(DeepSpeed) || (trainingTypePlugin.Some? && trainingTypePlugin.value.kind == DeepSpeedPlugin) {
        return Success(DeepSpeedPrecisionPlugin(bits));
      }
      if bits == 32 {
        return Success(FullPrecisionPlugin);
      } else if bits == 64 {
        return Success(DoublePrecisionPlugin);
      } else if bits == 16 {
        if settings.tpuCores.Some? {
          return Success(TPUHalfPrecisionPlugin);
        }
        if ampType == Some(Native) {
          if deviceType == CPU {
            return Failure(NativeAmpOnCpu);
          } else if !env.nativeAmpAvailable {
            if env.apexAvailable {
              ampType := Some(Apex);
              warnings := warnings + [NativeAmpFallsBackToApex];
            } else {
              return Failure(NativeAmpUnavailable);
            }
          } else {
            var t := ResolvedTrainingTypePlugin();
            if t.Failure? { return Failure(t.error); }
            if IsSharded(t.value.kind) {
              return Success(ShardedNativeMixedPrecisionPlugin);
            }
            if IsFullySharded(t.value.kind) {
              return Success(FullyShardedNativeMixedPrecisionPlugin);
            }
            return Success(NativeMixedPrecisionPlugin);
          }
        }
        if ampType == Some(Apex) {
          if !env.apexAvailable {
            return Failure(ApexUnavailable);
          }
          var t := ResolvedTrainingTypePlugin();
          if t.Failure? { return Failure(t.error); }
          if IsSharded(t.value.kind) || IsFullySharded(t.value.kind) {
            return Failure(ShardedWithApex);
          }
          return Success(ApexMixedPrecisionPlugin(settings.ampLevel));
        }
      }
      return Failure(UnsupportedPrecision(bits));
    }

    /** The memoized `precision_plugin` property. */
    method ResolvedPrecisionPlugin() returns (r: Result<PrecisionPlugin, Error>)
      requires Valid()
      modifies this
      ensures accelerator == old(accelerator)
      ensures Valid()
      ensures AgreesOn(r, Snapshot(), PrecisionProperty(env, old(Snapshot())))
    {
      if precisionPlugin.Some? {
        return Success(precisionPlugin.value);
      }
      r := SelectPrecisionPlugin();
      if r.Success? {
        precisionPlugin := Some(r.value);
      }
    }

    /** `select_accelerator()`. */
    method SelectAccelerator() returns (r: Result<Accelerator, Error>)
      requires Valid()
      modifies this
      ensures accelerator == old(accelerator)
      ensures Valid()
      ensures AgreesOn(r, Snapshot(), Resolution.SelectAccelerator(env, old(Snapshot())))
    {
      if distributedBackend.AcceleratorBackend? {
        if precisionPlugin.Some? || trainingTypePlugin.Some? {
          warnings := warnings + [AcceleratorIgnoresPlugins];
        }
        return Success(GivenAccelerator(distributedBackend.handle));
      }
      var cls := AcceleratorClassFor(env, Snapshot());
      var t := ResolvedTrainingTypePlugin();
      if t.Failure? { return Failure(t.error); }
      var p := ResolvedPrecisionPlugin();
      if p.Failure? { return Failure(p.error); }
      r := Success(BuiltAccelerator(cls, t.value, p.value));
    }
  }
}
