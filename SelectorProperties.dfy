/**
 * What the selectors promise once the mode is known: the strategy class
 * (pytorch_lightning/trainer/connectors/accelerator_connector.py:425-491), its
 * back-fill (493-511), the memoized properties (229-245) and the precision
 * plugin (369-423).
 */
module SelectorProperties {
  import opened Wrappers
  import opened Kinds
  import opened Plugins
  import opened Resolution

  // ---------------------------------------------------------------------------
  // select_training_type_plugin
  // ---------------------------------------------------------------------------

  /** A launcher already started the processes: SLURM, Kubeflow, or TorchElastic outside a DDP subprocess or on CPU. */
  predicate LaunchedExternally(env: Env, st: ConnectorState)
  {
    st.slurmManaging || env.usingKubeflow || (env.usingTorchElastic && (!InDdpSubprocess(env) || st.OnCpu()))
  }

  /**
   * Lines 458-474: TPU-spawn, then sharded, then sharded-spawn, then an external
   * launcher giving plain DDP, then spawn or CPU giving DDP-spawn, then fully
   * sharded, and plain DDP otherwise.  Each class is chosen exactly when its
   * own condition holds and no earlier one does.
   */
  lemma {:induction false} DdpPluginPrecedence(env: Env, st: ConnectorState)
    ensures var k := DdpPluginKind(env, st);
      var tpuSpawn := st.OnTpu() && st.distribType == Some(TPUSpawn);
      var sharded := st.distribType == Some(DDPSharded);
      var shardedSpawn := st.distribType == Some(DDPShardedSpawn);
      var launched := LaunchedExternally(env, st);
      var spawn := st.distribType == Some(DDPSpawn) || st.OnCpu();
      var fullySharded := st.distribType == Some(DDPFullySharded);
      && (k == TPUSpawnPlugin <==> tpuSpawn)
      && (k == DDPShardedPlugin <==> !tpuSpawn && sharded)
      && (k == DDPSpawnShardedPlugin <==> !tpuSpawn && shardedSpawn)
      && (k == DDPSpawnPlugin <==> !tpuSpawn && !sharded && !shardedSpawn && !launched && spawn)
      && (k == DDPFullyShardedPlugin <==> !tpuSpawn && !launched && !spawn && fullySharded)
      && (k == DDPPlugin <==>
            !tpuSpawn && !sharded && !shardedSpawn && (launched || (!spawn && !fullySharded)))
  {
  }

  /** The modes that build a parallel plugin over `parallel_devices`. */
  predicate BuildsParallelPlugin(st: ConnectorState)
  {
    st.UseDdp2() || st.UseDdp() || st.UseDp() || st.UseHorovod()
    || (st.distribType.None? && !(st.OnTpu() && st.settings.tpuCores.value.CoreList?) && st.OnIpu())
  }

  /**
   * Lines 430-490: the plugin class each mode selects when no custom
   * accelerator supplies one; parallel plugins get the parallel devices and
   * raise where those cannot be computed.
   */
  lemma SelectedStrategyKind(env: Env, st: ConnectorState)
    requires !(st.backend.AcceleratorBackend? && st.backend.handle.trainingTypePlugin.Some?)
    ensures var r := SelectTrainingTypePlugin(env, st);
      var devices := ParallelDevices(env, st);
      && (BuildsParallelPlugin(st) && devices.Failure? ==> r == Failure(devices.error))
      && (BuildsParallelPlugin(st) && devices.Success? ==> r.Success? && r.value.parallelDevices == Held(devices.value))
      && (r.Success? ==>
        && (st.UseDdp2() ==> r.value.kind == DDP2Plugin)
        && (st.UseDeepspeed() ==> r.value.kind == DeepSpeedPlugin && r.value.clusterEnvironment == Held(SelectClusterEnvironment(env, st)))
        && (st.UseDdp() && !st.UseDeepspeed() ==> r.value.kind == DdpPluginKind(env, st))
        && (st.UseDdp2() || (st.UseDdp() && !st.UseDeepspeed()) ==>
              r.value.clusterEnvironment == (if st.clusterEnv.Some? then Held(st.clusterEnv.value) else Unset))
        && (st.UseDp() ==> r.value.kind == DataParallelPlugin)
        && (st.UseHorovod() ==> r.value.kind == HorovodPlugin))
      && (st.distribType.None? && st.OnTpu() && st.settings.tpuCores.value.CoreList? ==>
            var ids := st.settings.tpuCores.value.ids;
            r == if ids == [] then Failure(EmptyTpuCoreList) else Success(NewSingleDevicePlugin(SingleTPUPlugin(ids[0]))))
      && (st.distribType.None? && !(st.OnTpu() && st.settings.tpuCores.value.CoreList?) && st.OnIpu() && r.Success? ==>
            r.value.kind == IPUPlugin)
      && (st.distribType.None? && !(st.OnTpu() && st.settings.tpuCores.value.CoreList?) && !st.OnIpu() ==>
            r == Success(NewSingleDevicePlugin(SingleDevicePlugin(
                   if st.OnGpu(env.cudaAvailable) then Cuda(st.parallelDeviceIds.value[0]) else Cpu))))
  {
  }

  /** A custom accelerator that carries a strategy supplies it unchanged (lines 426-429). */
  lemma CustomAcceleratorStrategy(env: Env, st: ConnectorState)
    requires st.backend.AcceleratorBackend? && st.backend.handle.trainingTypePlugin.Some?
    ensures SelectTrainingTypePlugin(env, st) == Success(st.backend.handle.trainingTypePlugin.value)
  {
  }

  // ---------------------------------------------------------------------------
  // resolve_training_type_plugin and the training_type_plugin property
  // ---------------------------------------------------------------------------

  /** Back-filling an already back-filled strategy changes nothing. */
  lemma BackFillIdempotent(env: Env, st: ConnectorState, s: Strategy)
    requires ResolveTrainingTypePlugin(env, st, s).Success?
    ensures var p := ResolveTrainingTypePlugin(env, st, s).value;
      ResolveTrainingTypePlugin(env, st, p) == Success(p)
  {
    var p := ResolveTrainingTypePlugin(env, st, s).value;
    assert p.parallelDevices != Unset && p.clusterEnvironment != Unset;
  }

  /**
   * Lines 235-245: once resolved, the property returns the stored strategy and
   * changes nothing; a first read that succeeds marks the strategy resolved, so
   * a second read returns the same strategy and the same fields.
   */
  lemma TrainingTypeMemoized(env: Env, st: ConnectorState)
    requires st.Valid()
    ensures st.resolved ==> TrainingTypeProperty(env, st) == Success((st, st.trainingType.value))
    ensures var r := TrainingTypeProperty(env, st);
      r.Success? ==> r.value.0.Valid() && r.value.0.resolved && TrainingTypeProperty(env, r.value.0) == r
  {
  }

  /**
   * Lines 240-242: a strategy stored before the first read (a user plugin) is
   * not replaced by selection; it is only back-filled from the trainer's settings.
   */
  lemma StoredStrategyBackFilled(env: Env, st: ConnectorState)
    requires st.Valid() && !st.resolved && st.trainingType.Some?
    ensures var r := TrainingTypeProperty(env, st);
      var s := st.trainingType.value;
      && (s.parallelDevices != Unset ==> r.Success?)
      && (r.Success? ==>
            && r.value.1.kind == s.kind
            && (s.numNodes != Missing ==> r.value.1.numNodes == Held(st.settings.numNodes))
            && (s.syncBatchnorm != Missing ==> r.value.1.syncBatchnorm == Held(st.settings.syncBatchnorm))
            && (s.clusterEnvironment.Held? ==> r.value.1.clusterEnvironment == s.clusterEnvironment)
            && (s.parallelDevices.Held? ==> r.value.1.parallelDevices == s.parallelDevices))
  {
  }

  // ---------------------------------------------------------------------------
  // select_precision_plugin and the precision_plugin property
  // ---------------------------------------------------------------------------

  /** The checks before the 16-bit branch do not apply. */
  predicate PlainPrecision(st: ConnectorState)
  {
    !st.OnIpu() && !st.UseDeepspeed() && !(st.trainingType.Some? && st.trainingType.value.kind == DeepSpeedPlugin)
  }

  /**
   * Lines 373-385 and 423: IPU first, then DeepSpeed, then 32 and 64 bits, then
   * 16 bits on TPU; any bit-width other than 16, 32 and 64 raises.
   */
  lemma PrecisionSelectionOrder(env: Env, st: ConnectorState)
    requires st.Valid()
    ensures var r := SelectPrecisionPlugin(env, st);
      var bits := st.settings.precision;
      var deepspeed := st.UseDeepspeed() || (st.trainingType.Some? && st.trainingType.value.kind == DeepSpeedPlugin);
      && (st.OnIpu() ==> r == Success((st, IPUPrecisionPlugin(bits))))
      && (!st.OnIpu() && deepspeed ==> r == Success((st, DeepSpeedPrecisionPlugin(bits))))
      && (PlainPrecision(st) && bits == 32 ==> r == Success((st, FullPrecisionPlugin)))
      && (PlainPrecision(st) && bits == 64 ==> r == Success((st, DoublePrecisionPlugin)))
      && (PlainPrecision(st) && bits == 16 && st.OnTpu() ==> r == Success((st, TPUHalfPrecisionPlugin)))
      && (PlainPrecision(st) && bits !in {16, 32, 64} ==> r == Failure(UnsupportedPrecision(bits)))
      && (PlainPrecision(st) && bits == 16 && st.ampType.None? && !st.OnTpu() ==> r == Failure(UnsupportedPrecision(16)))
  {
  }

  /** The 16-bit branch off TPU with the given half-precision backend. */
  predicate HalfPrecisionWith(st: ConnectorState, amp: AmpType)
  {
    PlainPrecision(st) && st.settings.precision == 16 && !st.OnTpu() && st.ampType == Some(amp)
  }

  /**
   * Lines 387-407: native AMP raises on CPU, and raises when neither native AMP
   * nor Apex is available; when native AMP is available the plugin follows the
   * resolved strategy: sharded, fully sharded, or plain native.
   */
  lemma NativeHalfPrecision(env: Env, st: ConnectorState)
    requires st.Valid() && HalfPrecisionWith(st, Native)
    ensures var r := SelectPrecisionPlugin(env, st);
      var t := TrainingTypeProperty(env, st);
      && (st.OnCpu() ==> r == Failure(NativeAmpOnCpu))
      && (!st.OnCpu() && !env.nativeAmpAvailable && !env.apexAvailable ==> r == Failure(NativeAmpUnavailable))
      && (!st.OnCpu() && env.nativeAmpAvailable && t.Failure? ==> r == Failure(t.error))
      && (!st.OnCpu() && env.nativeAmpAvailable && t.Success? ==>
            && r.Success? && r.value.0 == t.value.0
            && (IsSharded(t.value.1.kind) ==> r.value.1 == ShardedNativeMixedPrecisionPlugin)
            && (IsFullySharded(t.value.1.kind) ==> r.value.1 == FullyShardedNativeMixedPrecisionPlugin)
            && (!IsSharded(t.value.1.kind) && !IsFullySharded(t.value.1.kind) ==> r.value.1 == NativeMixedPrecisionPlugin))
  {
  }

  /**
   * Lines 392-398: native AMP that is not available falls back to Apex with a
   * warning; the amp type becomes Apex and the result is whatever the Apex path gives.
   */
  lemma NativeFallsBackToApex(env: Env, st: ConnectorState)
    requires st.Valid() && HalfPrecisionWith(st, Native)
    requires !st.OnCpu() && !env.nativeAmpAvailable && env.apexAvailable
    ensures var r := SelectPrecisionPlugin(env, st);
      var fallback := st.(ampType := Some(Apex), warnings := st.warnings + [NativeAmpFallsBackToApex]);
      && HalfPrecisionWith(fallback, Apex)
      && r == SelectPrecisionPlugin(env, fallback)
      && (r.Success? ==> r.value.1 == ApexMixedPrecisionPlugin(st.settings.ampLevel)
                         && r.value.0.ampType == Some(Apex)
                         && NativeAmpFallsBackToApex in r.value.0.warnings)
  {
    var fallback := st.(ampType := Some(Apex), warnings := st.warnings + [NativeAmpFallsBackToApex]);
    var t := TrainingTypeProperty(env, fallback);
    if t.Success? {
      assert t.value.0.warnings == fallback.warnings;
    }
  }

  /**
   * Lines 409-421: Apex raises when it is not installed and raises with a
   * sharded or fully sharded strategy; otherwise it gives the Apex plugin at
   * the requested optimisation level.
   */
  lemma ApexHalfPrecision(env: Env, st: ConnectorState)
    requires st.Valid() && HalfPrecisionWith(st, Apex)
    ensures var r := SelectPrecisionPlugin(env, st);
      var t := TrainingTypeProperty(env, st);
      && (!env.apexAvailable ==> r == Failure(ApexUnavailable))
      && (env.apexAvailable && t.Failure? ==> r == Failure(t.error))
      && (env.apexAvailable && t.Success? && (IsSharded(t.value.1.kind) || IsFullySharded(t.value.1.kind)) ==>
            r == Failure(ShardedWithApex))
      && (env.apexAvailable && t.Success? && !IsSharded(t.value.1.kind) && !IsFullySharded(t.value.1.kind) ==>
            r == Success((t.value.0, ApexMixedPrecisionPlugin(st.settings.ampLevel))))
  {
  }

  /** `post` differs from `st` only in the strategy, its resolved flag, the AMP type and the warnings, and a resolved strategy is kept. */
  predicate PrecisionStep(st: ConnectorState, post: ConnectorState)
  {
    && post.Valid()
    && post == st.(trainingType := post.trainingType, resolved := post.resolved,
                   ampType := post.ampType, warnings := post.warnings)
    && (st.resolved ==> post.trainingType == st.trainingType && post.resolved)
  }

  lemma ApexKeepsMode(env: Env, st: ConnectorState)
    requires st.Valid()
    ensures var r := SelectApexPrecision(env, st);
      r.Success? ==> PrecisionStep(st, r.value.0)
  {
    TrainingTypeMemoized(env, st);
  }

  lemma HalfKeepsMode(env: Env, st: ConnectorState)
    requires st.Valid()
    ensures var r := SelectHalfPrecision(env, st);
      r.Success? ==> PrecisionStep(st, r.value.0)
  {
    var fallback := st.(ampType := Some(Apex), warnings := st.warnings + [NativeAmpFallsBackToApex]);
    TrainingTypeMemoized(env, st);
    ApexKeepsMode(env, st);
    ApexKeepsMode(env, fallback);
  }

  /** Selecting a precision plugin keeps the mode and the settings; it may resolve the strategy and switch to Apex. */
  lemma PrecisionKeepsMode(env: Env, st: ConnectorState)
    requires st.Valid()
    ensures var r := SelectPrecisionPlugin(env, st);
      r.Success? ==>
        && r.value.0.Valid()
        && r.value.0 == st.(trainingType := r.value.0.trainingType, resolved := r.value.0.resolved,
                            ampType := r.value.0.ampType, warnings := r.value.0.warnings)
        && (st.resolved ==> r.value.0.trainingType == st.trainingType && r.value.0.resolved)
  {
    HalfKeepsMode(env, st);
  }

  /**
   * Lines 229-233: a stored precision plugin is returned as it is; the first
   * successful read stores its choice, so a second read returns it unchanged.
   */
  lemma PrecisionMemoized(env: Env, st: ConnectorState)
    requires st.Valid()
    ensures st.precisionPlugin.Some? ==> PrecisionProperty(env, st) == Success((st, st.precisionPlugin.value))
    ensures var r := PrecisionProperty(env, st);
      r.Success? ==> r.value.0.Valid() && r.value.0.precisionPlugin == Some(r.value.1) && PrecisionProperty(env, r.value.0) == r
  {
    PrecisionKeepsMode(env, st);
  }
}
