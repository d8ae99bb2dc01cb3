/** The closed enumerations the connector decides between. */
module Kinds {
  import opened Wrappers

  /** `DeviceType`: the compute device class. */
  datatype DeviceType = CPU | GPU | TPU | IPU

  /** `DistributedType`: the parallelization kind; the connector holds `Option<DistributedType>`. */
  datatype DistributedType =
    | DP | DDP | DDP2 | DDPSpawn | TPUSpawn | DeepSpeed | Horovod
    | DDPSharded | DDPShardedSpawn | DDPFullySharded

  /** `AMPType`: the half-precision backend. */
  datatype AmpType = Native | Apex

  /** The string value of each `DistributedType` member. */
  function KindName(k: DistributedType): string
  {
    match k
    case DP => "dp"
    case DDP => "ddp"
    case DDP2 => "ddp2"
    case DDPSpawn => "ddp_spawn"
    case TPUSpawn => "tpu_spawn"
    case DeepSpeed => "deepspeed"
    case Horovod => "horovod"
    case DDPSharded => "ddp_sharded"
    case DDPShardedSpawn => "ddp_sharded_spawn"
    case DDPFullySharded => "ddp_fully_sharded"
  }

  /** `DistributedType(name)`: the member whose value is `name`, or `None` where the enum raises. */
  function ParseKind(name: string): (r: Option<DistributedType>)
    ensures r.Some? ==> KindName(r.value) == name
  {
    if name == "dp" then Some(DP)
    else if name == "ddp" then Some(DDP)
    else if name == "ddp2" then Some(DDP2)
    else if name == "ddp_spawn" then Some(DDPSpawn)
    else if name == "tpu_spawn" then Some(TPUSpawn)
    else if name == "deepspeed" then Some(DeepSpeed)
    else if name == "horovod" then Some(Horovod)
    else if name == "ddp_sharded" then Some(DDPSharded)
    else if name == "ddp_sharded_spawn" then Some(DDPShardedSpawn)
    else if name == "ddp_fully_sharded" then Some(DDPFullySharded)
    else None
  }

  /** Parsing a member's own value gives the member back, so ParseKind fails only on non-values. */
  lemma ParseKindName(k: DistributedType)
    ensures ParseKind(KindName(k)) == Some(k)
  {
  }

  /** The kinds `use_ddp` accepts (accelerator_connector.py:281-289). */
  predicate IsDdpFamily(k: DistributedType)
  {
    k in {DDP, DDPSpawn, DDPSharded, DDPShardedSpawn, DDPFullySharded, DeepSpeed, TPUSpawn}
  }

  /** The kinds that cannot run without a GPU (accelerator_connector.py:603). */
  predicate NeedsGpu(k: DistributedType)
  {
    k in {DP, DDP, DDPSpawn, DDP2}
  }
}
