/** Why registering, freeing and destroying never lets two indexes disagree. */
module RegistryProofs {
  import opened GuestTypes
  import opened GuestState
  import opened RegistryOps
  import opened Evolution

  // -------------------------------------------------------------------- devices

  lemma NewDeviceCoherent(core: Core, k: Handle, e: Device)
    requires Coherent(core) && k !in core.devices && e.queues == {} && e.commands == map[]
    ensures Coherent(SetDevice(core, k, e))
  {
    var core' := SetDevice(core, k, e);
    forall j, c | j in core'.devices && c in core'.devices[j].commands ensures Indexed(core', j, c) {
      assert Indexed(core, j, c);
    }
  }

  lemma DestroyQueues(core: Core, k: Handle)
    requires QueueIndex(core)
    ensures QueueIndex(DestroyDevice(core, k))
  {
  }

  /** Destroying a device removes every global entry that belongs to it and no other. */
  lemma DestroyCoherent(core: Core, k: Handle)
    requires Coherent(core)
    ensures Coherent(DestroyDevice(core, k))
  {
    hide QueueIndex, Indexed;
    DestroyQueues(core, k);
    DestroyIndexed(core, k);
    DestroyEntries(core, k);
  }

  lemma DestroyIndexed(core: Core, k: Handle)
    requires CommandIndex(core)
    ensures var core' := DestroyDevice(core, k);
            forall j <- core'.devices, c <- core'.devices[j].commands :: Indexed(core', j, c)
  {
    var core' := DestroyDevice(core, k);
    forall j, c | j in core'.devices && c in core'.devices[j].commands ensures Indexed(core', j, c) {
      assert Indexed(core, j, c);
    }
  }

  lemma DestroyEntries(core: Core, k: Handle)
    requires CommandIndex(core)
    ensures var core' := DestroyDevice(core, k);
            && (forall c <- core'.commandDevices ::
                  core'.commandDevices[c] in core'.devices && c in core'.devices[core'.commandDevices[c]].commands)
            && (forall c <- core'.recorded :: c in core'.commandDevices)
  {
    hide Indexed;
  }

  // --------------------------------------------------------------------- queues

  lemma AddQueueCoherent(core: Core, k: Handle, queue: Handle)
    requires Coherent(core) && k in core.devices
    requires queue in core.queueDevices ==> core.queueDevices[queue] == k
    ensures var d := core.devices[k];
            Coherent(SetDevice(core, k, d.(queues := d.queues + {queue}))
                     .(queueDevices := core.queueDevices[queue := k]))
  {
    hide CommandIndex;
    var d := core.devices[k];
    hide QueueIndex;
    AddQueueIndex(core, k, queue);
    QueuesApart(core, SetDevice(core, k, d.(queues := d.queues + {queue}))
                      .(queueDevices := core.queueDevices[queue := k]));
  }

  lemma AddQueueIndex(core: Core, k: Handle, queue: Handle)
    requires QueueIndex(core) && k in core.devices
    requires queue in core.queueDevices ==> core.queueDevices[queue] == k
    ensures var d := core.devices[k];
            QueueIndex(SetDevice(core, k, d.(queues := d.queues + {queue}))
                       .(queueDevices := core.queueDevices[queue := k]))
  {
  }

  /** The command index does not look at queues. */
  lemma QueuesApart(core: Core, core': Core)
    requires CommandIndex(core)
    requires core'.devices.Keys == core.devices.Keys
    requires forall k <- core.devices :: core'.devices[k].commands == core.devices[k].commands
    requires core'.commandDevices == core.commandDevices && core'.recorded == core.recorded
    ensures CommandIndex(core')
  {
    forall j, c | j in core'.devices && c in core'.devices[j].commands ensures Indexed(core', j, c) {
      assert Indexed(core, j, c);
    }
  }

  // ------------------------------------------------------------------- commands

  /** The indexes after device k, its streams and its global entries changed together. */
  function Reindexed(core: Core, k: Handle, commands: map<Handle, Command>,
                     recorded: map<Handle, Stream>, commandDevices: map<Handle, Handle>): Core
    requires k in core.devices
  {
    SetDevice(core, k, core.devices[k].(commands := commands))
      .(recorded := recorded, commandDevices := commandDevices)
  }

  lemma ReindexedQueues(core: Core, k: Handle, commands: map<Handle, Command>,
                        recorded: map<Handle, Stream>, commandDevices: map<Handle, Handle>)
    requires k in core.devices && QueueIndex(core)
    ensures QueueIndex(Reindexed(core, k, commands, recorded, commandDevices))
  {
  }

  /** Every buffer of the device is in the other two maps, under the same generation. */
  predicate OwnFit(k: Handle, commands: map<Handle, Command>,
                   recorded: map<Handle, Stream>, commandDevices: map<Handle, Handle>)
  {
    && (forall c <- commands ::
          && c != 0 && commands[c].device == k && commands[c].generation != 0
          && c in commandDevices && commandDevices[c] == k
          && c in recorded && recorded[c].generation == commands[c].generation && Laid(recorded[c]))
    && (forall c <- recorded :: c in commandDevices)
  }

  /** The entries of the other devices are what they were. */
  predicate OthersFit(core: Core, k: Handle, commands: map<Handle, Command>,
                      recorded: map<Handle, Stream>, commandDevices: map<Handle, Handle>)
  {
    && (forall c <- commandDevices ::
          if commandDevices[c] == k then c in commands
          else c in core.commandDevices && core.commandDevices[c] == commandDevices[c])
    && (forall c <- core.commandDevices ::
          core.commandDevices[c] != k ==> c in commandDevices && commandDevices[c] == core.commandDevices[c])
    && (forall c <- core.recorded :: c in core.commandDevices && core.commandDevices[c] != k ==>
          c in recorded && recorded[c] == core.recorded[c])
  }

  /** What the three maps of one device must look like for the indexes to stay coherent. */
  predicate Fitting(core: Core, k: Handle, commands: map<Handle, Command>,
                    recorded: map<Handle, Stream>, commandDevices: map<Handle, Handle>)
  {
    OwnFit(k, commands, recorded, commandDevices) && OthersFit(core, k, commands, recorded, commandDevices)
  }

  lemma ReindexedCoherent(core: Core, k: Handle, commands: map<Handle, Command>,
                          recorded: map<Handle, Stream>, commandDevices: map<Handle, Handle>)
    requires Coherent(core) && k in core.devices
    requires Fitting(core, k, commands, recorded, commandDevices)
    ensures Coherent(Reindexed(core, k, commands, recorded, commandDevices))
  {
    hide QueueIndex, Indexed, Fitting;
    ReindexedQueues(core, k, commands, recorded, commandDevices);
    ReindexedIndexed(core, k, commands, recorded, commandDevices);
    ReindexedEntries(core, k, commands, recorded, commandDevices);
  }

  lemma ReindexedIndexed(core: Core, k: Handle, commands: map<Handle, Command>,
                         recorded: map<Handle, Stream>, commandDevices: map<Handle, Handle>)
    requires CommandIndex(core) && k in core.devices
    requires Fitting(core, k, commands, recorded, commandDevices)
    ensures var core' := Reindexed(core, k, commands, recorded, commandDevices);
            forall j <- core'.devices, c <- core'.devices[j].commands :: Indexed(core', j, c)
  {
    var core' := Reindexed(core, k, commands, recorded, commandDevices);
    forall j, c | j in core'.devices && c in core'.devices[j].commands ensures Indexed(core', j, c) {
      if j != k { assert Indexed(core, j, c); }
    }
  }

  lemma ReindexedEntries(core: Core, k: Handle, commands: map<Handle, Command>,
                         recorded: map<Handle, Stream>, commandDevices: map<Handle, Handle>)
    requires CommandIndex(core) && k in core.devices
    requires Fitting(core, k, commands, recorded, commandDevices)
    ensures var core' := Reindexed(core, k, commands, recorded, commandDevices);
            && (forall c <- commandDevices ::
                  commandDevices[c] in core'.devices && c in core'.devices[commandDevices[c]].commands)
            && (forall c <- recorded :: c in commandDevices)
  {
    hide Indexed;
  }

  /** What coherence says about the buffers of one device and about everything else. */
  lemma OwnEntries(core: Core, k: Handle)
    requires CommandIndex(core) && k in core.devices
    ensures Fitting(core, k, core.devices[k].commands, core.recorded, core.commandDevices)
  {
    forall c | c in core.devices[k].commands ensures Indexed(core, k, c) {}
  }

  lemma OwnStreams(core: Core, k: Handle)
    requires Coherent(core) && k in core.devices
    ensures forall c <- core.devices[k].commands ::
              && c in core.recorded
              && core.recorded[c].generation == core.devices[k].commands[c].generation != 0
              && Laid(core.recorded[c])
  {
    forall c | c in core.devices[k].commands ensures Indexed(core, k, c) {}
  }

  lemma EnlistFitting(core: Core, k: Handle, pool: Handle, batch: seq<Handle>)
    requires Coherent(core) && k in core.devices
    requires forall c <- batch :: !BadHandle(core, core.devices[k], c)
    ensures Fitting(core, k, core.devices[k].commands + Each(batch, FreshCommand(k, pool)),
                    core.recorded + Each(batch, FRESH_STREAM),
                    core.commandDevices + Each(batch, k))
  {
    OwnEntries(core, k);
    hide Coherent, BadHandle, OwnFit, OthersFit;
    forall c | c in batch ensures c != 0 && c !in core.devices[k].commands && c !in core.commandDevices {
      NotBad(core, core.devices[k], c);
    }
    var added, streams, owners :=
      Each(batch, FreshCommand(k, pool)), Each(batch, FRESH_STREAM), Each(batch, k);
    EnlistOwn(k, core.devices[k].commands, core.recorded, core.commandDevices, added, streams, owners);
    EnlistOthers(core, k, core.devices[k].commands, added, streams, owners);
  }

  lemma EnlistOwn(k: Handle, commands: map<Handle, Command>, recorded: map<Handle, Stream>,
                  commandDevices: map<Handle, Handle>,
                  added: map<Handle, Command>, streams: map<Handle, Stream>, owners: map<Handle, Handle>)
    requires OwnFit(k, commands, recorded, commandDevices) && OwnFit(k, added, streams, owners)
    requires added.Keys == streams.Keys == owners.Keys && added.Keys !! commands.Keys
    ensures OwnFit(k, commands + added, recorded + streams, commandDevices + owners)
  {
  }

  lemma EnlistOthers(core: Core, k: Handle, commands: map<Handle, Command>,
                     added: map<Handle, Command>, streams: map<Handle, Stream>, owners: map<Handle, Handle>)
    requires OthersFit(core, k, commands, core.recorded, core.commandDevices)
    requires added.Keys == streams.Keys == owners.Keys && added.Keys !! core.commandDevices.Keys
    requires forall c <- owners :: owners[c] == k
    ensures OthersFit(core, k, commands + added, core.recorded + streams, core.commandDevices + owners)
  {
  }

  lemma NotBad(core: Core, d: Device, c: Handle)
    requires !BadHandle(core, d, c)
    ensures c != 0 && c !in d.commands && c !in core.commandDevices
  {
  }

  /** Registering a batch either fails the device or enters every handle into every index. */
  lemma EnlistCoherent(core: Core, k: Handle, pool: Handle, batch: seq<Handle>)
    requires Coherent(core)
    ensures Coherent(RegisterCommands(core, k, pool, batch))
  {
    hide Coherent, Fitting, BadHandle;
    if k in core.devices {
      var d := core.devices[k];
      if exists c <- batch :: BadHandle(core, d, c) {
        FailCoherent(core, k);
      } else {
        EnlistFitting(core, k, pool, batch);
        ReindexedCoherent(core, k, d.commands + Each(batch, FreshCommand(k, pool)),
                          core.recorded + Each(batch, FRESH_STREAM),
                          core.commandDevices + Each(batch, k));
      }
    }
  }

  lemma FailCoherent(core: Core, k: Handle)
    requires Coherent(core) && k in core.devices
    ensures Coherent(FailDevice(core, k))
  {
    hide Coherent;
    FailQuiet(core, k);
    TameCoherent(core, FailDevice(core, k));
  }

  lemma RemoveOwn(k: Handle, commands: map<Handle, Command>, recorded: map<Handle, Stream>,
                  commandDevices: map<Handle, Handle>, gone: set<Handle>)
    requires OwnFit(k, commands, recorded, commandDevices)
    ensures OwnFit(k, commands - gone, recorded - gone, commandDevices - gone)
  {
  }

  lemma RemoveOthers(core: Core, k: Handle, commands: map<Handle, Command>, gone: set<Handle>)
    requires OthersFit(core, k, commands, core.recorded, core.commandDevices)
    requires forall c <- gone :: c in core.commandDevices && core.commandDevices[c] == k
    ensures OthersFit(core, k, commands - gone, core.recorded - gone, core.commandDevices - gone)
  {
  }

  /** Removing buffers removes them from every index. */
  lemma RemoveCoherent(core: Core, k: Handle, gone: set<Handle>)
    requires Coherent(core) && k in core.devices && gone <= core.devices[k].commands.Keys
    ensures Coherent(RemoveCommands(core, k, gone))
  {
    OwnEntries(core, k);
    hide Coherent, OthersFit;
    RemoveOwn(k, core.devices[k].commands, core.recorded, core.commandDevices, gone);
    RemoveOthers(core, k, core.devices[k].commands, gone);
    ReindexedCoherent(core, k, core.devices[k].commands - gone, core.recorded - gone, core.commandDevices - gone);
  }

  /** Some buffers changed along with their streams; the rest, and every key, stayed. */
  predicate RenewedBy(commands: map<Handle, Command>, recorded: map<Handle, Stream>,
                      commands': map<Handle, Command>, recorded': map<Handle, Stream>)
  {
    && commands'.Keys == commands.Keys && recorded'.Keys == recorded.Keys
    && (forall c <- recorded' ::
          if c in commands' && commands'[c] != commands[c]
          then recorded'[c].generation == commands'[c].generation && Laid(recorded'[c])
          else recorded'[c] == recorded[c])
    && (forall c <- commands' :: commands'[c].device == commands[c].device)
    && (forall c <- commands' :: commands'[c] == commands[c] || commands'[c].generation != 0)
  }

  lemma RenewOwn(k: Handle, commands: map<Handle, Command>, recorded: map<Handle, Stream>,
                 commands': map<Handle, Command>, recorded': map<Handle, Stream>,
                 commandDevices: map<Handle, Handle>)
    requires OwnFit(k, commands, recorded, commandDevices)
    requires RenewedBy(commands, recorded, commands', recorded')
    ensures OwnFit(k, commands', recorded', commandDevices)
  {
  }

  lemma RenewOthers(core: Core, k: Handle, commands: map<Handle, Command>,
                    commands': map<Handle, Command>, recorded': map<Handle, Stream>)
    requires OthersFit(core, k, commands, core.recorded, core.commandDevices)
    requires OwnFit(k, commands, core.recorded, core.commandDevices)
    requires RenewedBy(commands, core.recorded, commands', recorded')
    ensures OthersFit(core, k, commands', recorded', core.commandDevices)
  {
  }

  /** Renewing buffers keeps every generation equal to that of its stream, and never zero. */
  lemma RenewCoherent(core: Core, k: Handle, commands: map<Handle, Command>, recorded: map<Handle, Stream>)
    requires Coherent(core) && k in core.devices
    requires RenewedBy(core.devices[k].commands, core.recorded, commands, recorded)
    ensures Coherent(Reindexed(core, k, commands, recorded, core.commandDevices))
  {
    hide Coherent, OwnFit, OthersFit, RenewedBy;
    CoherentEntries(core, k);
    RenewOwn(k, core.devices[k].commands, core.recorded, commands, recorded, core.commandDevices);
    RenewOthers(core, k, core.devices[k].commands, commands, recorded);
    ReindexedCoherent(core, k, commands, recorded, core.commandDevices);
  }

  lemma CoherentEntries(core: Core, k: Handle)
    requires Coherent(core) && k in core.devices
    ensures Fitting(core, k, core.devices[k].commands, core.recorded, core.commandDevices)
  {
    OwnEntries(core, k);
  }
}
