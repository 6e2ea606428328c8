// The runner's memory fields, the log writer that fills them, and their readers.
module RunnerAccounting {
  import opened Text
  import opened RunnerMemory

  // What one write of log output was found to report.
  datatype Line = Line(
    deviceFree: Option<(string, nat)>,
    offloaded: seq<(nat, nat)>,
    overflowing: seq<int>,
    sizes: seq<(BufferKey, nat)>)

  datatype Event = Log(line: Line) | Reset

  datatype Account = Account(
    totals: Totals, buffers: Buffers, systemFree: map<string, nat>,
    gpuLayers: nat, totalLayers: nat, gpuLayerOverflow: int)

  // ---------- what events do ----------

  ghost function Size(a: Account, key: BufferKey, bytes: nat): Account {
    var buffers := a.buffers[key := bytes];
    a.(buffers := buffers, totals := TotalsOf(buffers, LogClasses()))
  }

  ghost function SizeAll(a: Account, sizes: seq<(BufferKey, nat)>): Account {
    if sizes == [] then a else
      var n := |sizes| - 1;
      Size(SizeAll(a, sizes[..n]), sizes[n].0, sizes[n].1)
  }

  ghost function OverflowAll(overflow: int, counts: seq<int>): int {
    if counts == [] then overflow else
      var n := |counts| - 1;
      OverflowAll(overflow, counts[..n]) + (if counts[n] > 0 then counts[n] else 0)
  }

  ghost function Note(a: Account, line: Line): Account {
    var free := if line.deviceFree.Some? then a.systemFree[line.deviceFree.value.0 := line.deviceFree.value.1 * 0x10_0000 % U64]
                else a.systemFree;
    var n := |line.offloaded|;
    a.(systemFree := free,
       gpuLayers := if n > 0 then line.offloaded[n - 1].0 else a.gpuLayers,
       totalLayers := if n > 0 then line.offloaded[n - 1].1 else a.totalLayers,
       gpuLayerOverflow := OverflowAll(a.gpuLayerOverflow, line.overflowing))
  }

  // A reset clears what the runner keeps, but neither the writer's table of buffers nor the
  // number of layers.
  ghost function Apply(a: Account, e: Event): Account {
    match e
    case Log(line) => SizeAll(Note(a, line), line.sizes)
    case Reset => Account(Totals(0, 0, 0, 0, map[]), a.buffers, map[], 0, a.totalLayers, 0)
  }

  ghost function Run(a: Account, events: seq<Event>): Account {
    if events == [] then a else
      var n := |events| - 1;
      Apply(Run(a, events[..n]), events[n])
  }

  // ---------- the runner ----------

  datatype DeviceInfo = DeviceInfo(name: string, totalMemory: nat, freeMemory: nat)

  function Minus(a: nat, b: nat): nat {
    if b < a then a - b else 0
  }

  class Runner {
    var memTotal: nat
    var memGPU: nat
    var memModelFileBacked: nat
    var memCPUMappedModel: nat
    var vramByDevice: map<string, nat>
    var systemFreeAtLoad: map<string, nat>
    var gpuLayers: nat
    var totalLayers: nat
    var gpuLayerOverflow: int

    ghost function Reported(): Totals
      reads this
    {
      Totals(memTotal, memGPU, memModelFileBacked, memCPUMappedModel, vramByDevice)
    }

    method ResetLoadAccounting()
      modifies `memTotal, `memGPU, `memModelFileBacked, `memCPUMappedModel, `vramByDevice, `systemFreeAtLoad,
               `gpuLayers, `gpuLayerOverflow
      ensures Reported() == Totals(0, 0, 0, 0, map[]) && systemFreeAtLoad == map[] && gpuLayers == 0 && gpuLayerOverflow == 0
    {
      memTotal, memGPU, memModelFileBacked, memCPUMappedModel := 0, 0, 0, 0;
      gpuLayers, gpuLayerOverflow := 0, 0;
      vramByDevice, systemFreeAtLoad := map[], map[];
    }

    // Every layer is on a GPU.
    predicate FullyOffloaded()
      reads this
    {
      totalLayers > 0 && gpuLayers >= totalLayers && gpuLayerOverflow == 0
    }

    // Mapped weights counted again by the buffers they mirror: the file-backed bytes beyond
    // the model file, as far as they are mapped on the CPU.
    function DoubleCounted(modelSize: nat): nat
      reads this
    {
      if modelSize == 0 || memModelFileBacked <= modelSize then 0
      else if memCPUMappedModel < memModelFileBacked - modelSize then memCPUMappedModel
      else memModelFileBacked - modelSize
    }

    // Total and GPU bytes, trimmed in arithmetic that could wrap around but never does; the
    // GPU share never exceeds the total.
    method MemorySize(modelSize: nat) returns (total: nat, vram: nat)
      requires Consistent(Reported())
      ensures vram <= total
      ensures memTotal > 0 ==> vram == memGPU
      ensures memTotal > 0 && FullyOffloaded() ==> total == memGPU
      ensures memTotal > 0 && !FullyOffloaded() ==> total + DoubleCounted(modelSize) == memTotal
      ensures memTotal == 0 ==> total == vram == modelSize
    {
      if memTotal > 0 {
        total, vram := memTotal, memGPU;
        if memCPUMappedModel > 0 {
          if modelSize > 0 && memModelFileBacked > modelSize {
            var over := Sub64(memModelFileBacked, modelSize);
            total := Sub64(total, if memCPUMappedModel < over then memCPUMappedModel else over);
          }
        }
        if totalLayers > 0 && gpuLayers >= totalLayers && gpuLayerOverflow == 0 {
          total := vram;
        }
        return;
      }
      total, vram := modelSize, modelSize;
    }

    // free is the most that neither the runner's own bytes on a device nor the driver's
    // report at load time, less those bytes, rules out.
    predicate Leaves(gpu: DeviceInfo, free: nat)
      reads this
    {
      var used := Get(vramByDevice, gpu.name);
      var own := Minus(gpu.totalMemory, used);
      && free <= own
      && (gpu.name in systemFreeAtLoad ==> free <= Minus(systemFreeAtLoad[gpu.name], used))
      && (free == own || (gpu.name in systemFreeAtLoad && free == Minus(systemFreeAtLoad[gpu.name], used)))
    }

    method GetDeviceInfos(gpus: seq<DeviceInfo>) returns (infos: seq<DeviceInfo>)
      requires forall d :: d in systemFreeAtLoad ==> systemFreeAtLoad[d] < U64
      requires forall i :: 0 <= i < |gpus| ==> gpus[i].totalMemory < U64
      ensures |infos| == |gpus|
      ensures forall i :: 0 <= i < |gpus| ==>
        infos[i] == gpus[i].(freeMemory := infos[i].freeMemory) && Leaves(gpus[i], infos[i].freeMemory)
    {
      infos := [];
      for i := 0 to |gpus|
        invariant |infos| == i
        invariant forall j :: 0 <= j < i ==>
          infos[j] == gpus[j].(freeMemory := infos[j].freeMemory) && Leaves(gpus[j], infos[j].freeMemory)
      {
        var gpu := gpus[i];
        var used := if gpu.name in vramByDevice then vramByDevice[gpu.name] else 0;
        var accountedFree := 0;
        if used < gpu.totalMemory {
          accountedFree := Sub64(gpu.totalMemory, used);
        }
        var systemFree := accountedFree;
        if gpu.name in systemFreeAtLoad {
          var sysFree := systemFreeAtLoad[gpu.name];
          systemFree := if used < sysFree then Sub64(sysFree, used) else 0;
        }
        infos := infos + [gpu.(freeMemory := if accountedFree < systemFree then accountedFree else systemFree)];
      }
    }
  }

  // ---------- the writer ----------

  // What is added up so far and what is still to come make the whole sum, modulo 2^64.
  ghost predicate Pending(sum: nat, rest: Buffers, all: Buffers, keep: Keep) {
    sum < U64 && (sum + Sum(rest, keep)) % U64 == Sum(all, keep) % U64
  }

  lemma AddMod(a: nat, b: nat, c: nat)
    ensures ((a + b) % U64 + c) % U64 == (a + (b + c)) % U64
  {
  }

  lemma PendingNext(sum: nat, rest: Buffers, all: Buffers, keep: Keep, k: BufferKey)
    requires k in rest && Pending(sum, rest, all, keep)
    ensures Pending(if keep(k) then Add64(sum, rest[k]) else sum, rest - {k}, all, keep)
  {
    SumAny(rest, keep, k);
    if keep(k) {
      AddMod(sum, rest[k], Sum(rest - {k}, keep));
    }
  }

  ghost predicate DevicesPending(sums: map<string, nat>, rest: Buffers, all: Buffers, c: Classes) {
    && sums.Keys + Devices(rest, c) == Devices(all, c)
    && forall d :: Pending(Get(sums, d), rest, all, OnDevice(c, d))
  }

  function AddOnDevice(sums: map<string, nat>, c: Classes, k: BufferKey, bytes: nat): map<string, nat> {
    if c.gpu(k) then sums[c.device(k) := Add64(Get(sums, c.device(k)), bytes)] else sums
  }

  lemma DevicesPendingNext(sums: map<string, nat>, rest: Buffers, all: Buffers, c: Classes, k: BufferKey)
    requires k in rest && DevicesPending(sums, rest, all, c)
    ensures DevicesPending(AddOnDevice(sums, c, k, rest[k]), rest - {k}, all, c)
  {
    var more := AddOnDevice(sums, c, k, rest[k]);
    forall d ensures Pending(Get(more, d), rest - {k}, all, OnDevice(c, d)) {
      PendingNext(Get(sums, d), rest, all, OnDevice(c, d), k);
    }
    if c.gpu(k) {
      DevicesNext(rest, c, k);
    } else {
      assert Devices(rest, c) == Devices(rest - {k}, c);
    }
  }

  lemma DevicesPendingStart(all: Buffers, c: Classes)
    ensures DevicesPending(map[], all, all, c)
  {
  }

  lemma DevicesPendingDone(sums: map<string, nat>, all: Buffers, c: Classes)
    requires DevicesPending(sums, map[], all, c)
    ensures sums == Wrapped(ByDevice(all, c))
  {
    assert Devices(map[], c) == {};
    forall d | d in sums ensures sums[d] == Sum(all, OnDevice(c, d)) % U64 {
      assert Pending(Get(sums, d), map[], all, OnDevice(c, d));
    }
  }

  function AddOne(t: Totals, c: Classes, k: BufferKey, bytes: nat): Totals {
    Totals(Add64(t.total, bytes), if c.gpu(k) then Add64(t.gpu, bytes) else t.gpu,
           if c.fileBacked(k) then Add64(t.fileBacked, bytes) else t.fileBacked,
           if c.cpuMapped(k) then Add64(t.cpuMapped, bytes) else t.cpuMapped,
           AddOnDevice(t.byDevice, c, k, bytes))
  }

  ghost predicate AllPending(t: Totals, rest: Buffers, all: Buffers, c: Classes) {
    && Pending(t.total, rest, all, Every()) && Pending(t.gpu, rest, all, c.gpu)
    && Pending(t.fileBacked, rest, all, c.fileBacked) && Pending(t.cpuMapped, rest, all, c.cpuMapped)
    && DevicesPending(t.byDevice, rest, all, c)
  }

  lemma AllPendingStart(all: Buffers, c: Classes)
    ensures AllPending(Totals(0, 0, 0, 0, map[]), all, all, c)
  {
    DevicesPendingStart(all, c);
  }

  lemma AllPendingNext(t: Totals, rest: Buffers, all: Buffers, c: Classes, k: BufferKey)
    requires k in rest && AllPending(t, rest, all, c)
    ensures AllPending(AddOne(t, c, k, rest[k]), rest - {k}, all, c)
  {
    PendingNext(t.total, rest, all, Every(), k);
    PendingNext(t.gpu, rest, all, c.gpu, k);
    PendingNext(t.fileBacked, rest, all, c.fileBacked, k);
    PendingNext(t.cpuMapped, rest, all, c.cpuMapped, k);
    DevicesPendingNext(t.byDevice, rest, all, c, k);
  }

  lemma AllPendingDone(t: Totals, all: Buffers, c: Classes)
    requires AllPending(t, map[], all, c)
    ensures t == TotalsOf(all, c)
  {
    DevicesPendingDone(t.byDevice, all, c);
  }

  class MemoryParsingWriter {
    const runner: Runner
    var buffers: Buffers

    constructor (runner: Runner)
      ensures this.runner == runner && buffers == map[]
    {
      this.runner := runner;
      buffers := map[];
    }

    ghost function State(): Account
      reads this, runner
    {
      Account(runner.Reported(), buffers, runner.systemFreeAtLoad, runner.gpuLayers, runner.totalLayers, runner.gpuLayerOverflow)
    }

    method UpdateRunnerMemory()
      modifies runner`memTotal, runner`memGPU, runner`memModelFileBacked, runner`memCPUMappedModel, runner`vramByDevice
      ensures runner.Reported() == TotalsOf(buffers, LogClasses())
    {
      var total, gpu, fileBacked, cpuMapped, devices := AddUp(buffers);
      runner.memTotal, runner.memGPU := total, gpu;
      runner.memModelFileBacked, runner.memCPUMappedModel := fileBacked, cpuMapped;
      runner.vramByDevice := devices;
    }

    // One pass over the table, in whatever order its keys come.
    static method AddUp(buffers: Buffers)
      returns (total: nat, gpu: nat, fileBacked: nat, cpuMapped: nat, devices: map<string, nat>)
      ensures Totals(total, gpu, fileBacked, cpuMapped, devices) == TotalsOf(buffers, LogClasses())
    {
      total, gpu, fileBacked, cpuMapped, devices := 0, 0, 0, 0, map[];
      var rest := buffers;
      AllPendingStart(buffers, LogClasses());
      while rest != map[]
        invariant AllPending(Totals(total, gpu, fileBacked, cpuMapped, devices), rest, buffers, LogClasses())
        decreases |rest|
      {
        var key :| key in rest;
        AllPendingNext(Totals(total, gpu, fileBacked, cpuMapped, devices), rest, buffers, LogClasses(), key);
        total, gpu, fileBacked, cpuMapped, devices := AddBuffer(total, gpu, fileBacked, cpuMapped, devices, key, rest[key]);
        rest := rest - {key};
      }
      AllPendingDone(Totals(total, gpu, fileBacked, cpuMapped, devices), buffers, LogClasses());
    }

    static method AddBuffer(total: nat, gpu: nat, fileBacked: nat, cpuMapped: nat, devices: map<string, nat>,
                            key: BufferKey, bytes: nat)
      returns (total': nat, gpu': nat, fileBacked': nat, cpuMapped': nat, devices': map<string, nat>)
      ensures Totals(total', gpu', fileBacked', cpuMapped', devices')
           == AddOne(Totals(total, gpu, fileBacked, cpuMapped, devices), LogClasses(), key, bytes)
    {
      total', gpu', fileBacked', cpuMapped', devices' := Add64(total, bytes), gpu, fileBacked, cpuMapped, devices;
      var onGPU := IsGPUBuffer(key.backend);
      if key.kind == "model" {
        var mmapBacked := HasSuffix(key.backend, "_Mapped");
        if onGPU || mmapBacked {
          fileBacked' := Add64(fileBacked, bytes);
        }
        if !onGPU && mmapBacked {
          cpuMapped' := Add64(cpuMapped, bytes);
        }
      }
      if onGPU {
        gpu' := Add64(gpu, bytes);
        var d := DeviceName(key.backend);
        devices' := devices[d := Add64(if d in devices then devices[d] else 0, bytes)];
      }
    }

    method Write(line: Line)
      modifies this`buffers, runner
      ensures State() == Apply(old(State()), Log(line))
    {
      NoteLine(line);
      ghost var noted := State();
      for i := 0 to |line.sizes|
        invariant State() == SizeAll(noted, line.sizes[..i])
      {
        assert line.sizes[..i + 1][..i] == line.sizes[..i];
        buffers := buffers[line.sizes[i].0 := line.sizes[i].1];
        UpdateRunnerMemory();
      }
      assert line.sizes[..|line.sizes|] == line.sizes;
    }

    method NoteLine(line: Line)
      modifies runner`systemFreeAtLoad, runner`gpuLayers, runner`totalLayers, runner`gpuLayerOverflow
      ensures State() == Note(old(State()), line)
    {
      if line.deviceFree.Some? {
        var (device, mib) := line.deviceFree.value;
        runner.systemFreeAtLoad := runner.systemFreeAtLoad[device := mib * 0x10_0000 % U64];
      }
      NoteLayers(line.offloaded);
      NoteOverflow(line.overflowing);
    }

    method NoteLayers(offloaded: seq<(nat, nat)>)
      modifies runner`gpuLayers, runner`totalLayers
      ensures offloaded == [] ==> runner.gpuLayers == old(runner.gpuLayers) && runner.totalLayers == old(runner.totalLayers)
      ensures offloaded != [] ==> (runner.gpuLayers, runner.totalLayers) == offloaded[|offloaded| - 1]
    {
      for i := 0 to |offloaded|
        invariant i == 0 ==> runner.gpuLayers == old(runner.gpuLayers) && runner.totalLayers == old(runner.totalLayers)
        invariant i > 0 ==> (runner.gpuLayers, runner.totalLayers) == offloaded[i - 1]
      {
        runner.gpuLayers := offloaded[i].0;
        runner.totalLayers := offloaded[i].1;
      }
    }

    method NoteOverflow(counts: seq<int>)
      modifies runner`gpuLayerOverflow
      ensures runner.gpuLayerOverflow == OverflowAll(old(runner.gpuLayerOverflow), counts)
    {
      for i := 0 to |counts|
        invariant runner.gpuLayerOverflow == OverflowAll(old(runner.gpuLayerOverflow), counts[..i])
      {
        assert counts[..i + 1][..i] == counts[..i];
        if counts[i] > 0 {
          runner.gpuLayerOverflow := runner.gpuLayerOverflow + counts[i];
        }
      }
      assert counts[..|counts|] == counts;
    }

    method Reset()
      modifies runner
      ensures State() == Apply(old(State()), Event.Reset)
    {
      runner.ResetLoadAccounting();
    }
  }

  // ---------- whole runs ----------

  const NONE: Totals := Totals(0, 0, 0, 0, map[])

  // The totals are cleared or those of the table.
  ghost predicate UpToDate(a: Account) {
    a.totals == NONE || a.totals == TotalsOf(a.buffers, LogClasses())
  }

  lemma {:induction false} SizesKeepUpToDate(a: Account, sizes: seq<(BufferKey, nat)>)
    requires UpToDate(a)
    ensures UpToDate(SizeAll(a, sizes))
    ensures sizes != [] ==> SizeAll(a, sizes).totals == TotalsOf(SizeAll(a, sizes).buffers, LogClasses())
  {
    if sizes != [] {
      SizesKeepUpToDate(a, sizes[..|sizes| - 1]);
    }
  }

  // Whatever was logged and however often accounting was reset: as long as the buffers fit
  // in 64 bits, GPU bytes are the devices' bytes and GPU plus mapped bytes stay within the total.
  lemma {:induction false} RunKeepsAccounting(a: Account, events: seq<Event>)
    requires UpToDate(a)
    ensures UpToDate(Run(a, events))
    ensures Fits(Run(a, events).buffers) ==> Consistent(Run(a, events).totals)
    decreases |events|
  {
    if events != [] {
      var n := |events| - 1;
      RunKeepsAccounting(a, events[..n]);
      var b := Run(a, events[..n]);
      if events[n].Log? {
        SizesKeepUpToDate(Note(b, events[n].line), events[n].line.sizes);
      }
    }
    ConsistentIfFits(Run(a, events));
  }

  lemma ConsistentIfFits(a: Account)
    requires UpToDate(a)
    ensures Fits(a.buffers) ==> Consistent(a.totals)
  {
    LogClassesSound();
    if Fits(a.buffers) {
      TotalsConsistent(a.buffers, LogClasses());
    }
  }

  // The size last logged for a key, resets notwithstanding.
  function LastIn(sizes: seq<(BufferKey, nat)>, key: BufferKey): Option<nat> {
    if sizes == [] then None
    else if sizes[|sizes| - 1].0 == key then Some(sizes[|sizes| - 1].1)
    else LastIn(sizes[..|sizes| - 1], key)
  }

  function LastLogged(events: seq<Event>, key: BufferKey): Option<nat> {
    if events == [] then None else
      var n := |events| - 1;
      var here := if events[n].Log? then LastIn(events[n].line.sizes, key) else None;
      if here.Some? then here else LastLogged(events[..n], key)
  }

  function At(buffers: Buffers, key: BufferKey): Option<nat> {
    if key in buffers then Some(buffers[key]) else None
  }

  lemma {:induction false} SizesAreLast(a: Account, sizes: seq<(BufferKey, nat)>, key: BufferKey)
    ensures At(SizeAll(a, sizes).buffers, key) == if LastIn(sizes, key).Some? then LastIn(sizes, key) else At(a.buffers, key)
  {
    if sizes != [] {
      SizesAreLast(a, sizes[..|sizes| - 1], key);
    }
  }

  // The table holds the last size logged for every key.
  lemma {:induction false} TableHoldsLast(a: Account, events: seq<Event>, key: BufferKey)
    requires a.buffers == map[]
    ensures At(Run(a, events).buffers, key) == LastLogged(events, key)
    decreases |events|
  {
    if events != [] {
      var n := |events| - 1;
      TableHoldsLast(a, events[..n], key);
      if events[n].Log? {
        SizesAreLast(Note(Run(a, events[..n]), events[n].line), events[n].line.sizes, key);
      }
    }
  }

  lemma {:induction false} SizesOverwrite(a: Account, b: Account, sizes: seq<(BufferKey, nat)>)
    requires a.buffers == b.buffers
    ensures SizeAll(a, sizes).buffers == SizeAll(b, sizes).buffers
    ensures sizes != [] ==> SizeAll(a, sizes).totals == SizeAll(b, sizes).totals
  {
    if sizes != [] {
      SizesOverwrite(a, b, sizes[..|sizes| - 1]);
    }
  }

  // A reset does not outlast the next buffer line: the totals are then what they would be
  // without it.
  lemma ResetIsUndone(a: Account, line: Line)
    requires line.sizes != []
    ensures Apply(Apply(a, Event.Reset), Log(line)).totals == Apply(a, Log(line)).totals
  {
    SizesOverwrite(Note(Apply(a, Event.Reset), line), Note(a, line), line.sizes);
  }

  // ---------- what a reset leaves behind ----------

  // The account as a reset would leave it if it cleared the writer's table too.
  ghost function Cleared(a: Account): Account {
    Apply(a, Event.Reset).(buffers := map[])
  }

  // A buffer size was logged since the last reset.
  predicate Sized(events: seq<Event>) {
    if events == [] then false else
      match events[|events| - 1]
      case Reset => false
      case Log(line) => line.sizes != [] || Sized(events[..|events| - 1])
  }

  // The buffers of the old table that were not logged again.
  function Leftover(earlier: Buffers, later: Buffers): Buffers {
    earlier - later.Keys
  }

  // Bytes that do not show in a 64-bit total.
  ghost predicate Vanishes(buffers: Buffers, keep: Keep) {
    Sum(buffers, keep) % U64 == 0
  }

  ghost predicate AddsNothing(left: Buffers, later: Buffers, c: Classes) {
    && Vanishes(left, Every()) && Vanishes(left, c.gpu) && Vanishes(left, c.fileBacked) && Vanishes(left, c.cpuMapped)
    && DevicesVanish(left, later, c)
  }

  ghost predicate DevicesVanish(left: Buffers, later: Buffers, c: Classes) {
    forall d :: d in Devices(left, c) ==> d in Devices(later, c) && Vanishes(left, OnDevice(c, d))
  }

  lemma MergeUpdate(earlier: Buffers, b: Buffers, key: BufferKey, bytes: nat)
    ensures (earlier + b)[key := bytes] == earlier + b[key := bytes]
  {
  }

  lemma {:induction false} SizesMerge(a: Account, b: Account, earlier: Buffers, sizes: seq<(BufferKey, nat)>)
    requires a.buffers == earlier + b.buffers
    ensures SizeAll(a, sizes).buffers == earlier + SizeAll(b, sizes).buffers
  {
    if sizes != [] {
      var n := |sizes| - 1;
      SizesMerge(a, b, earlier, sizes[..n]);
      MergeUpdate(earlier, SizeAll(b, sizes[..n]).buffers, sizes[n].0, sizes[n].1);
    }
  }

  lemma {:induction false} TablesMerge(a: Account, b: Account, events: seq<Event>)
    requires b.buffers == map[]
    ensures Run(a, events).buffers == a.buffers + Run(b, events).buffers
    decreases |events|
  {
    if events == [] {
      assert a.buffers + map[] == a.buffers;
    } else {
      var n := |events| - 1;
      TablesMerge(a, b, events[..n]);
      if events[n].Log? {
        var line := events[n].line;
        SizesMerge(Note(Run(a, events[..n]), line), Note(Run(b, events[..n]), line), a.buffers, line.sizes);
      }
    }
  }

  lemma {:induction false} TotalsAfter(a: Account, events: seq<Event>)
    requires a.totals == NONE
    ensures Run(a, events).totals == if Sized(events) then TotalsOf(Run(a, events).buffers, LogClasses()) else NONE
    decreases |events|
  {
    if events != [] {
      var n := |events| - 1;
      TotalsAfter(a, events[..n]);
      var b := Run(a, events[..n]);
      if events[n].Log? && events[n].line.sizes != [] {
        LastSizeCounts(Note(b, events[n].line), events[n].line.sizes);
      }
    }
  }

  lemma {:induction false} LastSizeCounts(a: Account, sizes: seq<(BufferKey, nat)>)
    requires sizes != []
    ensures SizeAll(a, sizes).totals == TotalsOf(SizeAll(a, sizes).buffers, LogClasses())
  {
  }

  // all has the buffers of both tables, which share no key.
  ghost predicate Joins(left: Buffers, later: Buffers, all: Buffers) {
    && (forall k :: k in left ==> k !in later && k in all && all[k] == left[k])
    && (forall k :: k in later ==> k in all && all[k] == later[k])
    && (forall k :: k in all ==> k in left || k in later)
  }

  lemma {:induction false} SumJoin(left: Buffers, later: Buffers, all: Buffers, keep: Keep)
    requires Joins(left, later, all)
    ensures Sum(all, keep) == Sum(left, keep) + Sum(later, keep)
    decreases |left|
  {
    if left == map[] {
      assert all == later;
    } else {
      var k :| k in left;
      SumAny(left, keep, k);
      SumAny(all, keep, k);
      SumJoin(left - {k}, later, all - {k}, keep);
    }
  }

  lemma ModSame(z: nat, x: nat, y: nat)
    requires z == x + y
    ensures z % U64 == y % U64 <==> x % U64 == 0
  {
  }

  lemma {:induction false} SumSameIff(left: Buffers, later: Buffers, all: Buffers, keep: Keep)
    requires Joins(left, later, all)
    ensures Sum(all, keep) % U64 == Sum(later, keep) % U64 <==> Vanishes(left, keep)
  {
    SumJoin(left, later, all, keep);
    ModSame(Sum(all, keep), Sum(left, keep), Sum(later, keep));
  }

  lemma DevicesJoin(left: Buffers, later: Buffers, all: Buffers, c: Classes)
    requires Joins(left, later, all)
    ensures Devices(all, c) == Devices(left, c) + Devices(later, c)
  {
  }

  lemma DeviceSameIff(left: Buffers, later: Buffers, all: Buffers, c: Classes, d: string)
    requires Joins(left, later, all)
    ensures Get(Wrapped(ByDevice(all, c)), d) == Get(Wrapped(ByDevice(later, c)), d) <==> Vanishes(left, OnDevice(c, d))
    ensures d !in Devices(left, c) ==> Vanishes(left, OnDevice(c, d))
  {
    SumSameIff(left, later, all, OnDevice(c, d));
    GetByDevice(all, c, d);
    GetByDevice(later, c, d);
    if d !in Devices(left, c) {
      SumNone(left, OnDevice(c, d));
    }
  }

  lemma SameMap(m: map<string, nat>, n: map<string, nat>)
    ensures m == n <==> m.Keys == n.Keys && forall d :: Get(m, d) == Get(n, d)
  {
    if m.Keys == n.Keys && forall d :: Get(m, d) == Get(n, d) {
      forall d | d in m ensures m[d] == n[d] {
        assert Get(m, d) == Get(n, d);
      }
    }
  }

  lemma DevicesSameIff(left: Buffers, later: Buffers, all: Buffers, c: Classes)
    requires Joins(left, later, all)
    ensures Wrapped(ByDevice(all, c)) == Wrapped(ByDevice(later, c)) <==> DevicesVanish(left, later, c)
  {
    DevicesJoin(left, later, all, c);
    SameMap(Wrapped(ByDevice(all, c)), Wrapped(ByDevice(later, c)));
    forall d ensures Get(Wrapped(ByDevice(all, c)), d) == Get(Wrapped(ByDevice(later, c)), d) <==> Vanishes(left, OnDevice(c, d)) {
      DeviceSameIff(left, later, all, c, d);
    }
    forall d | d !in Devices(left, c) ensures Vanishes(left, OnDevice(c, d)) {
      DeviceSameIff(left, later, all, c, d);
    }
  }

  // Each total, and each device's, is that of the later buffers alone exactly if the old
  // buffers it would count come to nothing.
  lemma TotalsSameIff(left: Buffers, later: Buffers, all: Buffers, c: Classes)
    requires Joins(left, later, all)
    ensures TotalsOf(all, c).total == TotalsOf(later, c).total <==> Vanishes(left, Every())
    ensures TotalsOf(all, c).gpu == TotalsOf(later, c).gpu <==> Vanishes(left, c.gpu)
    ensures TotalsOf(all, c).fileBacked == TotalsOf(later, c).fileBacked <==> Vanishes(left, c.fileBacked)
    ensures TotalsOf(all, c).cpuMapped == TotalsOf(later, c).cpuMapped <==> Vanishes(left, c.cpuMapped)
    ensures TotalsOf(all, c) == TotalsOf(later, c) <==> AddsNothing(left, later, c)
  {
    SumSameIff(left, later, all, Every());
    SumSameIff(left, later, all, c.gpu);
    SumSameIff(left, later, all, c.fileBacked);
    SumSameIff(left, later, all, c.cpuMapped);
    DevicesSameIff(left, later, all, c);
  }

  lemma LeftoverJoins(past: Buffers, later: Buffers)
    ensures Joins(Leftover(past, later), later, past + later)
  {
  }

  // Whatever is logged after a reset, the totals are those of an accounting that starts with
  // an empty table exactly if no buffer was logged yet or the old buffers that were not
  // logged again add nothing to any total.
  lemma {:induction false} ResetStartsAfreshIff(a: Account, events: seq<Event>)
    ensures var later := Run(Cleared(a), events).buffers;
      (Run(Apply(a, Event.Reset), events).totals == Run(Cleared(a), events).totals)
        <==> (Sized(events) ==> AddsNothing(Leftover(a.buffers, later), later, LogClasses()))
  {
    var later := Run(Cleared(a), events).buffers;
    TablesMerge(Apply(a, Event.Reset), Cleared(a), events);
    LeftoverJoins(a.buffers, later);
    TotalsAfter(Apply(a, Event.Reset), events);
    TotalsAfter(Cleared(a), events);
    TotalsSameIff(Leftover(a.buffers, later), later, a.buffers + later, LogClasses());
  }

  // The left-over buffers are the old ones whose keys do not appear in the later lines.
  lemma {:induction false} LeftoverIs(a: Account, events: seq<Event>, key: BufferKey)
    ensures key in Leftover(a.buffers, Run(Cleared(a), events).buffers) <==> key in a.buffers && LastLogged(events, key).None?
  {
    TableHoldsLast(Cleared(a), events, key);
  }

  // As long as they fit in 64 bits they add nothing exactly if every one of them is empty
  // and on a device that the new buffers use too, or on none.
  lemma AddsNothingIff(left: Buffers, later: Buffers, c: Classes)
    requires Fits(left)
    ensures AddsNothing(left, later, c)
       <==> forall k :: k in left ==> left[k] == 0 && (c.gpu(k) ==> c.device(k) in Devices(later, c))
  {
    PartFits(left, Every());
    ZeroIff(left);
    if AddsNothing(left, later, c) {
      forall k | k in left ensures left[k] == 0 && (c.gpu(k) ==> c.device(k) in Devices(later, c)) {
        assert c.gpu(k) ==> c.device(k) in Devices(left, c);
      }
    }
    if forall k :: k in left ==> left[k] == 0 && (c.gpu(k) ==> c.device(k) in Devices(later, c)) {
      forall keep: Keep ensures Sum(left, keep) == 0 {
        PartOfZero(left, keep);
      }
    }
  }

  lemma {:induction false} PartOfZero(buffers: Buffers, keep: Keep)
    requires Sum(buffers, Every()) == 0
    ensures Sum(buffers, keep) == 0
  {
    var none: Keep := (k: BufferKey) => false;
    SumDisjoint(buffers, keep, none, Every());
  }

  lemma {:induction false} ZeroIff(buffers: Buffers)
    ensures Sum(buffers, Every()) == 0 <==> forall k :: k in buffers ==> buffers[k] == 0
    decreases |buffers|
  {
    if buffers != map[] {
      var k :| k in buffers;
      SumAny(buffers, Every(), k);
      ZeroIff(buffers - {k});
      assert forall j :: j in buffers && j != k ==> j in buffers - {k} && (buffers - {k})[j] == buffers[j];
    }
  }

  // Five bytes logged before a reset are still in the total after it, next to seven new ones
  // under another key; with a cleared table the total would be seven.
  lemma OldBytesReturn(a: Account, line: Line, key: BufferKey, next: BufferKey)
    requires key != next && a.buffers == map[key := 5] && line.sizes == [(next, 7)]
    ensures Run(Apply(a, Event.Reset), [Log(line)]).totals.total == 12
    ensures Run(Cleared(a), [Log(line)]).totals.total == 7
  {
    OldAndNew(Apply(a, Event.Reset), line, key, next);
    NewOnly(Cleared(a), line, next);
  }

  lemma {:induction false} OldAndNew(a: Account, line: Line, key: BufferKey, next: BufferKey)
    requires key != next && a.buffers.Keys == {key} && a.buffers[key] == 5 && line.sizes == [(next, 7)]
    ensures Run(a, [Log(line)]).totals.total == 12
  {
    OneLine(a, line, next, 7);
    SumTwo(a.buffers, key, next, 7);
  }

  lemma {:induction false} NewOnly(a: Account, line: Line, next: BufferKey)
    requires a.buffers.Keys == {} && line.sizes == [(next, 7)]
    ensures Run(a, [Log(line)]).totals.total == 7
  {
    OneLine(a, line, next, 7);
    SumFirst(a.buffers, next, 7);
  }

  lemma SumFirst(buffers: Buffers, next: BufferKey, y: nat)
    requires buffers.Keys == {} && y < U64
    ensures Sum(buffers[next := y], Every()) % U64 == y
  {
    SumAny(buffers[next := y], Every(), next);
    SumNone(buffers[next := y] - {next}, Every());
  }

  lemma SumTwo(buffers: Buffers, key: BufferKey, next: BufferKey, y: nat)
    requires buffers.Keys == {key} && key != next && buffers[key] + y < U64
    ensures Sum(buffers[next := y], Every()) % U64 == buffers[key] + y
  {
    SumAny(buffers[next := y], Every(), next);
    SumOne(buffers[next := y] - {next}, key);
  }

  lemma {:induction false} OneLine(a: Account, line: Line, key: BufferKey, bytes: nat)
    requires line.sizes == [(key, bytes)]
    ensures Run(a, [Log(line)]).totals.total == Sum(a.buffers[key := bytes], Every()) % U64
  {
    assert [Log(line)][..0] == [] && line.sizes[..0] == [];
    assert Run(a, [Log(line)][..0]) == a && SizeAll(Note(a, line), line.sizes[..0]) == Note(a, line);
  }

  lemma {:induction false} SumOne(buffers: Buffers, key: BufferKey)
    requires buffers.Keys == {key}
    ensures Sum(buffers, Every()) == buffers[key]
  {
    SumAny(buffers, Every(), key);
    assert buffers - {key} == map[];
  }
}
