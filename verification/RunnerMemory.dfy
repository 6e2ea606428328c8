// Memory accounting of a model runner from the buffer sizes its log reports.
module RunnerMemory {
  import opened Text

  const U64: nat := 0x1_0000_0000_0000_0000

  // Unsigned 64-bit addition and subtraction wrap around.
  function Add64(a: nat, b: nat): nat {
    (a + b) % U64
  }

  function Sub64(a: nat, b: nat): nat {
    (a as int - b as int) % U64
  }

  datatype BufferKey = BufferKey(component: string, backend: string, kind: string)

  type Buffers = map<BufferKey, nat>

  // Host memory is CPU, BLAS, CPU_* and *_Host.
  predicate IsGPUBuffer(name: string) {
    !(name == "CPU" || name == "BLAS" || HasPrefix(name, "CPU_")) && !HasSuffix(name, "_Host")
  }

  function DeviceName(backend: string): string {
    if HasSuffix(backend, "_Mapped") then backend[..|backend| - |"_Mapped"|]
    else if HasSuffix(backend, "_REPACK") then backend[..|backend| - |"_REPACK"|]
    else if HasSuffix(backend, "_Private") then backend[..|backend| - |"_Private"|]
    else backend
  }

  type Keep = BufferKey -> bool

  // How buffers are classified; kept abstract in the reasoning about sums.
  datatype Classes = Classes(gpu: Keep, cpuMapped: Keep, fileBacked: Keep, device: BufferKey -> string)

  function LogClasses(): Classes {
    Classes((k: BufferKey) => IsGPUBuffer(k.backend),
            (k: BufferKey) => k.kind == "model" && !IsGPUBuffer(k.backend) && HasSuffix(k.backend, "_Mapped"),
            (k: BufferKey) => k.kind == "model" && (IsGPUBuffer(k.backend) || HasSuffix(k.backend, "_Mapped")),
            (k: BufferKey) => DeviceName(k.backend))
  }

  ghost predicate Sound(c: Classes) {
    forall k :: c.cpuMapped(k) ==> !c.gpu(k) && c.fileBacked(k)
  }

  lemma LogClassesSound()
    ensures Sound(LogClasses())
  {
  }

  function Every(): Keep { (k: BufferKey) => true }

  function OnDevice(c: Classes, d: string): Keep { (k: BufferKey) => c.gpu(k) && c.device(k) == d }

  // ---------- sums over the table ----------

  // True sum of the buffers kept, whatever order they are visited in.
  ghost function Sum(buffers: Buffers, keep: Keep): nat
    decreases |buffers|
  {
    if buffers == map[] then 0 else
      var k :| k in buffers;
      (if keep(k) then buffers[k] else 0) + Sum(buffers - {k}, keep)
  }

  lemma {:induction false} SumAny(buffers: Buffers, keep: Keep, k: BufferKey)
    requires k in buffers
    ensures Sum(buffers, keep) == (if keep(k) then buffers[k] else 0) + Sum(buffers - {k}, keep)
    decreases |buffers|
  {
    var j :| j in buffers && Sum(buffers, keep) == (if keep(j) then buffers[j] else 0) + Sum(buffers - {j}, keep);
    if j != k {
      SumAny(buffers - {j}, keep, k);
      SumAny(buffers - {k}, keep, j);
      assert buffers - {j} - {k} == buffers - {k} - {j};
    }
  }

  // Disjoint selections add up to no more than a selection that has both.
  lemma {:induction false} SumDisjoint(buffers: Buffers, a: Keep, b: Keep, c: Keep)
    requires forall k :: (a(k) ==> !b(k)) && (a(k) || b(k) ==> c(k))
    ensures Sum(buffers, a) + Sum(buffers, b) <= Sum(buffers, c)
    decreases |buffers|
  {
    if buffers != map[] {
      var k :| k in buffers;
      SumAny(buffers, a, k);
      SumAny(buffers, b, k);
      SumAny(buffers, c, k);
      SumDisjoint(buffers - {k}, a, b, c);
    }
  }

  lemma {:induction false} SumNone(buffers: Buffers, keep: Keep)
    requires forall k :: k in buffers ==> !keep(k)
    ensures Sum(buffers, keep) == 0
    decreases |buffers|
  {
    if buffers != map[] {
      var k :| k in buffers;
      SumAny(buffers, keep, k);
      SumNone(buffers - {k}, keep);
    }
  }

  // ---------- devices ----------

  function Devices(buffers: Buffers, c: Classes): set<string> {
    set k | k in buffers && c.gpu(k) :: c.device(k)
  }

  ghost function ByDevice(buffers: Buffers, c: Classes): map<string, nat> {
    map d | d in Devices(buffers, c) :: Sum(buffers, OnDevice(c, d))
  }

  ghost function SumValues(m: map<string, nat>): nat
    decreases |m|
  {
    if m == map[] then 0 else
      var d :| d in m;
      m[d] + SumValues(m - {d})
  }

  function Get(m: map<string, nat>, d: string): nat {
    if d in m then m[d] else 0
  }

  lemma {:induction false} SumValuesAny(m: map<string, nat>, d: string)
    requires d in m
    ensures SumValues(m) == m[d] + SumValues(m - {d})
    decreases |m|
  {
    var e :| e in m && SumValues(m) == m[e] + SumValues(m - {e});
    if e != d {
      SumValuesAny(m - {e}, d);
      SumValuesAny(m - {d}, e);
      assert m - {e} - {d} == m - {d} - {e};
    }
  }

  lemma SumValuesSet(m: map<string, nat>, d: string, v: nat)
    ensures SumValues(m[d := v]) + Get(m, d) == SumValues(m) + v
  {
    SumValuesAny(m[d := v], d);
    assert m[d := v] - {d} == m - {d};
    if d in m {
      SumValuesAny(m, d);
    } else {
      assert m - {d} == m;
    }
  }

  // The GPU bytes are the bytes of all devices together.
  lemma {:induction false} DevicesAddUp(buffers: Buffers, c: Classes)
    ensures SumValues(ByDevice(buffers, c)) == Sum(buffers, c.gpu)
    decreases |buffers|
  {
    if buffers == map[] {
      assert ByDevice(buffers, c) == map[];
    } else {
      var k :| k in buffers;
      DevicesAddUp(buffers - {k}, c);
      SumAny(buffers, c.gpu, k);
      if c.gpu(k) {
        OneMoreOnDevice(buffers, c, k);
      } else {
        OneMoreElsewhere(buffers, c, k);
      }
    }
  }

  lemma OneMoreElsewhere(buffers: Buffers, c: Classes, k: BufferKey)
    requires k in buffers && !c.gpu(k)
    ensures ByDevice(buffers, c) == ByDevice(buffers - {k}, c)
  {
    assert Devices(buffers, c) == Devices(buffers - {k}, c);
    forall d ensures Sum(buffers, OnDevice(c, d)) == Sum(buffers - {k}, OnDevice(c, d)) {
      SumAny(buffers, OnDevice(c, d), k);
    }
  }

  lemma OneMoreOnDevice(buffers: Buffers, c: Classes, k: BufferKey)
    requires k in buffers && c.gpu(k)
    ensures SumValues(ByDevice(buffers, c)) == SumValues(ByDevice(buffers - {k}, c)) + buffers[k]
  {
    var less, d := buffers - {k}, c.device(k);
    DevicesNext(buffers, c, k);
    forall e ensures Sum(buffers, OnDevice(c, e)) == Sum(less, OnDevice(c, e)) + (if e == d then buffers[k] else 0) {
      SumAny(buffers, OnDevice(c, e), k);
    }
    GetByDevice(less, c, d);
    assert ByDevice(buffers, c) == ByDevice(less, c)[d := Sum(buffers, OnDevice(c, d))];
    SumValuesSet(ByDevice(less, c), d, Sum(buffers, OnDevice(c, d)));
  }

  lemma DevicesNext(buffers: Buffers, c: Classes, k: BufferKey)
    requires k in buffers && c.gpu(k)
    ensures Devices(buffers, c) == Devices(buffers - {k}, c) + {c.device(k)}
  {
    forall d | d in Devices(buffers, c) ensures d in Devices(buffers - {k}, c) + {c.device(k)} {
      var j :| j in buffers && c.gpu(j) && c.device(j) == d;
      if j != k {
        assert j in buffers - {k};
      }
    }
  }

  lemma {:induction false} GetByDevice(buffers: Buffers, c: Classes, d: string)
    ensures Get(ByDevice(buffers, c), d) == Sum(buffers, OnDevice(c, d))
  {
    if d !in Devices(buffers, c) {
      SumNone(buffers, OnDevice(c, d));
    }
  }

  // ---------- totals ----------

  datatype Totals = Totals(total: nat, gpu: nat, fileBacked: nat, cpuMapped: nat, byDevice: map<string, nat>)

  ghost function Wrapped(m: map<string, nat>): map<string, nat> {
    map d | d in m :: m[d] % U64
  }

  // What the runner reports for a table of buffers, in 64-bit arithmetic.
  ghost function TotalsOf(buffers: Buffers, c: Classes): Totals {
    Totals(Sum(buffers, Every()) % U64, Sum(buffers, c.gpu) % U64, Sum(buffers, c.fileBacked) % U64,
           Sum(buffers, c.cpuMapped) % U64, Wrapped(ByDevice(buffers, c)))
  }

  // The buffers fit in 64 bits together.
  ghost predicate Fits(buffers: Buffers) {
    Sum(buffers, Every()) < U64
  }

  // What every reader of the totals may rely on.
  ghost predicate Consistent(t: Totals) {
    && t.total < U64
    && t.gpu == SumValues(t.byDevice)
    && t.gpu + t.cpuMapped <= t.total
    && t.cpuMapped <= t.fileBacked <= t.total
  }

  lemma {:induction false} PartFits(buffers: Buffers, keep: Keep)
    requires Fits(buffers)
    ensures Sum(buffers, keep) % U64 == Sum(buffers, keep) <= Sum(buffers, Every())
  {
    var none: Keep := (k: BufferKey) => false;
    SumDisjoint(buffers, keep, none, Every());
  }

  lemma DevicesFit(buffers: Buffers, c: Classes)
    requires Fits(buffers)
    ensures Wrapped(ByDevice(buffers, c)) == ByDevice(buffers, c)
  {
    forall d | d in Devices(buffers, c) ensures Sum(buffers, OnDevice(c, d)) % U64 == Sum(buffers, OnDevice(c, d)) {
      PartFits(buffers, OnDevice(c, d));
    }
  }

  // No total has wrapped around, and they agree with one another.
  lemma {:induction false} TotalsConsistent(buffers: Buffers, c: Classes)
    requires Fits(buffers) && Sound(c)
    ensures Consistent(TotalsOf(buffers, c))
    ensures TotalsOf(buffers, c) == Totals(Sum(buffers, Every()), Sum(buffers, c.gpu), Sum(buffers, c.fileBacked),
                                           Sum(buffers, c.cpuMapped), ByDevice(buffers, c))
  {
    var none: Keep := (k: BufferKey) => false;
    PartFits(buffers, Every());
    PartFits(buffers, c.gpu);
    PartFits(buffers, c.fileBacked);
    PartFits(buffers, c.cpuMapped);
    SumDisjoint(buffers, c.gpu, c.cpuMapped, Every());
    SumDisjoint(buffers, c.cpuMapped, none, c.fileBacked);
    DevicesFit(buffers, c);
    DevicesAddUp(buffers, c);
  }
}
