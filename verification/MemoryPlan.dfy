/** The memory-tier planner, the disk budget its disk tiers rely on, and the retry ladder over the plan. */
module MemoryPlan {
  import opened Basics

  datatype Tier = Resident | ResidentFp8 | StreamCpu | Fp8Cpu | Int8Cpu | StreamDisk | Fp8Disk
  {
    predicate OnDisk() { StreamDisk? || Fp8Disk? }
    predicate Quantized() { ResidentFp8? || Fp8Cpu? || Fp8Disk? }
  }

  datatype Mode = Auto | ResidentMode | CpuMode | DiskMode | UnknownMode

  /** A compute capability: a tuple of two or of another length, or one number. */
  datatype Capability = Pair(major: int, minor: int) | Tuple | Number(value: real)

  function Fp8Capable(c: Capability): Result<bool> {
    match c
    case Pair(major, minor) => Ok(major > 8 || (major == 8 && minor >= 9))
    case Tuple => Raised
    case Number(value) => Ok(value >= 8.9)
  }

  /** Both ways to give a capability agree: version 8.9 and all later ones. */
  lemma CapabilitiesAgree(major: int, minor: int)
    requires 0 <= minor <= 9
    ensures Fp8Capable(Pair(major, minor)) == Fp8Capable(Number(major as real + minor as real / 10.0)) == Ok(10 * major + minor >= 89)
  {
    assert 10.0 * (major as real + minor as real / 10.0) == (10 * major + minor) as real;
  }

  /** Memory in bytes; host memory may be unknown. */
  datatype Machine = Machine(vram: int, host: Option<int>, disk: int, capability: Capability, torchao: bool)
  {
    predicate Readable() {
      vram >= 0 && disk >= 0 && (host.Some? ==> host.value >= 0) && Fp8Capable(capability).Ok?
    }
    predicate Fp8() { Fp8Capable(capability) == Ok(true) }
    predicate Host(gib: int) { host.Some? && host.value >= gib * 1073741824 }
    predicate Vram(gib: int) { vram >= gib * 1073741824 }
    predicate Disk(gib: int) { disk >= gib * 1073741824 }
  }

  datatype Request = Request(offload: bool, fp8: bool, mode: Mode)

  function Add(plans: seq<Tier>, tier: Tier): seq<Tier> {
    if tier in plans then plans else plans + [tier]
  }

  function AddIf(plans: seq<Tier>, tier: Tier, wanted: bool): (r: seq<Tier>)
    ensures forall t :: t in r <==> t in plans || (wanted && t == tier)
  {
    if wanted then Add(plans, tier) else plans
  }

  /** `choose_memory_plans`. */
  function ChooseMemoryPlans(m: Machine, r: Request): Result<seq<Tier>> {
    if m.vram < 0 || m.disk < 0 || (m.host.Some? && m.host.value < 0) || r.mode == UnknownMode then Raised
    else if Fp8Capable(m.capability).Raised? then Raised
    else
      var fp8Gpu := Fp8Capable(m.capability).value;
      if r.fp8 && !fp8Gpu then Raised
      else
        var cpuOk := m.Host(136);
        var quantOk := m.Host(80);
        var diskOk := m.Host(12) && m.Disk(180) && m.Vram(8);
        var residentOk := m.Host(68) && if r.fp8 then m.Vram(48) else m.Vram(78);
        match r.mode
        case ResidentMode => if !residentOk then Raised else Ok([if r.fp8 then ResidentFp8 else Resident])
        case CpuMode =>
          if !(if r.fp8 then quantOk else cpuOk) then Raised else Ok([if r.fp8 then Fp8Cpu else StreamCpu])
        case DiskMode =>
          if r.fp8 && (!fp8Gpu || !m.torchao) then Raised
          else if !diskOk then Raised
          else Ok([if r.fp8 then Fp8Disk else StreamDisk])
        case Auto =>
          var p1 := AddIf([], if r.fp8 then ResidentFp8 else Resident, !r.offload && residentOk);
          var p2 := AddIf(p1, Fp8Cpu, r.fp8 && quantOk && fp8Gpu);
          var p3 := AddIf(p2, StreamCpu, !r.fp8 && cpuOk);
          var p4 := AddIf(p3, Int8Cpu, !r.fp8 && m.torchao && quantOk);
          var p5 := AddIf(p4, if r.fp8 then Fp8Disk else StreamDisk, diskOk && (!r.fp8 || (fp8Gpu && m.torchao)));
          if p5 == [] then Raised else Ok(p5)
  }

  /* What a tier needs, independently of the planner. */

  predicate Meets(m: Machine, tier: Tier) {
    match tier
    case Resident => m.Host(68) && m.Vram(78)
    case ResidentFp8 => m.Host(68) && m.Vram(48) && m.Fp8()
    case StreamCpu => m.Host(136)
    case Fp8Cpu => m.Host(80) && m.Fp8()
    case Int8Cpu => m.Host(80) && m.torchao
    case StreamDisk => m.Host(12) && m.Disk(180) && m.Vram(8)
    case Fp8Disk => m.Host(12) && m.Disk(180) && m.Vram(8) && m.Fp8() && m.torchao
  }

  /** The tiers a request admits: it never mixes precisions, and quantizes to 8-bit integers only on its own accord. */
  predicate Admits(r: Request, tier: Tier) {
    && tier.Quantized() == r.fp8
    && match r.mode
       case Auto => (tier.Resident? || tier.ResidentFp8? ==> !r.offload)
       case ResidentMode => tier.Resident? || tier.ResidentFp8?
       case CpuMode => tier.StreamCpu? || tier.Fp8Cpu?
       case DiskMode => tier.OnDisk()
       case UnknownMode => false
  }

  /** From the fastest placement to the smallest. */
  function Rank(tier: Tier): nat {
    match tier
    case Resident => 0
    case ResidentFp8 => 0
    case StreamCpu => 1
    case Fp8Cpu => 1
    case Int8Cpu => 2
    case StreamDisk => 3
    case Fp8Disk => 3
  }

  predicate Ordered(plan: seq<Tier>) {
    forall i, j :: 0 <= i < j < |plan| ==> Rank(plan[i]) < Rank(plan[j])
  }

  /** The next tier of a plan is slower than all before it. */
  lemma AddKeepsOrder(plan: seq<Tier>, tier: Tier, wanted: bool, rank: nat)
    requires Ordered(plan) && (forall t :: t in plan ==> Rank(t) < rank) && Rank(tier) == rank
    ensures Ordered(AddIf(plan, tier, wanted)) && forall t :: t in AddIf(plan, tier, wanted) ==> Rank(t) <= rank
  {
    var next := AddIf(plan, tier, wanted);
    forall i, j | 0 <= i < j < |next|
      ensures Rank(next[i]) < Rank(next[j])
    {
      assert next[i] in plan;
    }
  }

  lemma PlanIsOrdered(m: Machine, r: Request)
    requires ChooseMemoryPlans(m, r).Ok?
    ensures ChooseMemoryPlans(m, r).value != [] && Ordered(ChooseMemoryPlans(m, r).value)
  {
    hide Machine.Host, Machine.Vram, Machine.Disk, AddIf;
    if r.mode == Auto {
      var fp8Gpu := Fp8Capable(m.capability).value;
      var residentOk := m.Host(68) && if r.fp8 then m.Vram(48) else m.Vram(78);
      var first := if r.fp8 then ResidentFp8 else Resident;
      var p1 := AddIf([], first, !r.offload && residentOk);
      AddKeepsOrder([], first, !r.offload && residentOk, 0);
      var p2 := AddIf(p1, Fp8Cpu, r.fp8 && m.Host(80) && fp8Gpu);
      AddKeepsOrder(p1, Fp8Cpu, r.fp8 && m.Host(80) && fp8Gpu, 1);
      AddNothing(p2, StreamCpu);
      AddNothing(p1, Fp8Cpu);
      var p3 := AddIf(p2, StreamCpu, !r.fp8 && m.Host(136));
      if !r.fp8 {
        AddKeepsOrder(p2, StreamCpu, m.Host(136), 1);
      }
      var p4 := AddIf(p3, Int8Cpu, !r.fp8 && m.torchao && m.Host(80));
      AddKeepsOrder(p3, Int8Cpu, !r.fp8 && m.torchao && m.Host(80), 2);
      AddKeepsOrder(p4, if r.fp8 then Fp8Disk else StreamDisk,
        m.Host(12) && m.Disk(180) && m.Vram(8) && (!r.fp8 || (fp8Gpu && m.torchao)), 3);
    }
  }

  lemma AddNothing(plan: seq<Tier>, tier: Tier)
    ensures AddIf(plan, tier, false) == plan
  {
  }

  /** Everything the planner lists is admitted and met, once each, fastest first. */
  lemma PlanIsSound(m: Machine, r: Request, tier: Tier)
    requires ChooseMemoryPlans(m, r).Ok?
    ensures m.Readable()
    ensures tier in ChooseMemoryPlans(m, r).value ==> Admits(r, tier) && Meets(m, tier)
  {
    hide AddIf, Machine.Host, Machine.Vram, Machine.Disk;
  }

  lemma PlanIsComplete(m: Machine, r: Request, tier: Tier)
    requires m.Readable() && Admits(r, tier) && Meets(m, tier)
    ensures ChooseMemoryPlans(m, r).Ok? && tier in ChooseMemoryPlans(m, r).value
  {
    hide Machine.Host, Machine.Vram, Machine.Disk;
  }

  /**
   * The plan is exactly the tiers the request admits and the machine meets, each once, fastest first;
   * planning fails exactly when readings are invalid or there is no such tier.
   */
  lemma PlanIsExact(m: Machine, r: Request)
    ensures ChooseMemoryPlans(m, r).Ok? <==> m.Readable() && exists tier :: Admits(r, tier) && Meets(m, tier)
    ensures ChooseMemoryPlans(m, r).Ok? ==>
      var plan := ChooseMemoryPlans(m, r).value;
      plan != [] && Ordered(plan) && forall tier :: tier in plan <==> Admits(r, tier) && Meets(m, tier)
  {
    hide ChooseMemoryPlans, Admits, Meets, Ordered;
    var c := ChooseMemoryPlans(m, r);
    if c.Ok? {
      forall tier: Tier
        ensures tier in c.value <==> Admits(r, tier) && Meets(m, tier)
      {
        PlanIsSound(m, r, tier);
        if Admits(r, tier) && Meets(m, tier) {
          PlanIsComplete(m, r, tier);
        }
      }
      PlanIsSound(m, r, Resident);
      PlanIsOrdered(m, r);
      assert c.value[0] in c.value;
    } else if m.Readable() && exists tier :: Admits(r, tier) && Meets(m, tier) {
      var tier :| Admits(r, tier) && Meets(m, tier);
      PlanIsComplete(m, r, tier);
      assert false;
    }
  }

  /* More resources. */

  ghost predicate NoLess(m: Machine, m': Machine) {
    && m.vram <= m'.vram && m.disk <= m'.disk
    && (m.host.Some? ==> m'.host.Some? && m.host.value <= m'.host.value)
    && (m.Fp8() ==> m'.Fp8()) && (m.torchao ==> m'.torchao)
  }

  /** Tier t stands before tier u in the plan. */
  ghost predicate Before(plan: seq<Tier>, t: Tier, u: Tier) {
    exists i, j :: 0 <= i < j < |plan| && plan[i] == t && plan[j] == u
  }

  lemma BeforeIsRank(plan: seq<Tier>, t: Tier, u: Tier)
    requires Ordered(plan) && t in plan && u in plan
    ensures Before(plan, t, u) <==> Rank(t) < Rank(u)
  {
    var i :| 0 <= i < |plan| && plan[i] == t;
    var j :| 0 <= j < |plan| && plan[j] == u;
    if i < j {
      assert Before(plan, t, u);
    }
  }

  /** More resources never remove a tier from the plan or reorder two of its tiers. */
  lemma PlanIsMonotone(m: Machine, m': Machine, r: Request)
    requires NoLess(m, m') && m'.Readable() && ChooseMemoryPlans(m, r).Ok?
    ensures ChooseMemoryPlans(m', r).Ok?
    ensures
      var plan, plan' := ChooseMemoryPlans(m, r).value, ChooseMemoryPlans(m', r).value;
      && (forall t :: t in plan ==> t in plan')
      && (forall t, u :: t in plan && u in plan ==> (Before(plan, t, u) <==> Before(plan', t, u)))
  {
    hide ChooseMemoryPlans;
    PlanIsExact(m, r);
    PlanIsExact(m', r);
    var plan := ChooseMemoryPlans(m, r).value;
    assert forall t :: Meets(m, t) ==> Meets(m', t);
    var plan' := ChooseMemoryPlans(m', r).value;
    forall t, u | t in plan && u in plan
      ensures Before(plan, t, u) <==> Before(plan', t, u)
    {
      BeforeIsRank(plan, t, u);
      BeforeIsRank(plan', t, u);
    }
  }

  /* The disk budget. */

  datatype Budget = Budget(cuda: int, cpu: int, activation: int, reserve: int)

  function Clamp(low: int, x: int, high: int): int {
    var y := if x < low then low else x;
    if high < y then high else y
  }

  /** `low_ram_disk_budget`. */
  function LowRamDiskBudget(vram: int, ram: int, disk: int): Result<Budget> {
    if vram < 0 || ram < 0 || disk < 0 then Raised
    else if vram < 8589934592 || ram < 12884901888 || disk < 193273528320 then Raised
    else
      var cuda := Clamp(1073741824, vram * 18 / 100, 2147483648);
      var cpu := Clamp(2147483648, ram * 22 / 100, 4294967296);
      Ok(Budget(cuda, cpu, vram - 2 * cuda, ram - 2 * cpu))
  }

  /** The shares: 18 % of the graphics memory up to 2 GiB and 22 % of the host's up to 4 GiB; the lower limits never act. */
  lemma BudgetShares(vram: int, ram: int, disk: int)
    requires LowRamDiskBudget(vram, ram, disk).Ok?
    ensures
      var b := LowRamDiskBudget(vram, ram, disk).value;
      && 1073741824 < b.cuda <= 2147483648 && 2147483648 < b.cpu <= 4294967296
      && 100 * b.cuda <= 18 * vram && (b.cuda < 2147483648 ==> 18 * vram < 100 * (b.cuda + 1))
      && 100 * b.cpu <= 22 * ram && (b.cpu < 4294967296 ==> 22 * ram < 100 * (b.cpu + 1))
  {
  }

  /** The memory check of `disk_component_kwargs`. */
  predicate DispatchAccepts(b: Budget) {
    b.cuda >= 536870912 && b.cpu >= 536870912
  }

  /** A planned disk tier is accepted by the budget on the same readings, and each device keeps at least 4 GiB free. */
  lemma PlannedDiskTierIsAccepted(m: Machine, r: Request, tier: Tier)
    requires ChooseMemoryPlans(m, r).Ok? && tier in ChooseMemoryPlans(m, r).value && tier.OnDisk()
    ensures m.host.Some?
    ensures
      var b := LowRamDiskBudget(m.vram, m.host.value, m.disk);
      && b.Ok? && DispatchAccepts(b.value)
      && b.value.activation >= 4294967296 && b.value.reserve >= 4294967296
      && 2 * b.value.cuda + b.value.activation == m.vram && 2 * b.value.cpu + b.value.reserve == m.host.value
  {
    hide ChooseMemoryPlans;
    PlanIsExact(m, r);
  }

  /** The other way round: when the budget accepts the readings, some disk tier is planned unless its precision is missing. */
  lemma AcceptedBudgetIsPlanned(m: Machine, r: Request)
    requires m.Readable() && m.host.Some? && (r.mode == Auto || r.mode == DiskMode) && (r.fp8 ==> m.Fp8() && m.torchao)
    ensures LowRamDiskBudget(m.vram, m.host.value, m.disk).Ok? <==>
      ChooseMemoryPlans(m, r).Ok? && exists tier :: tier in ChooseMemoryPlans(m, r).value && tier.OnDisk()
  {
    hide ChooseMemoryPlans;
    PlanIsExact(m, r);
    var tier := if r.fp8 then Fp8Disk else StreamDisk;
    assert tier.OnDisk() && Admits(r, tier);
  }

  /* The flags a child process derives from its tier. */

  function Name(tier: Tier): string {
    match tier
    case Resident => "resident"
    case ResidentFp8 => "resident_fp8"
    case StreamCpu => "stream_cpu"
    case Fp8Cpu => "fp8_cpu"
    case Int8Cpu => "int8_cpu"
    case StreamDisk => "stream_disk"
    case Fp8Disk => "fp8_disk"
  }

  datatype Flags = Flags(offload: bool, disk: bool, int8: bool, fp8: bool)

  function FlagsOf(name: string): Flags {
    Flags(
      !("resident" <= name),
      EndsWith(name, "_disk") || name == "stream_disk",
      name == "int8_cpu",
      "fp8" <= name || name == "resident_fp8")
  }

  /** The flags mean what the tier's name says. */
  lemma FlagsAreTheTier(tier: Tier)
    ensures FlagsOf(Name(tier)) == Flags(!(tier.Resident? || tier.ResidentFp8?), tier.OnDisk(), tier.Int8Cpu?, tier.Quantized())
  {
    var name := Name(tier);
    assert name[0] == 'r' <==> tier.Resident? || tier.ResidentFp8?;
    assert "resident" <= name <==> name[0] == 'r';
    assert "fp8" <= name <==> name[0] == 'f';
    assert name[|name| - 1] == 'k' <==> tier.OnDisk();
    assert tier.OnDisk() ==> name[|name| - 5..] == "_disk";
    assert EndsWith(name, "_disk") ==> name[|name| - 5..][4] == 'k';
    assert tier.StreamCpu? ==> name[0] != "int8_cpu"[0];
    assert name == "int8_cpu" ==> name[0] == 'i';
    assert name == "resident_fp8" ==> name[|name| - 1] == '8';
  }

  /** So no two tiers run alike, and a planned tier always runs in the requested precision. */
  lemma FlagsIdentifyTiers(t: Tier, u: Tier)
    ensures FlagsOf(Name(t)) == FlagsOf(Name(u)) <==> t == u
  {
    hide FlagsOf, Name;
    FlagsAreTheTier(t);
    FlagsAreTheTier(u);
  }

  lemma PlannedPrecision(m: Machine, r: Request, tier: Tier)
    requires ChooseMemoryPlans(m, r).Ok? && tier in ChooseMemoryPlans(m, r).value
    ensures FlagsOf(Name(tier)).fp8 == r.fp8
  {
    hide *;
    PlannedMeets(m, r, tier);
    FlagsAreTheTier(tier);
  }

  lemma PlannedMeets(m: Machine, r: Request, tier: Tier)
    requires ChooseMemoryPlans(m, r).Ok? && tier in ChooseMemoryPlans(m, r).value
    ensures Meets(m, tier) && tier.Quantized() == r.fp8
  {
    hide ChooseMemoryPlans;
    PlanIsExact(m, r);
  }

  /* The retry ladder. */

  datatype Lowmem = Off | AutoTiles | Force

  datatype Knobs = Knobs(lowmem: Lowmem, query: nat, heads: nat, ff: nat)

  datatype Try = Try(tier: Tier, knobs: Knobs)

  /** How a child process ends. */
  datatype Exit = Done | CudaOom | OtherFailure

  datatype LadderEnd = Finished | FailedOutside | Exhausted

  /** `min(x or cap, cap)`. */
  function Cap(x: nat, cap: nat): nat {
    if x == 0 || cap < x then cap else x
  }

  function Emergency(k: Knobs): Knobs {
    Knobs(Force, Cap(k.query, 128), Cap(k.heads, 2), Cap(k.ff, 128))
  }

  function Attempts(k: Knobs): (r: seq<Knobs>)
    ensures 1 <= |r| <= 2 && r[0] == k
    ensures |r| == 2 ==> r[1] != k && k.lowmem != Off
  {
    if k.lowmem != Off && Emergency(k) != k then [k, Emergency(k)] else [k]
  }

  /** The emergency tiles are never larger than the requested ones, never adaptive, and asking for them again changes nothing. */
  lemma EmergencyIsSmaller(k: Knobs)
    ensures
      var e := Emergency(k);
      && 1 <= e.query <= 128 && 1 <= e.heads <= 2 && 1 <= e.ff <= 128
      && (k.query > 0 ==> e.query <= k.query) && (k.heads > 0 ==> e.heads <= k.heads) && (k.ff > 0 ==> e.ff <= k.ff)
      && (k.query == 0 || k.query > 128 ==> e.query == 128) && (k.heads == 0 || k.heads > 2 ==> e.heads == 2)
      && (k.ff == 0 || k.ff > 128 ==> e.ff == 128) && e.lowmem == Force
      && Emergency(e) == e && Attempts(e) == [e]
  {
  }

  /** Tiles that an emergency retry could not make any smaller. */
  predicate Smallest(k: Knobs) {
    k.lowmem == Force && 1 <= k.query <= 128 && 1 <= k.heads <= 2 && 1 <= k.ff <= 128
  }

  /** A tier is tried again exactly when tiling is on and not at its smallest, and then with tiles that are. */
  lemma RetryIff(k: Knobs)
    ensures |Attempts(k)| == 2 <==> k.lowmem != Off && !Smallest(k)
    ensures |Attempts(k)| == 2 ==> Attempts(k)[1] == Emergency(k) && Smallest(Attempts(k)[1])
  {
  }

  function Tries(tier: Tier, knobs: seq<Knobs>): (r: seq<Try>)
    ensures |r| == |knobs| && forall i :: 0 <= i < |r| ==> r[i] == Try(tier, knobs[i])
  {
    seq(|knobs|, i requires 0 <= i < |knobs| => Try(tier, knobs[i]))
  }

  /** Every try in the order the ladder would make them if all ran out of memory. */
  function Schedule(plan: seq<Tier>, k: Knobs): seq<Try> {
    if plan == [] then [] else Schedule(plan[..|plan| - 1], k) + Tries(plan[|plan| - 1], Attempts(k))
  }

  /** Tier after tier, each with all its attempts before the next. */
  lemma {:induction false} ScheduleAt(plan: seq<Tier>, k: Knobs, i: nat, j: nat)
    requires i < |plan| && j < |Attempts(k)|
    ensures |Schedule(plan, k)| == |plan| * |Attempts(k)| && 0 <= i * |Attempts(k)| + j < |Schedule(plan, k)|
    ensures Schedule(plan, k)[i * |Attempts(k)| + j] == Try(plan[i], Attempts(k)[j])
  {
    hide Attempts, Tries;
    var front, n := plan[..|plan| - 1], |Attempts(k)|;
    assert |plan| * n == |front| * n + n;
    if |plan| == 1 {
      assert front == [] && 0 * n == 0;
    } else {
      ScheduleAt(front, k, if i < |front| then i else 0, j);
      MulLe(i, |front|, n);
    }
  }

  function Count(tries: seq<Try>, tier: Tier): nat {
    if tries == [] then 0 else Count(tries[..|tries| - 1], tier) + if tries[|tries| - 1].tier == tier then 1 else 0
  }

  lemma {:induction false} CountConcat(a: seq<Try>, b: seq<Try>, tier: Tier)
    ensures Count(a + b, tier) == Count(a, tier) + Count(b, tier)
  {
    if b == [] {
      assert a + b == a;
    } else {
      assert (a + b)[..|a + b| - 1] == a + b[..|b| - 1];
      CountConcat(a, b[..|b| - 1], tier);
    }
  }

  lemma {:induction false} CountTries(tries: seq<Try>, tier: Tier, t: Tier)
    requires forall i :: 0 <= i < |tries| ==> tries[i].tier == tier
    ensures Count(tries, t) == if t == tier then |tries| else 0
  {
    if tries != [] {
      CountTries(tries[..|tries| - 1], tier, t);
    }
  }

  /** A duplicate-free plan gives every tier one try, or two, and no other tier any. */
  lemma {:induction false} AtMostTwoTriesPerTier(plan: seq<Tier>, k: Knobs, t: Tier)
    requires Ordered(plan)
    ensures Count(Schedule(plan, k), t) == if t in plan then |Attempts(k)| else 0
  {
    hide Attempts, Count, Ordered, Tries;
    if plan != [] {
      var front, last := plan[..|plan| - 1], plan[|plan| - 1];
      LastIsNew(plan, t);
      AtMostTwoTriesPerTier(front, k, t);
      CountConcat(Schedule(front, k), Tries(last, Attempts(k)), t);
      CountTries(Tries(last, Attempts(k)), last, t);
    } else {
      assert Count([], t) == 0 by { CountTries([], Resident, t); }
    }
  }

  lemma LastIsNew(plan: seq<Tier>, t: Tier)
    requires Ordered(plan) && plan != []
    ensures Ordered(plan[..|plan| - 1]) && plan[|plan| - 1] !in plan[..|plan| - 1]
    ensures t in plan <==> t in plan[..|plan| - 1] || t == plan[|plan| - 1]
  {
    var front, last := plan[..|plan| - 1], plan[|plan| - 1];
    assert plan == front + [last];
    assert forall i :: 0 <= i < |front| ==> Rank(plan[i]) < Rank(last);
  }

  /** The loop of `run`: `exits(n)` is how the n-th child process ends. */
  method RunLadder(plan: seq<Tier>, k: Knobs, exits: nat -> Exit) returns (end: LadderEnd, log: seq<Try>)
    ensures log <= Schedule(plan, k)
    ensures forall n :: 0 <= n < |log| - 1 ==> exits(n) == CudaOom
    ensures end == Exhausted <==> forall n :: 0 <= n < |Schedule(plan, k)| ==> exits(n) == CudaOom
    ensures end == Exhausted ==> log == Schedule(plan, k)
    ensures end != Exhausted ==> log != [] && exits(|log| - 1) == if end == Finished then Done else OtherFailure
  {
    hide Schedule, Tries, Attempts;
    log := [];
    var i := 0;
    assert plan[..0] == [] && Schedule([], k) == [] by { ScheduleEmpty(k); }
    while i < |plan|
      invariant 0 <= i <= |plan|
      invariant log == Schedule(plan[..i], k)
      invariant forall n :: 0 <= n < |log| ==> exits(n) == CudaOom
    {
      var attempts := Attempts(k);
      ghost var tries := Tries(plan[i], attempts);
      ghost var before := log;
      SchedulePrefix(plan, k, i);
      var j := 0;
      while j < |attempts|
        invariant 0 <= j <= |attempts|
        invariant log == before + tries[..j]
        invariant forall n :: 0 <= n < |log| ==> exits(n) == CudaOom
      {
        assert tries[..j + 1] == tries[..j] + [tries[j]];
        assert before + tries[..j + 1] <= before + tries;
        var exit := exits(|log|);
        log := log + [Try(plan[i], attempts[j])];
        if exit == Done {
          return Finished, log;
        }
        if exit != CudaOom {
          return FailedOutside, log;
        }
        j := j + 1;
      }
      assert tries[..|attempts|] == tries;
      i := i + 1;
    }
    assert plan[..i] == plan;
    end := Exhausted;
  }

  lemma ScheduleEmpty(k: Knobs)
    ensures Schedule([], k) == []
  {
  }

  lemma SchedulePrefix(plan: seq<Tier>, k: Knobs, i: nat)
    requires i < |plan|
    ensures Schedule(plan[..i + 1], k) == Schedule(plan[..i], k) + Tries(plan[i], Attempts(k))
    ensures Schedule(plan[..i + 1], k) <= Schedule(plan, k)
  {
    assert plan[..i + 1][..i] == plan[..i];
    ScheduleExtends(plan, k, i + 1);
  }

  lemma {:induction false} ScheduleExtends(plan: seq<Tier>, k: Knobs, i: nat)
    requires i <= |plan|
    ensures Schedule(plan[..i], k) <= Schedule(plan, k)
  {
    if i == |plan| {
      assert plan[..i] == plan;
    } else {
      var front := plan[..|plan| - 1];
      assert front[..i] == plan[..i];
      ScheduleExtends(front, k, i);
    }
  }
}
