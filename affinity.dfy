/** The thread affinity table of src/util-affinity.c: the eight
    `ThreadsAffinityType` entries, their initialisation to every configured
    CPU, the loading of the `threading.cpu_affinity` configuration into them,
    and the round-robin choice of a CPU for the next thread of a family. */
module Affinity {
  import opened Results
  import opened CString
  import opened CpuList
  import opened CpuCursor

  /** MAX_CPU_SET: the number of thread families. */
  const MaxCpuSet := 8

  datatype Prio = PrioLow | PrioMedium | PrioHigh

  datatype AffinityMode = ExclusiveAffinity | BalancedAffinity

  /** One `ThreadsAffinityType` (its mutex is not modelled). */
  datatype ThreadsAffinity = ThreadsAffinity(
    name: string,
    cpuSet: set<int>,
    lowprioCpu: set<int>,
    medprioCpu: set<int>,
    hiprioCpu: set<int>,
    prio: Prio,
    modeFlag: AffinityMode,
    nbThreads: int,
    lcpu: int)

  const AffinityNames: seq<string> := [
    "receive_cpu_set", "decode_cpu_set", "stream_cpu_set", "detect_cpu_set",
    "verdict_cpu_set", "reject_cpu_set", "output_cpu_set", "management_cpu_set"]

  /** Entry `i` of the static initialiser: receive and detect are exclusive,
      the others balanced, all of medium priority, cursor 0, every other field
      zero. */
  function DefaultEntry(i: nat): ThreadsAffinity
    requires i < MaxCpuSet
  {
    ThreadsAffinity(AffinityNames[i], {}, {}, {}, {}, PrioMedium,
      if i == 0 || i == 3 then ExclusiveAffinity else BalancedAffinity, 0, 0)
  }

  // ---------------------------------------------------------------------
  // The configuration, as the loader reads it

  /** The children of the "prio" node: three CPU lists and the default. */
  datatype PrioConf = PrioConf(
    low: Option<seq<string>>,
    medium: Option<seq<string>>,
    high: Option<seq<string>>,
    defaultPrio: Option<string>)

  /** One child of "threading.cpu_affinity": the family name and the values
      of its optional "cpu", "prio", "mode" and "threads" children. */
  datatype AffinityConf = AffinityConf(
    name: string,
    cpu: Option<seq<string>>,
    prio: Option<PrioConf>,
    mode: Option<string>,
    threads: Option<string>)

  /** The diagnostics the loader logs before `exit(EXIT_FAILURE)`. */
  datatype LoadError =
    | UnknownAffinityType                    // "unknown cpu_affinity type"
    | InvalidCpuRange(reason: CpuRangeError) // from build_cpuset
    | UnknownPrio                            // "unknown cpu_affinity prio"
    | UnknownMode                            // "unknown cpu_affinity node"
    | BadThreadsCount                        // "bad value for threads count"

  function PrioName(p: Prio): string {
    match p
    case PrioLow => "low"
    case PrioMedium => "medium"
    case PrioHigh => "high"
  }

  function ModeName(m: AffinityMode): string {
    match m
    case ExclusiveAffinity => "exclusive"
    case BalancedAffinity => "balanced"
  }

  /** The "default" priority: only the three names are accepted. */
  function ParsePrio(s: string): (r: Result<Prio, LoadError>)
    ensures r.Ok? <==> s == "low" || s == "medium" || s == "high"
    ensures r.Ok? ==> PrioName(r.value) == s
    ensures r.Err? ==> r.error == UnknownPrio
  {
    if s == "low" then Ok(PrioLow)
    else if s == "medium" then Ok(PrioMedium)
    else if s == "high" then Ok(PrioHigh)
    else Err(UnknownPrio)
  }

  /** The "mode": only "exclusive" and "balanced" are accepted. */
  function ParseMode(s: string): (r: Result<AffinityMode, LoadError>)
    ensures r.Ok? <==> s == "exclusive" || s == "balanced"
    ensures r.Ok? ==> ModeName(r.value) == s
    ensures r.Err? ==> r.error == UnknownMode
  {
    if s == "exclusive" then Ok(ExclusiveAffinity)
    else if s == "balanced" then Ok(BalancedAffinity)
    else Err(UnknownMode)
  }

  /** The "threads" count: whatever `atoi` makes of it, unless that is 0. */
  function ParseThreads(s: string): (r: Result<int, LoadError>)
    ensures r.Ok? <==> Atoi(s) != 0
    ensures r.Ok? ==> r.value == Atoi(s)
    ensures r.Err? ==> r.error == BadThreadsCount
  {
    var n := Atoi(s);
    if n == 0 then Err(BadThreadsCount) else Ok(n)
  }

  /** A CPU set after `build_cpuset` has added the list to `start`, when the
      list is present. */
  function ListedCpus(list: Option<seq<string>>, online: int, start: set<int>): Result<set<int>, LoadError> {
    match list
    case None => Ok(start)
    case Some(entries) =>
      match CpusetSpec(entries, online, start)
      case Ok(cpus) => Ok(cpus)
      case Err(e) => Err(InvalidCpuRange(e))
  }

  function ApplyPrio(t: ThreadsAffinity, p: Option<PrioConf>, online: int): Result<ThreadsAffinity, LoadError> {
    match p
    case None => Ok(t)
    case Some(pc) =>
      var low :- ListedCpus(pc.low, online, t.lowprioCpu);
      var medium :- ListedCpus(pc.medium, online, t.medprioCpu);
      var high :- ListedCpus(pc.high, online, t.hiprioCpu);
      var t' := t.(lowprioCpu := low, medprioCpu := medium, hiprioCpu := high);
      match pc.defaultPrio
      case None => Ok(t')
      case Some(s) =>
        var prio :- ParsePrio(s);
        Ok(t'.(prio := prio))
  }

  /** The "cpu" list: the CPU set is cleared and refilled, and the three
      priority sets are cleared. */
  function ApplyCpu(t: ThreadsAffinity, cpu: Option<seq<string>>, online: int): Result<ThreadsAffinity, LoadError> {
    var cpus :- ListedCpus(cpu, online, {});
    Ok(t.(cpuSet := cpus, lowprioCpu := {}, medprioCpu := {}, hiprioCpu := {}))
  }

  function ApplyMode(t: ThreadsAffinity, mode: Option<string>): Result<ThreadsAffinity, LoadError> {
    match mode
    case None => Ok(t)
    case Some(s) =>
      var m :- ParseMode(s);
      Ok(t.(modeFlag := m))
  }

  function ApplyThreads(t: ThreadsAffinity, threads: Option<string>): Result<ThreadsAffinity, LoadError> {
    match threads
    case None => Ok(t)
    case Some(s) =>
      var n :- ParseThreads(s);
      Ok(t.(nbThreads := n))
  }

  /** What the body of the loader's loop does to the entry `t` it found for
      the configuration node `c`, in the source's order of checks. */
  function ApplyConf(t: ThreadsAffinity, c: AffinityConf, online: int): Result<ThreadsAffinity, LoadError> {
    var t1 :- ApplyCpu(t, c.cpu, online);
    var t2 :- ApplyPrio(t1, c.prio, online);
    var t3 :- ApplyMode(t2, c.mode);
    ApplyThreads(t3, c.threads)
  }

  /** `GetAffinityTypeFromName` on a table: the first entry of that name. */
  function FindName(t: seq<ThreadsAffinity>, name: string): (r: Option<nat>)
    ensures r.Some? ==> r.value < |t| && t[r.value].name == name
    ensures r.Some? ==> forall j :: 0 <= j < r.value ==> t[j].name != name
    ensures r.None? <==> forall j :: 0 <= j < |t| ==> t[j].name != name
  {
    if |t| == 0 then None
    else if t[0].name == name then Some(0)
    else match FindName(t[1..], name)
      case None => None
      case Some(k) => Some(k + 1)
  }

  /** `AffinitySetupInit`: every entry's CPU set becomes 0 .. ncpu-1. */
  function InitTable(t: seq<ThreadsAffinity>, ncpu: int): (r: seq<ThreadsAffinity>)
    ensures |r| == |t|
    ensures forall i :: 0 <= i < |t| ==> r[i] == t[i].(cpuSet := AllCpus(ncpu))
  {
    seq(|t|, i requires 0 <= i < |t| => t[i].(cpuSet := AllCpus(ncpu)))
  }

  function ApplyNamed(t: seq<ThreadsAffinity>, c: AffinityConf, online: int): Result<seq<ThreadsAffinity>, LoadError> {
    match FindName(t, c.name)
    case None => Err(UnknownAffinityType)
    case Some(i) =>
      var entry :- ApplyConf(t[i], c, online);
      Ok(t[i := entry])
  }

  /** The loader's loop over the configured families, in order. */
  function LoadConfs(t: seq<ThreadsAffinity>, confs: seq<AffinityConf>, online: int): (r: Result<seq<ThreadsAffinity>, LoadError>)
    ensures r.Ok? ==> |r.value| == |t|
    decreases |confs|
  {
    if confs == [] then Ok(t)
    else
      var t' :- LoadConfs(t, confs[..|confs| - 1], online);
      ApplyNamed(t', confs[|confs| - 1], online)
  }

  /** `AffinitySetupLoadFromConfig`: initialise, then load the
      "threading.cpu_affinity" node if there is one. */
  function LoadFromConfigSpec(t: seq<ThreadsAffinity>, root: Option<seq<AffinityConf>>, ncpu: int, online: int): (r: Result<seq<ThreadsAffinity>, LoadError>)
    ensures r.Ok? ==> |r.value| == |t|
  {
    var t0 := InitTable(t, ncpu);
    match root
    case None => Ok(t0)
    case Some(confs) => LoadConfs(t0, confs, online)
  }

  // ---------------------------------------------------------------------
  // The stages of the loader's loop body, on one entry

  /** Clears the CPU set and fills it from the "cpu" list, then clears the
      three priority sets. */
  method LoadCpuList(t: ThreadsAffinity, cpu: Option<seq<string>>, online: int) returns (r: Result<ThreadsAffinity, LoadError>)
    ensures r == ApplyCpu(t, cpu, online)
  {
    var taf := t.(cpuSet := {});
    if cpu.Some? {
      var built := BuildCpuset(cpu.value, online, taf.cpuSet);
      if built.Err? {
        return Err(InvalidCpuRange(built.error));
      }
      taf := taf.(cpuSet := built.value);
    }
    taf := taf.(lowprioCpu := {}, medprioCpu := {}, hiprioCpu := {});
    return Ok(taf);
  }

  /** The "prio" node: the three priority CPU lists, then "default". */
  method LoadPrio(t: ThreadsAffinity, prio: Option<PrioConf>, online: int) returns (r: Result<ThreadsAffinity, LoadError>)
    ensures r == ApplyPrio(t, prio, online)
  {
    var taf := t;
    if prio.None? {
      return Ok(taf);
    }
    var pc := prio.value;
    if pc.low.Some? {
      var built := BuildCpuset(pc.low.value, online, taf.lowprioCpu);
      if built.Err? {
        return Err(InvalidCpuRange(built.error));
      }
      taf := taf.(lowprioCpu := built.value);
    }
    if pc.medium.Some? {
      var built := BuildCpuset(pc.medium.value, online, taf.medprioCpu);
      if built.Err? {
        return Err(InvalidCpuRange(built.error));
      }
      taf := taf.(medprioCpu := built.value);
    }
    if pc.high.Some? {
      var built := BuildCpuset(pc.high.value, online, taf.hiprioCpu);
      if built.Err? {
        return Err(InvalidCpuRange(built.error));
      }
      taf := taf.(hiprioCpu := built.value);
    }
    if pc.defaultPrio.Some? {
      var s := pc.defaultPrio.value;
      if s == "low" {
        taf := taf.(prio := PrioLow);
      } else if s == "medium" {
        taf := taf.(prio := PrioMedium);
      } else if s == "high" {
        taf := taf.(prio := PrioHigh);
      } else {
        return Err(UnknownPrio);
      }
    }
    return Ok(taf);
  }

  /** The "mode" node. */
  method LoadMode(t: ThreadsAffinity, mode: Option<string>) returns (r: Result<ThreadsAffinity, LoadError>)
    ensures r == ApplyMode(t, mode)
  {
    var taf := t;
    if mode.Some? {
      var s := mode.value;
      if s == "exclusive" {
        taf := taf.(modeFlag := ExclusiveAffinity);
      } else if s == "balanced" {
        taf := taf.(modeFlag := BalancedAffinity);
      } else {
        return Err(UnknownMode);
      }
    }
    return Ok(taf);
  }

  /** The "threads" node: the count is stored, then rejected if it is 0. */
  method LoadThreads(t: ThreadsAffinity, threads: Option<string>) returns (r: Result<ThreadsAffinity, LoadError>)
    ensures r == ApplyThreads(t, threads)
  {
    var taf := t;
    if threads.Some? {
      taf := taf.(nbThreads := Atoi(threads.value));
      if taf.nbThreads == 0 {
        return Err(BadThreadsCount);
      }
    }
    return Ok(taf);
  }

  /** The four stages of one family in the loader's order, each stopping at
      its first error. */
  method LoadEntry(t: ThreadsAffinity, c: AffinityConf, online: int) returns (r: Result<ThreadsAffinity, LoadError>)
    ensures r == ApplyConf(t, c, online)
    ensures r.Ok? ==> r.value.name == t.name && r.value.lcpu == t.lcpu
  {
    r := LoadCpuList(t, c.cpu, online);
    if r.Err? {
      return;
    }
    r := LoadPrio(r.value, c.prio, online);
    if r.Err? {
      return;
    }
    r := LoadMode(r.value, c.mode);
    if r.Err? {
      return;
    }
    r := LoadThreads(r.value, c.threads);
  }

  // ---------------------------------------------------------------------
  // The global table, updated in place

  class AffinityTable {
    /** `thread_affinity[MAX_CPU_SET]`. */
    const slots: array<ThreadsAffinity>

    ghost predicate Valid()
      reads this, slots
    {
      && slots.Length == MaxCpuSet
      && forall i :: 0 <= i < MaxCpuSet ==> slots[i].name == AffinityNames[i] && slots[i].lcpu >= 0
    }

    /** The static initialiser of `thread_affinity`. */
    constructor ()
      ensures Valid() && fresh(slots)
      ensures forall i :: 0 <= i < MaxCpuSet ==> slots[i] == DefaultEntry(i)
    {
      slots := new ThreadsAffinity[MaxCpuSet](i requires 0 <= i < MaxCpuSet => DefaultEntry(i));
    }

    /** `GetAffinityTypeFromName`: the index of the entry called `name`, or
        None (NULL) when none of the eight is. */
    method GetAffinityTypeFromName(name: string) returns (r: Option<nat>)
      requires Valid()
      ensures r.Some? ==> r.value < MaxCpuSet && slots[r.value].name == name
      ensures r.None? <==> forall i :: 0 <= i < MaxCpuSet ==> slots[i].name != name
      ensures r == FindName(slots[..], name)
    {
      for i := 0 to MaxCpuSet
        invariant forall j :: 0 <= j < i ==> slots[j].name != name
      {
        if slots[i].name == name {
          return Some(i);
        }
      }
      return None;
    }

    /** `AffinitySetupInit`, with `ncpu` the number of configured processors. */
    method SetupInit(ncpu: int)
      requires Valid()
      modifies slots
      ensures Valid()
      ensures slots[..] == InitTable(old(slots[..]), ncpu)
      ensures forall i :: 0 <= i < MaxCpuSet ==> slots[i].cpuSet == AllCpus(ncpu)
    {
      for i := 0 to MaxCpuSet
        invariant forall k :: 0 <= k < i ==> slots[k] == old(slots[k]).(cpuSet := AllCpus(ncpu))
        invariant forall k :: i <= k < MaxCpuSet ==> slots[k] == old(slots[k])
      {
        slots[i] := slots[i].(cpuSet := {});
        var j := 0;
        while j < ncpu
          invariant 0 <= j <= if ncpu < 0 then 0 else ncpu
          invariant slots[i] == old(slots[i]).(cpuSet := RangeSet(0, j - 1))
          invariant forall k :: 0 <= k < i ==> slots[k] == old(slots[k]).(cpuSet := AllCpus(ncpu))
          invariant forall k :: i < k < MaxCpuSet ==> slots[k] == old(slots[k])
        {
          slots[i] := slots[i].(cpuSet := slots[i].cpuSet + {j});
          j := j + 1;
        }
        assert RangeSet(0, j - 1) == AllCpus(ncpu);
      }
    }

    /** The body of the loader's loop for the entry at `idx`: the fields are
        set stage by stage on a copy of the entry that is stored back at the
        end; on an error path the process exits, so the table is left as it
        was. */
    method ApplyAffinityConf(idx: nat, c: AffinityConf, online: int) returns (err: Option<LoadError>)
      requires Valid() && idx < MaxCpuSet
      modifies slots
      ensures Valid()
      ensures err.None? ==> ApplyConf(old(slots[idx]), c, online) == Ok(slots[idx])
      ensures err.Some? ==> ApplyConf(old(slots[idx]), c, online) == Err(err.value)
      ensures forall i :: 0 <= i < MaxCpuSet && i != idx ==> slots[i] == old(slots[i])
    {
      var r := LoadEntry(slots[idx], c, online);
      if r.Err? {
        return Some(r.error);
      }
      slots[idx] := r.value;
      return None;
    }

    /** `AffinitySetupLoadFromConfig`. `root` is the "threading.cpu_affinity"
        node (None when absent), `ncpu` and `online` the configured and online
        processor counts. A returned error is the `exit(EXIT_FAILURE)`. */
    method LoadFromConfig(root: Option<seq<AffinityConf>>, ncpu: int, online: int) returns (err: Option<LoadError>)
      requires Valid()
      modifies slots
      ensures Valid()
      ensures LoadFromConfigSpec(old(slots[..]), root, ncpu, online) ==
        if err.None? then Ok(slots[..]) else Err(err.value)
    {
      SetupInit(ncpu);
      if root.None? {
        return None;
      }
      var confs := root.value;
      ghost var t0 := slots[..];
      for k := 0 to |confs|
        invariant Valid()
        invariant LoadConfs(t0, confs[..k], online) == Ok(slots[..])
      {
        LoadStep(t0, confs, k, online, slots[..]);
        var idx := GetAffinityTypeFromName(confs[k].name);
        if idx.None? {
          LoadErrorIsFinal(t0, confs[..k + 1], confs[k + 1..], online);
          assert confs[..k + 1] + confs[k + 1..] == confs;
          return Some(UnknownAffinityType);
        }
        ghost var before := slots[..];
        err := ApplyAffinityConf(idx.value, confs[k], online);
        if err.Some? {
          LoadErrorIsFinal(t0, confs[..k + 1], confs[k + 1..], online);
          assert confs[..k + 1] + confs[k + 1..] == confs;
          return err;
        }
        assert slots[..] == before[idx.value := slots[idx.value]];
      }
      assert confs[..|confs|] == confs;
      return None;
    }

    /** The table's eight family names are pairwise distinct, as the load
        lemmas require of the table they start from. */
    lemma NamesDistinct()
      requires Valid()
      ensures DistinctNames(slots[..])
    {
      assert forall i :: 0 <= i < MaxCpuSet ==> slots[..][i].name == AffinityNames[i];
    }

    /** `AffinityGetNextCPU` for the family at `idx`; `online` is the number
        of online processors. */
    method GetNextCpu(idx: nat, online: int) returns (ncpu: int)
      requires Valid() && idx < MaxCpuSet
      requires CanAdvance(slots[idx].cpuSet, slots[idx].lcpu, online)
      modifies slots
      ensures Valid()
      ensures ncpu == NextCpu(old(slots[idx].cpuSet), old(slots[idx].lcpu), online)
      ensures slots[idx] == old(slots[idx]).(lcpu := Advance(ncpu, online))
      ensures forall i :: 0 <= i < MaxCpuSet && i != idx ==> slots[i] == old(slots[i])
    {
      ghost var s, start := slots[idx].cpuSet, slots[idx].lcpu;
      ghost var bound := Max(online, start + 1);
      ghost var w := if start in s then start
        else assert Members(s, 0, Max(online, 1))[0] in s; FirstFrom(s, 0, Max(online, 1)).value;
      ghost var wrapped := false;
      ncpu := slots[idx].lcpu;
      while ncpu !in slots[idx].cpuSet
        invariant !wrapped ==> start <= ncpu < bound && forall y :: start <= y < ncpu ==> y !in s
        invariant wrapped ==> start !in s && (forall y :: start < y < online ==> y !in s)
        invariant wrapped ==> 0 <= ncpu <= w && forall y :: 0 <= y < ncpu ==> y !in s
        decreases if wrapped then 0 else 1, if wrapped then w - ncpu else bound - ncpu
      {
        ncpu := ncpu + 1;
        if ncpu >= online {
          ncpu := 0;
          wrapped := true;
        }
      }
      slots[idx] := slots[idx].(lcpu := ncpu + 1);
      if slots[idx].lcpu >= online {
        slots[idx] := slots[idx].(lcpu := 0);
      }
    }
  }

  /** One more family loaded onto the table built from the ones before it. */
  lemma LoadStep(t: seq<ThreadsAffinity>, confs: seq<AffinityConf>, k: nat, online: int, cur: seq<ThreadsAffinity>)
    requires k < |confs| && LoadConfs(t, confs[..k], online) == Ok(cur)
    ensures LoadConfs(t, confs[..k + 1], online) == ApplyNamed(cur, confs[k], online)
  {
    assert confs[..k + 1][..k] == confs[..k];
  }

  /** Once a family fails to load, later ones cannot undo it. */
  lemma {:induction false} LoadErrorIsFinal(t: seq<ThreadsAffinity>, confs: seq<AffinityConf>, more: seq<AffinityConf>, online: int)
    requires LoadConfs(t, confs, online).Err?
    ensures LoadConfs(t, confs + more, online) == LoadConfs(t, confs, online)
    decreases |more|
  {
    if more != [] {
      var last := |more| - 1;
      var all := confs + more;
      assert all[..|all| - 1] == confs + more[..last];
      LoadErrorIsFinal(t, confs, more[..last], online);
      assert LoadConfs(t, all[..|all| - 1], online).Err?;
    } else {
      assert confs + more == confs;
    }
  }

  // ---------------------------------------------------------------------
  // Properties of the loader

  /** The priority and mode names round-trip through their parsers. */
  lemma NamesRoundTrip(p: Prio, m: AffinityMode)
    ensures ParsePrio(PrioName(p)) == Ok(p)
    ensures ParseMode(ModeName(m)) == Ok(m)
  {
  }

  /** A thread count written in decimal is read back, except 0 which is an
      error; text `atoi` reads as 0 is an error too. */
  lemma ThreadsCount(n: nat, junk: string)
    requires forall i :: 0 <= i < |junk| ==> !IsDigit(junk[i])
    ensures n != 0 ==> ParseThreads(Decimal(n)) == Ok(n)
    ensures ParseThreads(Decimal(0)) == Err(BadThreadsCount)
    ensures ParseThreads(junk) == Err(BadThreadsCount)
  {
    AtoiDecimal(n);
    AtoiDecimal(0);
    StrToLNoDigits(junk);
  }

  /** The list is absent or `build_cpuset` accepts all of it. */
  predicate ListAccepted(list: Option<seq<string>>, online: int) {
    list.None? || CpusetSpec(list.value, online, {}).Ok?
  }

  /** The set `build_cpuset` leaves in a cleared CPU set (empty when the list
      is absent). */
  function ListedSet(list: Option<seq<string>>, online: int): set<int>
    requires ListAccepted(list, online)
  {
    if list.None? then {} else CpusetSpec(list.value, online, {}).value
  }

  /** A family's configuration is accepted exactly when every CPU list parses,
      the default priority is low, medium or high, the mode is exclusive or
      balanced, and the thread count is not read as 0. */
  lemma {:induction false} ApplyConfAccepts(t: ThreadsAffinity, c: AffinityConf, online: int)
    ensures ApplyConf(t, c, online).Ok? <==>
      && ListAccepted(c.cpu, online)
      && (c.prio.Some? ==>
            && ListAccepted(c.prio.value.low, online)
            && ListAccepted(c.prio.value.medium, online)
            && ListAccepted(c.prio.value.high, online)
            && (c.prio.value.defaultPrio.Some? ==> c.prio.value.defaultPrio.value in ["low", "medium", "high"]))
      && (c.mode.Some? ==> c.mode.value in ["exclusive", "balanced"])
      && (c.threads.Some? ==> Atoi(c.threads.value) != 0)
  {
    if c.cpu.Some? {
      CpusetIsUnion(c.cpu.value, online, {});
    }
    if c.prio.Some? {
      var pc := c.prio.value;
      if pc.low.Some? { CpusetIsUnion(pc.low.value, online, {}); }
      if pc.medium.Some? { CpusetIsUnion(pc.medium.value, online, {}); }
      if pc.high.Some? { CpusetIsUnion(pc.high.value, online, {}); }
    }
  }

  /** What an accepted family's entry holds: its CPU set and the three
      priority sets are exactly the listed CPUs (empty when a list is absent,
      even though the entry started with every configured CPU), the priority,
      mode and thread count are the configured ones or are kept, and the name
      and cursor are untouched. */
  lemma {:induction false} ApplyConfResult(t: ThreadsAffinity, c: AffinityConf, online: int)
    requires ApplyConf(t, c, online).Ok?
    ensures var r := ApplyConf(t, c, online).value;
      && ListAccepted(c.cpu, online) && r.cpuSet == ListedSet(c.cpu, online)
      && (c.prio.None? ==> r.lowprioCpu == {} && r.medprioCpu == {} && r.hiprioCpu == {} && r.prio == t.prio)
      && (c.prio.Some? ==>
            && ListAccepted(c.prio.value.low, online) && r.lowprioCpu == ListedSet(c.prio.value.low, online)
            && ListAccepted(c.prio.value.medium, online) && r.medprioCpu == ListedSet(c.prio.value.medium, online)
            && ListAccepted(c.prio.value.high, online) && r.hiprioCpu == ListedSet(c.prio.value.high, online)
            && r.prio == (match c.prio.value.defaultPrio
                          case None => t.prio
                          case Some(s) => ParsePrio(s).value))
      && r.modeFlag == (if c.mode.Some? then ParseMode(c.mode.value).value else t.modeFlag)
      && r.nbThreads == (if c.threads.Some? then Atoi(c.threads.value) else t.nbThreads)
      && r.name == t.name && r.lcpu == t.lcpu
  {
    ApplyConfAccepts(t, c, online);
  }

  /** Loading keeps the table's shape, every entry's name and its cursor. */
  lemma {:induction false} LoadKeepsNames(t: seq<ThreadsAffinity>, confs: seq<AffinityConf>, online: int)
    requires LoadConfs(t, confs, online).Ok?
    ensures var r := LoadConfs(t, confs, online).value;
      |r| == |t| && forall i :: 0 <= i < |t| ==> r[i].name == t[i].name && r[i].lcpu == t[i].lcpu
    decreases |confs|
  {
    if confs != [] {
      var prefix := confs[..|confs| - 1];
      LoadKeepsNames(t, prefix, online);
      var mid := LoadConfs(t, prefix, online).value;
      var c := confs[|confs| - 1];
      var i := FindName(mid, c.name).value;
      ApplyConfResult(mid[i], c, online);
    }
  }

  /** A configuration that names a family missing from the table is rejected. */
  lemma {:induction false} LoadRejectsUnknownName(t: seq<ThreadsAffinity>, confs: seq<AffinityConf>, online: int)
    requires LoadConfs(t, confs, online).Ok?
    ensures forall k :: 0 <= k < |confs| ==> exists i :: 0 <= i < |t| && t[i].name == confs[k].name
    decreases |confs|
  {
    if confs != [] {
      var prefix := confs[..|confs| - 1];
      LoadRejectsUnknownName(t, prefix, online);
      LoadKeepsNames(t, prefix, online);
      var mid := LoadConfs(t, prefix, online).value;
      var c := confs[|confs| - 1];
      var i := FindName(mid, c.name).value;
      assert t[i].name == c.name;
      forall k | 0 <= k < |confs| ensures exists i :: 0 <= i < |t| && t[i].name == confs[k].name {
        if k < |confs| - 1 {
          assert confs[k] == prefix[k];
        }
      }
    }
  }

  predicate DistinctNames(t: seq<ThreadsAffinity>) {
    forall a, b :: 0 <= a < b < |t| ==> t[a].name != t[b].name
  }

  /** An entry that no configured family names is left as it was. */
  lemma {:induction false} UnnamedEntryKept(t: seq<ThreadsAffinity>, confs: seq<AffinityConf>, online: int, i: nat)
    requires DistinctNames(t) && i < |t|
    requires LoadConfs(t, confs, online).Ok?
    requires forall k :: 0 <= k < |confs| ==> confs[k].name != t[i].name
    ensures LoadConfs(t, confs, online).value[i] == t[i]
    decreases |confs|
  {
    if confs != [] {
      var last := |confs| - 1;
      var prefix := confs[..last];
      assert forall k :: 0 <= k < last ==> prefix[k] == confs[k];
      UnnamedEntryKept(t, prefix, online, i);
      LoadKeepsNames(t, prefix, online);
      var mid := LoadConfs(t, prefix, online).value;
      var j := FindName(mid, confs[last].name).value;
      assert j != i;
    }
  }

  /** The last family loaded replaces the entry of that name. */
  lemma LoadLast(t: seq<ThreadsAffinity>, confs: seq<AffinityConf>, online: int)
    requires confs != [] && LoadConfs(t, confs, online).Ok?
    ensures var c := confs[|confs| - 1];
      var mid := LoadConfs(t, confs[..|confs| - 1], online);
      && mid.Ok?
      && FindName(mid.value, c.name).Some?
      && var j := FindName(mid.value, c.name).value;
      && ApplyConf(mid.value[j], c, online).Ok?
      && LoadConfs(t, confs, online).value == mid.value[j := ApplyConf(mid.value[j], c, online).value]
  {
  }

  /** An entry that is named gets the CPU set its last naming family lists,
      whatever it held before. */
  lemma {:induction false} LastNamingDecidesCpuSet(t: seq<ThreadsAffinity>, confs: seq<AffinityConf>, online: int, i: nat, k: nat)
    requires DistinctNames(t) && i < |t|
    requires LoadConfs(t, confs, online).Ok?
    requires k < |confs| && confs[k].name == t[i].name
    requires forall k' :: k < k' < |confs| ==> confs[k'].name != t[i].name
    ensures ListAccepted(confs[k].cpu, online)
    ensures LoadConfs(t, confs, online).value[i].cpuSet == ListedSet(confs[k].cpu, online)
    decreases |confs|
  {
    var last := |confs| - 1;
    if k < last {
      var prefix := confs[..last];
      LoadLast(t, confs, online);
      LoadKeepsNames(t, prefix, online);
      var mid := LoadConfs(t, prefix, online).value;
      var c := confs[last];
      var j := FindName(mid, c.name).value;
      assert prefix[k] == confs[k];
      assert forall k' :: k < k' < last ==> prefix[k'] == confs[k'];
      LastNamingDecidesCpuSet(t, prefix, online, i, k);
      assert mid[j].name == c.name != t[i].name;
    } else {
      LastConfDecides(t, confs, online, i);
    }
  }

  /** When the last family of the configuration names entry `i`, that
      family's CPU list is the entry's CPU set. */
  lemma LastConfDecides(t: seq<ThreadsAffinity>, confs: seq<AffinityConf>, online: int, i: nat)
    requires DistinctNames(t) && i < |t|
    requires LoadConfs(t, confs, online).Ok?
    requires confs != [] && confs[|confs| - 1].name == t[i].name
    ensures ListAccepted(confs[|confs| - 1].cpu, online)
    ensures LoadConfs(t, confs, online).value[i].cpuSet == ListedSet(confs[|confs| - 1].cpu, online)
  {
    var last := |confs| - 1;
    var prefix := confs[..last];
    LoadLast(t, confs, online);
    LoadKeepsNames(t, prefix, online);
    var mid := LoadConfs(t, prefix, online).value;
    var c := confs[last];
    assert mid[i].name == c.name;
    assert FindName(mid, c.name).value == i;
    ApplyConfResult(mid[i], c, online);
  }

  /** After `AffinitySetupLoadFromConfig` succeeds, a family the
      configuration does not mention still runs on every configured CPU. */
  lemma {:induction false} UnmentionedFamilyUsesAllCpus(t: seq<ThreadsAffinity>, root: Option<seq<AffinityConf>>, ncpu: int, online: int, i: nat)
    requires DistinctNames(t) && i < |t|
    requires LoadFromConfigSpec(t, root, ncpu, online).Ok?
    requires root.Some? ==> forall k :: 0 <= k < |root.value| ==> root.value[k].name != t[i].name
    ensures LoadFromConfigSpec(t, root, ncpu, online).value[i].cpuSet == AllCpus(ncpu)
  {
    var t0 := InitTable(t, ncpu);
    if root.Some? {
      assert DistinctNames(t0);
      UnnamedEntryKept(t0, root.value, online, i);
    }
  }

  /** After `AffinitySetupLoadFromConfig` succeeds, a family the
      configuration mentions runs exactly on the CPUs its last mention lists:
      a mention without a "cpu" list leaves it with no CPU at all. */
  lemma MentionedFamilyUsesListedCpus(t: seq<ThreadsAffinity>, confs: seq<AffinityConf>, ncpu: int, online: int, i: nat, k: nat)
    requires DistinctNames(t) && i < |t|
    requires LoadFromConfigSpec(t, Some(confs), ncpu, online).Ok?
    requires k < |confs| && confs[k].name == t[i].name
    requires forall k' :: k < k' < |confs| ==> confs[k'].name != t[i].name
    ensures ListAccepted(confs[k].cpu, online)
    ensures LoadFromConfigSpec(t, Some(confs), ncpu, online).value[i].cpuSet == ListedSet(confs[k].cpu, online)
    ensures confs[k].cpu.None? ==> LoadFromConfigSpec(t, Some(confs), ncpu, online).value[i].cpuSet == {}
  {
    var t0 := InitTable(t, ncpu);
    assert DistinctNames(t0);
    LastNamingDecidesCpuSet(t0, confs, online, i, k);
  }
}
