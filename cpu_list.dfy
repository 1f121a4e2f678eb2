/** The CPU list syntax of the affinity configuration (`build_cpuset` in
    src/util-affinity.c): every list entry is "all", a range "a-b" or a
    single CPU number, and the CPUs it names are added to a CPU set. */
module CpuList {
  import opened Results
  import opened CString

  /** The four diagnostics `build_cpuset` logs before `exit(EXIT_FAILURE)`. */
  datatype CpuRangeError =
    | StartInvalid   // "invalid cpu range (start invalid)"
    | EndInvalid     // "invalid cpu range (end invalid)"
    | BadOrder       // "invalid cpu range (bad order)"
    | NotAnInteger   // "invalid cpu range (not an integer)"

  /** The bounds `a` and `b` one entry sets, and whether it is "all", after
      which the rest of the list is skipped. */
  datatype CpuRange = CpuRange(first: int, last: int, stop: bool)

  /** The CPUs `for (i = a; i <= b; i++) CPU_SET(i, cpu)` sets. */
  function RangeSet(first: int, last: int): (r: set<int>)
    ensures forall x :: x in r <==> first <= x <= last
    decreases last - first
  {
    if first > last then {} else {first} + RangeSet(first + 1, last)
  }

  /** The CPUs 0 .. n-1. */
  function AllCpus(n: int): set<int> {
    RangeSet(0, n - 1)
  }

  /** How one list entry is read; `online` is the number of online
      processors, which "all" covers. */
  function ParseEntry(s: string, online: int): (r: Result<CpuRange, CpuRangeError>)
    ensures r.Ok? && !r.value.stop ==> 0 <= r.value.first <= r.value.last
    ensures r.Ok? && r.value.stop <==> s == "all"
  {
    if s == "all" then
      Ok(CpuRange(0, online - 1, true))
    else match Index(s, '-')
      case Some(sep) =>
        var a := StrToL(s);
        if a.end != sep then
          Err(StartInvalid)
        else
          var b := StrToL(s[sep + 1..]);
          if sep + 1 + b.end != |s| then Err(EndInvalid)
          else if a.value > b.value then Err(BadOrder)
          else
            assert 0 <= a.value by { StartIsNotNegative(s, sep); }
            Ok(CpuRange(a.value, b.value, false))
      case None =>
        var a := StrToL(s);
        if a.end != |s| then
          Err(NotAnInteger)
        else
          assert 0 <= a.value by { NoDashNotNegative(s); }
          Ok(CpuRange(a.value, a.value, false))
  }

  /** A conversion that ends exactly at the first '-' cannot have read a
      minus sign with digits after it. */
  lemma StartIsNotNegative(s: string, sep: nat)
    requires Index(s, '-') == Some(sep)
    requires StrToL(s).end == sep
    ensures StrToL(s).value >= 0
  {
  }

  lemma NoDashNotNegative(s: string)
    requires '-' !in s
    ensures StrToL(s).value >= 0
  {
  }

  /** The CPU set `build_cpuset(node, cpu)` leaves, starting from `cpu`, for
      the entries of `node` in order, or the error that ends the process. */
  function CpusetSpec(entries: seq<string>, online: int, cpu: set<int>): Result<set<int>, CpuRangeError>
  {
    if entries == [] then Ok(cpu)
    else match ParseEntry(entries[0], online)
      case Err(e) => Err(e)
      case Ok(rg) =>
        var cpu' := cpu + RangeSet(rg.first, rg.last);
        if rg.stop then Ok(cpu') else CpusetSpec(entries[1..], online, cpu')
  }

  /** `build_cpuset`: walks the list, parses every entry and sets its CPUs one
      by one. The C function writes into `*cpu`; here the set comes in and the
      new set (or the error) goes out. */
  method BuildCpuset(entries: seq<string>, online: int, cpu: set<int>) returns (r: Result<set<int>, CpuRangeError>)
    ensures r == CpusetSpec(entries, online, cpu)
  {
    var acc := cpu;
    var k := 0;
    while k < |entries|
      invariant 0 <= k <= |entries|
      invariant CpusetSpec(entries[k..], online, acc) == CpusetSpec(entries, online, cpu)
    {
      var parsed := ParseEntry(entries[k], online);
      CpusetStep(entries, k, online, acc);
      if parsed.Err? {
        return Err(parsed.error);
      }
      acc := SetRange(acc, parsed.value.first, parsed.value.last);
      if parsed.value.stop {
        return Ok(acc);
      }
      k := k + 1;
    }
    assert entries[k..] == [];
    return Ok(acc);
  }

  /** The `CPU_SET` loop over one range: sets `first` .. `last` in `acc`. */
  method SetRange(acc: set<int>, first: int, last: int) returns (r: set<int>)
    ensures r == acc + RangeSet(first, last)
  {
    r := acc;
    var i := first;
    while i <= last
      invariant first <= i <= (if first <= last then last + 1 else first)
      invariant r == acc + RangeSet(first, i - 1)
    {
      r := r + {i};
      i := i + 1;
    }
  }

  /** One entry of the list specification, read from position `k`. */
  lemma CpusetStep(entries: seq<string>, k: nat, online: int, acc: set<int>)
    requires k < |entries|
    ensures ParseEntry(entries[k], online).Err? ==>
      CpusetSpec(entries[k..], online, acc) == Err(ParseEntry(entries[k], online).error)
    ensures ParseEntry(entries[k], online).Ok? ==>
      var rg := ParseEntry(entries[k], online).value;
      var acc' := acc + RangeSet(rg.first, rg.last);
      CpusetSpec(entries[k..], online, acc) ==
        if rg.stop then Ok(acc') else CpusetSpec(entries[k + 1..], online, acc')
  {
    assert entries[k..][0] == entries[k];
    assert entries[k..][1..] == entries[k + 1..];
  }


  // ---------------------------------------------------------------------
  // Properties of a single entry

  /** A plain CPU number names exactly that CPU. */
  lemma SingleCpuEntry(n: nat, online: int)
    ensures ParseEntry(Decimal(n), online) == Ok(CpuRange(n, n, false))
  {
    var s := Decimal(n);
    assert s[0] != 'a';
    assert '-' !in s by { assert forall i :: 0 <= i < |s| ==> IsDigit(s[i]); }
    StrToLDecimal(n, []);
    assert s + [] == s;
  }

  /** "a-b" names the CPUs a .. b when a <= b and is rejected otherwise. */
  lemma RangeEntry(a: nat, b: nat, online: int)
    ensures ParseEntry(Decimal(a) + "-" + Decimal(b), online) ==
      if a <= b then Ok(CpuRange(a, b, false)) else Err(BadOrder)
  {
    var da, db := Decimal(a), Decimal(b);
    assert '-' !in da by { assert forall i :: 0 <= i < |da| ==> IsDigit(da[i]); }
    StrToLDecimal(a, "-" + db);
    AtoiDecimal(b);
    RangeOf(da, db, a, b, online);
  }

  /** "p-q" where p converts up to the '-' and q converts completely. */
  lemma RangeOf(p: string, q: string, a: int, b: int, online: int)
    requires p != [] && p[0] != 'a' && '-' !in p
    requires StrToL(p + ("-" + q)) == Conversion(a, |p|)
    requires StrToL(q) == Conversion(b, |q|)
    ensures ParseEntry(p + "-" + q, online) ==
      if a <= b then Ok(CpuRange(a, b, false)) else Err(BadOrder)
  {
    var s := p + "-" + q;
    assert s == p + ("-" + q);
    assert s != "all" by { assert s[0] != 'a'; }
    FirstDashAfter(p, q);
    assert s[|p| + 1..] == q;
    RangeEntryErrors(s, |p|, online);
  }

  lemma FirstDashAfter(p: string, q: string)
    requires '-' !in p
    ensures Index(p + "-" + q, '-') == Some(|p|)
  {
    var s := p + "-" + q;
    assert s[|p|] == '-';
  }

  /** An entry that is neither "all" nor contains '-' is rejected exactly when
      `strtoul` does not consume all of it. */
  lemma NotFullyConsumedIsError(s: string, online: int)
    requires s != "all" && '-' !in s
    ensures ParseEntry(s, online).Err? <==> StrToL(s).end != |s|
    ensures ParseEntry(s, online).Err? ==> ParseEntry(s, online).error == NotAnInteger
  {
  }

  /** In "a-b" the start must end exactly at the first '-', the end must
      run to the end of the entry, and the start must not exceed the end. */
  lemma RangeEntryErrors(s: string, sep: nat, online: int)
    requires s != "all" && Index(s, '-') == Some(sep)
    ensures StrToL(s).end != sep ==> ParseEntry(s, online) == Err(StartInvalid)
    ensures StrToL(s).end == sep && sep + 1 + StrToL(s[sep + 1..]).end != |s| ==>
      ParseEntry(s, online) == Err(EndInvalid)
    ensures StrToL(s).end == sep && sep + 1 + StrToL(s[sep + 1..]).end == |s| ==>
      ParseEntry(s, online) ==
        if StrToL(s).value > StrToL(s[sep + 1..]).value then Err(BadOrder)
        else Ok(CpuRange(StrToL(s).value, StrToL(s[sep + 1..]).value, false))
  {
  }

  /** The empty entry is CPU 0: nothing is converted and the end check
      compares the start of the string with its end. */
  lemma EmptyEntryIsCpuZero(online: int)
    ensures ParseEntry("", online) == Ok(CpuRange(0, 0, false))
  {
    StrToLNoDigits("");
  }

  /** "0-" is the range 0 .. 0: the empty end converts to 0. */
  lemma OpenRangeIsCpuZero(online: int)
    ensures ParseEntry("0-", online) == Ok(CpuRange(0, 0, false))
  {
    assert Decimal(0) == "0";
    StrToLDecimal(0, "-");
    assert "0-"[2..] == "";
    StrToLNoDigits("");
  }

  /** A lone "-" is CPU 0 as well. */
  lemma LoneDashIsCpuZero(online: int)
    ensures ParseEntry("-", online) == Ok(CpuRange(0, 0, false))
  {
    StrToLNoDigits("-");
    assert "-"[1..] == "";
    StrToLNoDigits("");
  }

  /** "5 " is rejected: `strtoul` stops before the blank. */
  lemma TrailingBlankIsError(online: int)
    ensures ParseEntry("5 ", online) == Err(NotAnInteger)
  {
    assert Decimal(5) == "5";
    StrToLDecimal(5, " ");
  }

  // ---------------------------------------------------------------------
  // Properties of a whole list

  /** `build_cpuset` only ever adds CPUs: what was set stays set, and a CPU is
      set afterwards exactly when it was set before or lies in the range of an
      entry up to and including the first "all". */
  lemma {:induction false} CpusetMembers(entries: seq<string>, online: int, cpu: set<int>, x: int)
    requires CpusetSpec(entries, online, cpu).Ok?
    ensures cpu <= CpusetSpec(entries, online, cpu).value
    ensures x in CpusetSpec(entries, online, cpu).value <==>
      x in cpu || exists i :: 0 <= i < |entries| && Listed(entries, online, i, x)
  {
    if entries != [] {
      var rg := ParseEntry(entries[0], online).value;
      var cpu' := cpu + RangeSet(rg.first, rg.last);
      assert Listed(entries, online, 0, x) <==> x in RangeSet(rg.first, rg.last);
      if rg.stop {
        forall i | 0 < i < |entries| ensures !Listed(entries, online, i, x) {
          assert ParseEntry(entries[0], online).value.stop;
        }
      } else {
        CpusetMembers(entries[1..], online, cpu', x);
        forall i | 0 < i < |entries|
          ensures Listed(entries, online, i, x) <==> Listed(entries[1..], online, i - 1, x)
        {
          assert entries[1..][i - 1] == entries[i];
          assert forall j :: 0 < j < i ==> entries[1..][j - 1] == entries[j];
        }
        if x in CpusetSpec(entries, online, cpu).value && x !in cpu && !Listed(entries, online, 0, x) {
          var i :| 0 <= i < |entries[1..]| && Listed(entries[1..], online, i, x);
          assert Listed(entries, online, i + 1, x);
        }
      }
    }
  }

  /** Entry `i` is read (no "all" before it), parses, and its range holds `x`. */
  ghost predicate Listed(entries: seq<string>, online: int, i: nat, x: int)
    requires i < |entries|
  {
    && (forall j :: 0 <= j < i ==> ParseEntry(entries[j], online).Ok? && !ParseEntry(entries[j], online).value.stop)
    && ParseEntry(entries[i], online).Ok?
    && ParseEntry(entries[i], online).value.first <= x <= ParseEntry(entries[i], online).value.last
  }

  /** Since the loader clears the set before calling `build_cpuset`, the set
      is the union of the listed ranges: starting from any set `cpu` gives
      `cpu` plus what starting from the empty set gives. */
  lemma {:induction false} CpusetIsUnion(entries: seq<string>, online: int, cpu: set<int>)
    ensures CpusetSpec(entries, online, cpu).Ok? <==> CpusetSpec(entries, online, {}).Ok?
    ensures CpusetSpec(entries, online, cpu).Ok? ==>
      CpusetSpec(entries, online, cpu).value == cpu + CpusetSpec(entries, online, {}).value
    ensures CpusetSpec(entries, online, cpu).Err? ==>
      CpusetSpec(entries, online, cpu) == CpusetSpec(entries, online, {})
  {
    if entries != [] && ParseEntry(entries[0], online).Ok? {
      var rg := ParseEntry(entries[0], online).value;
      var r := RangeSet(rg.first, rg.last);
      if !rg.stop {
        CpusetIsUnion(entries[1..], online, cpu + r);
        CpusetIsUnion(entries[1..], online, {} + r);
        CpusetIsUnion(entries[1..], online, {});
      }
    }
  }

  /** "all" sets CPUs 0 .. online-1 and ends the walk: whatever follows it,
      even malformed entries, is never looked at. */
  lemma {:induction false} AllStopsTheList(before: seq<string>, rest: seq<string>, online: int, cpu: set<int>)
    ensures CpusetSpec(before + ["all"] + rest, online, cpu) == CpusetSpec(before + ["all"], online, cpu)
    ensures CpusetSpec(before + ["all"], online, cpu).Ok? ==>
      AllCpus(online) <= CpusetSpec(before + ["all"], online, cpu).value
  {
    if before == [] {
      assert (before + ["all"] + rest)[0] == "all";
      assert (before + ["all"])[0] == "all";
    } else {
      var rg := ParseEntry(before[0], online);
      assert (before + ["all"] + rest)[0] == before[0] && (before + ["all"])[0] == before[0];
      assert (before + ["all"] + rest)[1..] == before[1..] + ["all"] + rest;
      assert (before + ["all"])[1..] == before[1..] + ["all"];
      if rg.Ok? && !rg.value.stop {
        AllStopsTheList(before[1..], rest, online, cpu + RangeSet(rg.value.first, rg.value.last));
        CpusetIsUnion(before[1..] + ["all"], online, cpu + RangeSet(rg.value.first, rg.value.last));
        CpusetIsUnion(before[1..] + ["all"], online, {});
      } else if rg.Ok? {
        assert before[0] == "all";
      }
    }
  }
}
