/** Provider ceilings on model servers: budgets as command-line flags and quantities, and their check. */
module Ceilings {
  import opened Calls

  // ---------------------------------------------------------------------------------------------
  // Decimal numbers
  // ---------------------------------------------------------------------------------------------

  const MIN_INT64 := -0x8000_0000_0000_0000
  const MAX_INT64 := 0x7fff_ffff_ffff_ffff

  predicate IsInt32(v: int) {
    -0x8000_0000 <= v < 0x8000_0000
  }

  predicate IsDigit(c: char) {
    '0' <= c <= '9'
  }

  function Digits(n: nat): (r: string)
    ensures r != "" && forall i :: 0 <= i < |r| ==> IsDigit(r[i])
  {
    if n < 10 then [(n + '0' as int) as char] else Digits(n / 10) + [(n % 10 + '0' as int) as char]
  }

  /** fmt.Sprint of an integer. */
  function Format(v: int): string {
    if v < 0 then "-" + Digits(-v) else Digits(v)
  }

  function ParseDigits(s: string): Option<nat> {
    if s == "" then None
    else if !IsDigit(s[|s| - 1]) then None
    else
      var last := s[|s| - 1] as int - '0' as int;
      if |s| == 1 then Some(last)
      else match ParseDigits(s[..|s| - 1])
        case None => None
        case Some(n) => Some(10 * n + last)
  }

  function InRange(v: int): Option<int> {
    if MIN_INT64 <= v <= MAX_INT64 then Some(v) else None
  }

  /** strconv.Atoi: an optional sign and decimal digits, within 64 bits. */
  function Atoi(s: string): Option<int> {
    if s == "" then None
    else
      var signed := s[0] == '-' || s[0] == '+';
      match ParseDigits(if signed then s[1..] else s)
      case None => None
      case Some(n) => InRange(if s[0] == '-' then -(n as int) else n as int)
  }

  lemma {:induction false} ParseFormatted(n: nat)
    ensures ParseDigits(Digits(n)) == Some(n)
  {
    if n >= 10 {
      ParseFormatted(n / 10);
      var s := Digits(n);
      assert s[..|s| - 1] == Digits(n / 10);
    }
  }

  lemma AtoiFormat(v: int)
    requires IsInt32(v)
    ensures Atoi(Format(v)) == Some(v)
  {
    if v < 0 {
      ParseFormatted(-v);
      assert Format(v)[1..] == Digits(-v);
    } else {
      ParseFormatted(v);
      assert IsDigit(Format(v)[0]);
    }
  }

  // ---------------------------------------------------------------------------------------------
  // Flags
  // ---------------------------------------------------------------------------------------------

  /** The flag stands at `i` with an argument after it. */
  predicate FlagAt(args: seq<string>, flag: string, i: nat) {
    i + 1 < |args| && args[i] == flag
  }

  /** serverIntFlag from position `i` on: the first occurrence with a number after it. */
  function ReadFlag(args: seq<string>, name: string, fallback: int, i: nat): int
    decreases |args| - i
  {
    if i + 1 >= |args| then fallback
    else if args[i] == name && Atoi(args[i + 1]).Some? then Atoi(args[i + 1]).value
    else ReadFlag(args, name, fallback, i + 1)
  }

  method ServerIntFlag(args: seq<string>, name: string, fallback: int) returns (value: int)
    ensures value == ReadFlag(args, name, fallback, 0)
  {
    var i := 0;
    while i + 1 < |args|
      invariant ReadFlag(args, name, fallback, i) == ReadFlag(args, name, fallback, 0)
    {
      if args[i] == name {
        var parsed := Atoi(args[i + 1]);
        if parsed.Some? {
          return parsed.value;
        }
      }
      i := i + 1;
    }
    return fallback;
  }

  /** The value is set after the first occurrence, or the flag is added at the end. */
  ghost predicate IsSet(args: seq<string>, flag: string, text: string, result: seq<string>) {
    || (exists i: nat :: && FlagAt(args, flag, i) && (forall j: nat :: j < i ==> !FlagAt(args, flag, j))
                         && result == args[i + 1 := text])
    || ((forall j: nat :: !FlagAt(args, flag, j)) && result == args + [flag, text])
  }

  method SetServerIntFlag(args: seq<string>, flag: string, value: int) returns (result: seq<string>)
    ensures IsSet(args, flag, Format(value), result)
  {
    result := args;
    var i := 0;
    while i + 1 < |result|
      invariant i <= |args| && result == args
      invariant forall j: nat :: j < i ==> !FlagAt(args, flag, j)
    {
      if result[i] == flag {
        result := result[i + 1 := Format(value)];
        assert FlagAt(args, flag, i);
        return;
      }
      i := i + 1;
    }
    return result + [flag, Format(value)];
  }

  lemma {:induction false} SkipTo(args: seq<string>, name: string, fallback: int, i: nat, k: nat)
    requires i <= k <= |args| && forall j: nat :: i <= j < k && j + 1 < |args| && args[j] == name ==> Atoi(args[j + 1]).None?
    ensures ReadFlag(args, name, fallback, i) == ReadFlag(args, name, fallback, k)
    decreases k - i
  {
    if i < k {
      SkipTo(args, name, fallback, i + 1, k);
    }
  }

  /** What was set is what is read, whatever the other arguments. */
  lemma ReadBack(args: seq<string>, flag: string, value: int, result: seq<string>, fallback: int)
    requires IsSet(args, flag, Format(value), result) && IsInt32(value) && Atoi(flag).None?
    ensures ReadFlag(result, flag, fallback, 0) == value
  {
    AtoiFormat(value);
    if i: nat :| FlagAt(args, flag, i) && (forall j: nat :: j < i ==> !FlagAt(args, flag, j)) && result == args[i + 1 := Format(value)] {
      forall j: nat | j < i
        ensures result[j] != flag
      {
        assert !FlagAt(args, flag, j);
      }
      SkipTo(result, flag, fallback, 0, i);
    } else {
      forall j: nat | 0 <= j < |args| && j + 1 < |result| && result[j] == flag
        ensures Atoi(result[j + 1]).None?
      {
        assert !FlagAt(args, flag, j);
      }
      SkipTo(result, flag, fallback, 0, |args|);
    }
  }

  /** No argument that setting `flag` would overwrite is the other flag itself. */
  ghost predicate Separate(args: seq<string>, flag: string, other: string) {
    forall i: nat :: FlagAt(args, flag, i) ==> args[i + 1] != other
  }

  lemma {:induction false} ReadSame(args: seq<string>, result: seq<string>, name: string, fallback: int, i: nat)
    requires |args| <= |result| <= |args| + 2 && i <= |args|
    requires forall j: nat :: j + 1 < |result| && result[j] == name && Atoi(result[j + 1]).Some? ==> FlagAt(args, name, j) && args[j + 1] == result[j + 1]
    requires forall j: nat :: FlagAt(args, name, j) && Atoi(args[j + 1]).Some? ==> result[j] == name && result[j + 1] == args[j + 1]
    ensures ReadFlag(result, name, fallback, i) == ReadFlag(args, name, fallback, i)
    decreases |args| - i
  {
    if i + 1 < |args| {
      assert FlagAt(args, name, i) <==> args[i] == name;
      assert result[i] == name && Atoi(result[i + 1]).Some? <==> args[i] == name && Atoi(args[i + 1]).Some?;
      ReadSame(args, result, name, fallback, i + 1);
    } else {
      SkipTo(result, name, fallback, i, |result|);
    }
  }

  /** Setting one flag leaves what is read for another as it was. */
  lemma ReadOther(args: seq<string>, flag: string, value: int, result: seq<string>, other: string, fallback: int)
    requires IsSet(args, flag, Format(value), result) && IsInt32(value) && flag != other
    requires Atoi(flag).None? && Atoi(other).None? && Separate(args, flag, other)
    ensures ReadFlag(result, other, fallback, 0) == ReadFlag(args, other, fallback, 0)
  {
    AtoiFormat(value);
    assert Format(value) != other;
    if i: nat :| FlagAt(args, flag, i) && (forall j: nat :: j < i ==> !FlagAt(args, flag, j)) && result == args[i + 1 := Format(value)] {
      assert args[i + 1] != other;
      assert forall j: nat :: j < |args| && j != i + 1 ==> result[j] == args[j];
      assert forall j: nat :: FlagAt(args, other, j) ==> j != i && j != i + 1;
    } else {
      assert forall j: nat :: j < |args| ==> result[j] == args[j];
    }
    ReadSame(args, result, other, fallback, 0);
  }

  // ---------------------------------------------------------------------------------------------
  // Budgets
  // ---------------------------------------------------------------------------------------------

  /** A resource quantity as far as the model table and the overrides use it. */
  datatype Quantity = Unset | Milli(milli: int) | Mebi(mebi: int)

  function CpuMilli(q: Quantity): int {
    match q
    case Unset => 0
    case Milli(n) => n
    case Mebi(n) => 1000 * 1048576 * n
  }

  function MemoryMiB(q: Quantity): int {
    match q
    case Unset => 0
    case Milli(n) => 0
    case Mebi(n) => n
  }

  datatype Model = Model(args: seq<string>, cpuRequest: Quantity, cpuLimit: Quantity, memoryRequest: Quantity, memoryLimit: Quantity)

  datatype Pair = Pair(request: int, limit: int)

  /** The parts of an instance's spec that can override a budget. */
  datatype Spec = Spec(model: string, cpu: Option<Pair>, memory: Option<Pair>, context: Option<int>, parallel: Option<int>)

  const CTX := "--ctx-size"
  const PAR := "--parallel"
  const DEFAULT_SLOTS := 4

  /** The model with every resource override in place of the model's own. */
  function Resolved(base: Model, spec: Spec, args: seq<string>): Model {
    base.(args := args,
          cpuRequest := if spec.cpu.Some? then Milli(spec.cpu.value.request) else base.cpuRequest,
          cpuLimit := if spec.cpu.Some? then Milli(spec.cpu.value.limit) else base.cpuLimit,
          memoryRequest := if spec.memory.Some? then Mebi(spec.memory.value.request) else base.memoryRequest,
          memoryLimit := if spec.memory.Some? then Mebi(spec.memory.value.limit) else base.memoryLimit)
  }

  /** modelForInstance, from the model that the name resolves to. */
  method ModelForInstance(base: Model, spec: Spec) returns (m: Model)
    ensures m == Resolved(base, spec, m.args)
    ensures ArgsFor(base, spec, m.args)
  {
    m := base;
    if spec.cpu.Some? {
      m := m.(cpuRequest := Milli(spec.cpu.value.request));
      m := m.(cpuLimit := Milli(spec.cpu.value.limit));
    }
    if spec.memory.Some? {
      m := m.(memoryRequest := Mebi(spec.memory.value.request));
      m := m.(memoryLimit := Mebi(spec.memory.value.limit));
    }
    if spec.context.Some? {
      var args := SetServerIntFlag(m.args, CTX, spec.context.value);
      m := m.(args := args);
    }
    ghost var mid := m.args;
    assert Overridden(base.args, CTX, spec.context, mid);
    if spec.parallel.Some? {
      var args := SetServerIntFlag(m.args, PAR, spec.parallel.value);
      m := m.(args := args);
    }
    assert Overridden(mid, PAR, spec.parallel, m.args);
  }

  ghost predicate Overridden(args: seq<string>, flag: string, value: Option<int>, result: seq<string>) {
    if value.Some? then IsSet(args, flag, Format(value.value), result) else result == args
  }

  /** First the context size is set, then the number of slots. */
  ghost predicate ArgsFor(base: Model, spec: Spec, args: seq<string>) {
    exists mid :: Overridden(base.args, CTX, spec.context, mid) && Overridden(mid, PAR, spec.parallel, args)
  }

  datatype Budgets = Budgets(
    cpuRequest: int, cpuLimit: int, memoryRequest: int, memoryLimit: int, context: int, parallel: int)

  /** The six explicit budgets of a model selection. */
  function BudgetsOf(m: Model): Budgets {
    Budgets(CpuMilli(m.cpuRequest), CpuMilli(m.cpuLimit), MemoryMiB(m.memoryRequest), MemoryMiB(m.memoryLimit),
            ReadFlag(m.args, CTX, 0, 0), ReadFlag(m.args, PAR, DEFAULT_SLOTS, 0))
  }

  /** The budgets an instance asks for: each override, or the model's own budget. */
  function Asked(base: Model, spec: Spec): Budgets {
    var own := BudgetsOf(base);
    Budgets(if spec.cpu.Some? then spec.cpu.value.request else own.cpuRequest,
            if spec.cpu.Some? then spec.cpu.value.limit else own.cpuLimit,
            if spec.memory.Some? then spec.memory.value.request else own.memoryRequest,
            if spec.memory.Some? then spec.memory.value.limit else own.memoryLimit,
            if spec.context.Some? then spec.context.value else own.context,
            if spec.parallel.Some? then spec.parallel.value else own.parallel)
  }

  predicate IsFlag(arg: string) {
    arg == CTX || arg == PAR
  }

  /** Each of the two flags is followed by an argument that is neither of them. */
  ghost predicate Settable(args: seq<string>) {
    forall i: nat :: i < |args| && IsFlag(args[i]) ==> i + 1 < |args| && !IsFlag(args[i + 1])
  }

  /** The fields are 32-bit integers. */
  predicate Representable(spec: Spec) {
    (spec.context.Some? ==> IsInt32(spec.context.value)) && (spec.parallel.Some? ==> IsInt32(spec.parallel.value))
  }

  lemma FlagsAreNoNumbers()
    ensures Atoi(CTX).None? && Atoi(PAR).None? && CTX != PAR
  {
    assert CTX[1..] == "-ctx-size" && PAR[1..] == "-parallel";
    NotDigits("-ctx-size");
    NotDigits("-parallel");
    assert CTX[2] != PAR[2];
  }

  lemma {:induction false} NotDigits(s: string)
    requires s != "" && !IsDigit(s[0])
    ensures ParseDigits(s).None?
  {
    if |s| > 1 {
      NotDigits(s[..|s| - 1]);
    }
  }

  lemma StaysSeparate(args: seq<string>, value: int, result: seq<string>)
    requires IsSet(args, CTX, Format(value), result) && IsInt32(value) && Settable(args)
    ensures Separate(result, PAR, CTX)
  {
    FlagsAreNoNumbers();
    AtoiFormat(value);
    assert !IsFlag(Format(value));
    forall i: nat | FlagAt(result, PAR, i)
      ensures result[i + 1] != CTX
    {
      if i < |args| {
        assert IsFlag(result[i]);
        assert result[i] == args[i];
      }
    }
  }

  /** The budgets written into the model selection are the ones the instance asks for. */
  lemma BudgetsWritten(base: Model, spec: Spec, m: Model)
    requires Settable(base.args) && ArgsFor(base, spec, m.args) && Representable(spec)
    ensures ReadFlag(m.args, CTX, 0, 0) == Asked(base, spec).context
    ensures ReadFlag(m.args, PAR, DEFAULT_SLOTS, 0) == Asked(base, spec).parallel
  {
    FlagsAreNoNumbers();
    var mid :| Overridden(base.args, CTX, spec.context, mid) && Overridden(mid, PAR, spec.parallel, m.args);
    assert Separate(base.args, CTX, PAR) && Separate(base.args, PAR, CTX) by {
      assert forall i: nat :: FlagAt(base.args, CTX, i) || FlagAt(base.args, PAR, i) ==> IsFlag(base.args[i]);
    }
    if spec.context.Some? {
      ReadBack(base.args, CTX, spec.context.value, mid, 0);
      ReadOther(base.args, CTX, spec.context.value, mid, PAR, DEFAULT_SLOTS);
      StaysSeparate(base.args, spec.context.value, mid);
    }
    if spec.parallel.Some? {
      ReadBack(mid, PAR, spec.parallel.value, m.args, DEFAULT_SLOTS);
      ReadOther(mid, PAR, spec.parallel.value, m.args, CTX, 0);
    }
  }

  /** Why Settable is needed: after a flag without its argument, the second setting overwrites the first flag. */
  lemma DanglingFlag()
    ensures var mid, out := [PAR, CTX, "8"], [PAR, "2", "8"];
            && IsSet([PAR], CTX, Format(8), mid) && IsSet(mid, PAR, Format(2), out)
            && ReadFlag(out, CTX, 0, 0) == 0
  {
    FlagsAreNoNumbers();
    var mid := [PAR, CTX, "8"];
    assert Format(8) == "8" && Format(2) == "2";
    assert FlagAt(mid, PAR, 0) && mid[1 := "2"] == [PAR, "2", "8"];
    assert [PAR] + [CTX, "8"] == mid;
    var out := [PAR, "2", "8"];
    assert |CTX| == 10 && out[0] != CTX && out[1] != CTX;
    SkipTo(out, CTX, 0, 0, 2);
  }

  // ---------------------------------------------------------------------------------------------
  // The check
  // ---------------------------------------------------------------------------------------------

  /** Provider policy; zero stands for the model's own budget. */
  datatype Policy = Policy(cpu: int, memory: int, context: int, parallel: int)

  /** Validate. */
  predicate PolicyOk(c: Policy) {
    0 <= c.cpu <= 16000 && 0 <= c.memory <= 65536 && 0 <= c.context <= 131072 && 0 <= c.parallel <= 16
  }

  function Maxima(c: Policy, base: Model): Budgets {
    var own := BudgetsOf(base);
    Budgets(if c.cpu == 0 then own.cpuRequest else c.cpu, if c.cpu == 0 then own.cpuLimit else c.cpu,
            if c.memory == 0 then own.memoryRequest else c.memory, if c.memory == 0 then own.memoryLimit else c.memory,
            if c.context == 0 then own.context else c.context, if c.parallel == 0 then own.parallel else c.parallel)
  }

  predicate Within(b: Budgets, max: Budgets) {
    && b.cpuRequest <= max.cpuRequest && b.cpuLimit <= max.cpuLimit
    && b.memoryRequest <= max.memoryRequest && b.memoryLimit <= max.memoryLimit
    && b.context <= max.context && b.parallel <= max.parallel
  }

  /** Spelled out: within the provider's bounds, and each budget asked for, by override or by the model, at most its ceiling
      or, where that is zero, the model's own. */
  lemma WithinExactly(c: Policy, base: Model, spec: Spec)
    ensures PolicyOk(c) && Within(Asked(base, spec), Maxima(c, base)) <==>
              && 0 <= c.cpu <= 16000 && 0 <= c.memory <= 65536 && 0 <= c.context <= 131072 && 0 <= c.parallel <= 16
              && (if spec.cpu.Some? then spec.cpu.value.request else CpuMilli(base.cpuRequest))
                 <= (if c.cpu == 0 then CpuMilli(base.cpuRequest) else c.cpu)
              && (if spec.cpu.Some? then spec.cpu.value.limit else CpuMilli(base.cpuLimit))
                 <= (if c.cpu == 0 then CpuMilli(base.cpuLimit) else c.cpu)
              && (if spec.memory.Some? then spec.memory.value.request else MemoryMiB(base.memoryRequest))
                 <= (if c.memory == 0 then MemoryMiB(base.memoryRequest) else c.memory)
              && (if spec.memory.Some? then spec.memory.value.limit else MemoryMiB(base.memoryLimit))
                 <= (if c.memory == 0 then MemoryMiB(base.memoryLimit) else c.memory)
              && (if spec.context.Some? then spec.context.value else ReadFlag(base.args, "--ctx-size", 0, 0))
                 <= (if c.context == 0 then ReadFlag(base.args, "--ctx-size", 0, 0) else c.context)
              && (if spec.parallel.Some? then spec.parallel.value else ReadFlag(base.args, "--parallel", 4, 0))
                 <= (if c.parallel == 0 then ReadFlag(base.args, "--parallel", 4, 0) else c.parallel)
  {
  }

  /** check: accepts exactly the instances whose resolved selection keeps all six budgets within the ceilings;
      these are the budgets the instance asks for. */
  method Check(c: Policy, base: Model, spec: Spec) returns (ok: bool, ghost desired: Model)
    ensures ok <==> PolicyOk(c) && Within(BudgetsOf(desired), Maxima(c, base))
    ensures PolicyOk(c) ==> ArgsFor(base, spec, desired.args) && desired == Resolved(base, spec, desired.args)
    ensures Settable(base.args) && Representable(spec) ==>
              (ok <==> PolicyOk(c) && Within(Asked(base, spec), Maxima(c, base)))
  {
    desired := base;
    if !PolicyOk(c) {
      return false, desired;
    }
    var model := ModelForInstance(base, spec);
    desired := model;
    if Settable(base.args) && Representable(spec) {
      BudgetsWritten(base, spec, model);
    }
    var max := Maxima(c, base);
    var context := ServerIntFlag(model.args, CTX, 0);
    var parallel := ServerIntFlag(model.args, PAR, DEFAULT_SLOTS);
    var limits := [(CpuMilli(model.cpuRequest), max.cpuRequest), (CpuMilli(model.cpuLimit), max.cpuLimit),
                   (MemoryMiB(model.memoryRequest), max.memoryRequest), (MemoryMiB(model.memoryLimit), max.memoryLimit),
                   (context, max.context), (parallel, max.parallel)];
    for i := 0 to |limits|
      invariant forall j :: 0 <= j < i ==> limits[j].0 <= limits[j].1
    {
      if limits[i].0 > limits[i].1 {
        return false, desired;
      }
    }
    assert limits[0].0 <= limits[0].1 && limits[1].0 <= limits[1].1 && limits[2].0 <= limits[2].1;
    assert limits[3].0 <= limits[3].1 && limits[4].0 <= limits[4].1 && limits[5].0 <= limits[5].1;
    return true, desired;
  }

  /** Every model passes as it is under zero ceilings, and nothing can then exceed the model's own budgets. */
  lemma ZeroCeilings(base: Model, spec: Spec)
    ensures Within(Asked(base, Spec(spec.model, None, None, None, None)), Maxima(Policy(0, 0, 0, 0), base))
    ensures Within(Asked(base, spec), Maxima(Policy(0, 0, 0, 0), base)) <==> Within(Asked(base, spec), BudgetsOf(base))
  {
  }

  /** The two budget rows of the model table: qwen3-4b, and every other model. */
  const QWEN3 := Model([CTX, "8192", "--jinja", "--reasoning-format", "deepseek", "--reasoning", "off", "--no-webui"],
                       Milli(500), Milli(1800), Mebi(4096), Mebi(7168))
  const OTHER := Model([], Unset, Unset, Unset, Unset)

  /** Both flags can be set in every model of the table. */
  lemma TableSettable()
    ensures Settable(QWEN3.args) && Settable(OTHER.args)
  {
    var args := QWEN3.args;
    forall i: nat | i < |args| && IsFlag(args[i])
      ensures i == 0
    {
      assert PAR[2] == 'p' && CTX[2] == 'c' && |PAR| == |CTX| == 10;
      assert |args[1]| == 4 && args[2][2] == 'j' && args[3][2] == 'r';
      assert args[4][0] == 'd' && args[5][2] == 'r' && args[6][0] == 'o' && args[7][2] == 'n';
    }
  }

  /** The budgets of the two rows, in millicores, MiB, tokens and slots. */
  lemma TableBudgets()
    ensures BudgetsOf(QWEN3) == Budgets(500, 1800, 4096, 7168, 8192, 4)
    ensures BudgetsOf(OTHER) == Budgets(0, 0, 0, 0, 0, 4)
  {
    assert Atoi("8192") == Some(8192) by {
      ParseStep("8192", "819", 819, 2);
      ParseStep("819", "81", 81, 9);
      ParseStep("81", "8", 8, 1);
    }
    var args := QWEN3.args;
    forall j: nat | j < |args|
      ensures args[j] != PAR
    {
      assert PAR[2] == 'p' && CTX[2] == 'c' && |PAR| == |CTX| == 10;
      assert |args[1]| == 4 && args[2][2] == 'j' && args[3][2] == 'r';
      assert args[4][0] == 'd' && args[5][2] == 'r' && args[6][0] == 'o' && args[7][2] == 'n';
    }
    SkipTo(args, PAR, DEFAULT_SLOTS, 0, |args|);
  }

  lemma ParseStep(s: string, front: string, n: nat, last: nat)
    requires s != "" && s[..|s| - 1] == front && IsDigit(s[|s| - 1]) && s[|s| - 1] as int - '0' as int == last
    ensures front != "" && ParseDigits(front) == Some(n) ==> ParseDigits(s) == Some(10 * n + last)
    ensures front == "" ==> ParseDigits(s) == Some(last)
  {
  }
}
