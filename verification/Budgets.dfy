/** Resource budgets and the usage charged against them. */
module Budgets {
  import opened Outcomes

  type u32 = x: int | 0 <= x <= U32_MAX
  type u64 = x: int | 0 <= x <= U64_MAX

  datatype BudgetReason =
    | ModelCalls
    | ToolCalls
    | InputTokens
    | OutputTokens
    | TotalTokens
    | ModelOutputBytes
    | Deadline
    | MissingTokenUsage
    | AgentTurns
    | OrchestrationRounds

  datatype ResourceBudget = ResourceBudget(
    maxModelCalls: u32, maxToolCalls: u32, maxInputTokens: u64, maxOutputTokens: u64, maxTotalTokens: u64,
    maxModelOutputBytes: u64, maxElapsedMs: u64, requireReportedTokens: bool)

  const DEFAULT_BUDGET: ResourceBudget :=
    ResourceBudget(16, 64, 524288, 32768, 557056, 1048576, 600000, false)

  datatype Usage = Usage(
    modelCalls: u32, toolCalls: u32, inputTokens: u64, outputTokens: u64, totalTokens: u64, modelOutputBytes: u64,
    missingTokenReports: u32)

  const NO_USAGE: Usage := Usage(0, 0, 0, 0, 0, 0, 0)

  /** What a response reports about its tokens. */
  datatype TokenReport = TokenReport(input: Option<u64>, output: Option<u64>, total: Option<u64>)

  // --------------------------------------------------------------- limits

  /** Every counter is within the budget. */
  predicate Within(u: Usage, b: ResourceBudget) {
    && u.modelCalls <= b.maxModelCalls && u.toolCalls <= b.maxToolCalls
    && u.inputTokens <= b.maxInputTokens && u.outputTokens <= b.maxOutputTokens && u.totalTokens <= b.maxTotalTokens
    && u.modelOutputBytes <= b.maxModelOutputBytes
    && (b.requireReportedTokens ==> u.missingTokenReports == 0)
  }

  function Smaller(a: int, b: int): int {
    if a <= b then a else b
  }

  /** `ResourceBudget::min`. */
  function Min(a: ResourceBudget, b: ResourceBudget): ResourceBudget {
    ResourceBudget(Smaller(a.maxModelCalls, b.maxModelCalls), Smaller(a.maxToolCalls, b.maxToolCalls),
      Smaller(a.maxInputTokens, b.maxInputTokens), Smaller(a.maxOutputTokens, b.maxOutputTokens),
      Smaller(a.maxTotalTokens, b.maxTotalTokens), Smaller(a.maxModelOutputBytes, b.maxModelOutputBytes),
      Smaller(a.maxElapsedMs, b.maxElapsedMs), a.requireReportedTokens || b.requireReportedTokens)
  }

  /** Usage and elapsed time respect a budget. */
  predicate Respects(u: Usage, elapsedMs: u64, b: ResourceBudget) {
    Within(u, b) && elapsedMs <= b.maxElapsedMs
  }

  /** `ResourceBudget::strictest`: what respects it respects every budget given, and conversely. */
  method Strictest(values: seq<ResourceBudget>) returns (b: ResourceBudget)
    ensures values == [] ==> b == ResourceBudget(16, 64, 524288, 32768, 557056, 1048576, 600000, false)
    ensures values != [] ==>
      forall u, e :: Respects(u, e, b) <==> forall i :: 0 <= i < |values| ==> Respects(u, e, values[i])
  {
    if values == [] {
      return DEFAULT_BUDGET;
    }
    b := values[0];
    for i := 1 to |values|
      invariant forall u, e :: Respects(u, e, b) <==> forall j :: 0 <= j < i ==> Respects(u, e, values[j])
    {
      MinRespects(b, values[i]);
      b := Min(b, values[i]);
    }
  }

  lemma MinRespects(a: ResourceBudget, b: ResourceBudget)
    ensures forall u, e :: Respects(u, e, Min(a, b)) <==> Respects(u, e, a) && Respects(u, e, b)
  {}

  // --------------------------------------------------------------- charges

  /** Counters add, saturating at their width. */
  function Merged(u: Usage, o: Usage): Usage {
    Usage(SaturatingAdd(u.modelCalls, o.modelCalls, U32_MAX), SaturatingAdd(u.toolCalls, o.toolCalls, U32_MAX),
      SaturatingAdd(u.inputTokens, o.inputTokens, U64_MAX), SaturatingAdd(u.outputTokens, o.outputTokens, U64_MAX),
      SaturatingAdd(u.totalTokens, o.totalTokens, U64_MAX),
        SaturatingAdd(u.modelOutputBytes, o.modelOutputBytes, U64_MAX),
      SaturatingAdd(u.missingTokenReports, o.missingTokenReports, U32_MAX))
  }

  /** The reason for exceeding a budget, in the order the checks run. */
  function Excess(u: Usage, b: ResourceBudget): (r: Option<BudgetReason>)
    ensures r.None? <==> Within(u, b)
  {
    if u.modelCalls > b.maxModelCalls then Some(ModelCalls)
    else if u.toolCalls > b.maxToolCalls then Some(ToolCalls)
    else if u.inputTokens > b.maxInputTokens then Some(InputTokens)
    else if u.outputTokens > b.maxOutputTokens then Some(OutputTokens)
    else if u.totalTokens > b.maxTotalTokens then Some(TotalTokens)
    else if u.modelOutputBytes > b.maxModelOutputBytes then Some(ModelOutputBytes)
    else if b.requireReportedTokens && u.missingTokenReports > 0 then Some(MissingTokenUsage)
    else None
  }

  /** The sum, cut off at the width of the counter. */
  predicate AddsTo(after: int, before: int, added: int, limit: int) {
    if before + added <= limit then after == before + added else after == limit
  }

  /** The limit a reason names is the one exceeded. */
  predicate Exceeds(u: Usage, b: ResourceBudget, reason: BudgetReason) {
    match reason
    case ModelCalls => u.modelCalls > b.maxModelCalls
    case ToolCalls => u.toolCalls > b.maxToolCalls
    case _ => Beyond(u, b, reason)
  }

  /** A charge either goes through or stops with a reason; the counters may have moved either way. */
  datatype Charge = Charge(usage: Usage, stop: Option<BudgetReason>)

  function BeforeModel(u: Usage, b: ResourceBudget, elapsedMs: u64): Charge {
    if elapsedMs > b.maxElapsedMs then Charge(u, Some(Deadline))
    else if u.modelCalls >= b.maxModelCalls then Charge(u, Some(ModelCalls))
    else Charge(u.(modelCalls := u.modelCalls + 1), None)
  }

  function BeforeTool(u: Usage, b: ResourceBudget, elapsedMs: u64): Charge {
    if elapsedMs > b.maxElapsedMs then Charge(u, Some(Deadline))
    else if u.toolCalls >= b.maxToolCalls then Charge(u, Some(ToolCalls))
    else Charge(u.(toolCalls := u.toolCalls + 1), None)
  }

  function Reported(tokens: Option<u64>): u64 {
    if tokens.Some? then tokens.value else 0
  }

  function ReportedTotal(report: TokenReport): u64 {
    if report.total.Some? then report.total.value
    else SaturatingAdd(Reported(report.input), Reported(report.output), U64_MAX)
  }

  /** What a response adds to the counters, whatever the limits. */
  function Spending(u: Usage, report: Option<TokenReport>, outputBytes: u64): Usage {
    var read := u.(modelOutputBytes := SaturatingAdd(u.modelOutputBytes, outputBytes, U64_MAX));
    if report.None? then
      read.(missingTokenReports := SaturatingAdd(u.missingTokenReports, 1, U32_MAX))
    else
      read.(
        inputTokens := SaturatingAdd(u.inputTokens, Reported(report.value.input), U64_MAX),
        outputTokens := SaturatingAdd(u.outputTokens, Reported(report.value.output), U64_MAX),
        totalTokens := SaturatingAdd(u.totalTokens, ReportedTotal(report.value), U64_MAX))
  }

  function AfterResponse(
    u: Usage, b: ResourceBudget, report: Option<TokenReport>, outputBytes: u64, elapsedMs: u64): Charge
  {
    var next := Spending(u, report, outputBytes);
    if elapsedMs > b.maxElapsedMs then Charge(u, Some(Deadline))
    else if next.modelOutputBytes > b.maxModelOutputBytes then
      Charge(u.(modelOutputBytes := next.modelOutputBytes), Some(ModelOutputBytes))
    else if report.None? then
      Charge(next, if b.requireReportedTokens then Some(MissingTokenUsage) else None)
    else
      Charge(next,
        if next.inputTokens > b.maxInputTokens then Some(InputTokens)
        else if next.outputTokens > b.maxOutputTokens then Some(OutputTokens)
        else if next.totalTokens > b.maxTotalTokens then Some(TotalTokens)
        else None)
  }

  /** The limit a reason names has been gone beyond. */
  predicate Beyond(u: Usage, b: ResourceBudget, reason: BudgetReason) {
    match reason
    case InputTokens => u.inputTokens > b.maxInputTokens
    case OutputTokens => u.outputTokens > b.maxOutputTokens
    case TotalTokens => u.totalTokens > b.maxTotalTokens
    case ModelOutputBytes => u.modelOutputBytes > b.maxModelOutputBytes
    case MissingTokenUsage => b.requireReportedTokens && u.missingTokenReports > 0
    case _ => false
  }

  /** No counter was taken back. */
  predicate NotLess(before: Usage, after: Usage) {
    && before.modelCalls <= after.modelCalls && before.toolCalls <= after.toolCalls
    && before.inputTokens <= after.inputTokens && before.outputTokens <= after.outputTokens
    && before.totalTokens <= after.totalTokens && before.modelOutputBytes <= after.modelOutputBytes
    && before.missingTokenReports <= after.missingTokenReports
  }

  /** A charge that goes through keeps the usage within its budget; none takes anything back. */
  lemma ChargesStayWithin(u: Usage, b: ResourceBudget, report: Option<TokenReport>, outputBytes: u64, elapsedMs: u64)
    requires Within(u, b)
    ensures Within(BeforeModel(u, b, elapsedMs).usage, b) && Within(BeforeTool(u, b, elapsedMs).usage, b)
    ensures AfterResponse(u, b, report, outputBytes, elapsedMs).stop.None? ==>
      Within(AfterResponse(u, b, report, outputBytes, elapsedMs).usage, b)
    ensures elapsedMs > b.maxElapsedMs ==>
      BeforeModel(u, b, elapsedMs) == BeforeTool(u, b, elapsedMs) == AfterResponse(u, b, report, outputBytes, elapsedMs)
      == Charge(u, Some(Deadline))
  {}

  /** The usage object its owner updates in place. */
  class ResourceUsage {
    var modelCalls: u32
    var toolCalls: u32
    var inputTokens: u64
    var outputTokens: u64
    var totalTokens: u64
    var modelOutputBytes: u64
    var missingTokenReports: u32

    constructor ()
      ensures Value() == NO_USAGE
    {
      modelCalls, toolCalls, inputTokens, outputTokens := 0, 0, 0, 0;
      totalTokens, modelOutputBytes, missingTokenReports := 0, 0, 0;
    }

    function Value(): Usage
      reads this
    {
      Usage(modelCalls, toolCalls, inputTokens, outputTokens, totalTokens, modelOutputBytes, missingTokenReports)
    }

    /** `merge`: add, then report the first limit exceeded. */
    method Merge(other: Usage, b: ResourceBudget) returns (stop: Option<BudgetReason>)
      modifies this
      ensures Value() == Merged(old(Value()), other) && stop == Excess(Value(), b)
      ensures stop.None? <==> Within(Value(), b)
      ensures stop.Some? ==> Exceeds(Value(), b, stop.value)
      ensures stop.None? <==>
        && modelCalls <= b.maxModelCalls && toolCalls <= b.maxToolCalls && inputTokens <= b.maxInputTokens
        && outputTokens <= b.maxOutputTokens && totalTokens <= b.maxTotalTokens
        && modelOutputBytes <= b.maxModelOutputBytes && !(b.requireReportedTokens && missingTokenReports > 0)
      ensures AddsTo(modelCalls, old(modelCalls), other.modelCalls, 0xFFFF_FFFF)
        && AddsTo(toolCalls, old(toolCalls), other.toolCalls, 0xFFFF_FFFF)
        && AddsTo(missingTokenReports, old(missingTokenReports), other.missingTokenReports, 0xFFFF_FFFF)
      ensures AddsTo(inputTokens, old(inputTokens), other.inputTokens, 0xFFFF_FFFF_FFFF_FFFF)
        && AddsTo(outputTokens, old(outputTokens), other.outputTokens, 0xFFFF_FFFF_FFFF_FFFF)
        && AddsTo(totalTokens, old(totalTokens), other.totalTokens, 0xFFFF_FFFF_FFFF_FFFF)
        && AddsTo(modelOutputBytes, old(modelOutputBytes), other.modelOutputBytes, 0xFFFF_FFFF_FFFF_FFFF)
    {
      modelCalls := SaturatingAdd(modelCalls, other.modelCalls, U32_MAX);
      toolCalls := SaturatingAdd(toolCalls, other.toolCalls, U32_MAX);
      inputTokens := SaturatingAdd(inputTokens, other.inputTokens, U64_MAX);
      outputTokens := SaturatingAdd(outputTokens, other.outputTokens, U64_MAX);
      totalTokens := SaturatingAdd(totalTokens, other.totalTokens, U64_MAX);
      modelOutputBytes := SaturatingAdd(modelOutputBytes, other.modelOutputBytes, U64_MAX);
      missingTokenReports := SaturatingAdd(missingTokenReports, other.missingTokenReports, U32_MAX);
      if modelCalls > b.maxModelCalls { return Some(ModelCalls); }
      if toolCalls > b.maxToolCalls { return Some(ToolCalls); }
      if inputTokens > b.maxInputTokens { return Some(InputTokens); }
      if outputTokens > b.maxOutputTokens { return Some(OutputTokens); }
      if totalTokens > b.maxTotalTokens { return Some(TotalTokens); }
      if modelOutputBytes > b.maxModelOutputBytes { return Some(ModelOutputBytes); }
      if b.requireReportedTokens && missingTokenReports > 0 { return Some(MissingTokenUsage); }
      return None;
    }

    /** `before_model`: a model call is charged before it is made, and only if deadline and limit allow it. */
    method ChargeModel(b: ResourceBudget, elapsedMs: u64) returns (stop: Option<BudgetReason>)
      modifies this`modelCalls
      ensures Charge(Value(), stop) == BeforeModel(old(Value()), b, elapsedMs)
      ensures stop.None? <==> elapsedMs <= b.maxElapsedMs && old(modelCalls) < b.maxModelCalls
      ensures modelCalls == old(modelCalls) + if stop.None? then 1 else 0
      ensures stop.Some? ==> stop.value == if elapsedMs > b.maxElapsedMs then Deadline else ModelCalls
      ensures Within(old(Value()), b) ==> Within(Value(), b)
    {
      if elapsedMs > b.maxElapsedMs { return Some(Deadline); }
      if modelCalls >= b.maxModelCalls { return Some(ModelCalls); }
      modelCalls := modelCalls + 1;
      return None;
    }

    /** `before_tool`: the same for a tool call. */
    method ChargeTool(b: ResourceBudget, elapsedMs: u64) returns (stop: Option<BudgetReason>)
      modifies this`toolCalls
      ensures Charge(Value(), stop) == BeforeTool(old(Value()), b, elapsedMs)
      ensures stop.None? <==> elapsedMs <= b.maxElapsedMs && old(toolCalls) < b.maxToolCalls
      ensures toolCalls == old(toolCalls) + if stop.None? then 1 else 0
      ensures stop.Some? ==> stop.value == if elapsedMs > b.maxElapsedMs then Deadline else ToolCalls
      ensures Within(old(Value()), b) ==> Within(Value(), b)
    {
      if elapsedMs > b.maxElapsedMs { return Some(Deadline); }
      if toolCalls >= b.maxToolCalls { return Some(ToolCalls); }
      toolCalls := toolCalls + 1;
      return None;
    }

    /** `after_response`: a response is paid for whatever it cost; it stops for the limit it has gone beyond. */
    method ChargeResponse(b: ResourceBudget, report: Option<TokenReport>, outputBytes: u64, elapsedMs: u64)
      returns (stop: Option<BudgetReason>)
      modifies this
      ensures Charge(Value(), stop) == AfterResponse(old(Value()), b, report, outputBytes, elapsedMs)
      ensures stop.None? ==> elapsedMs <= b.maxElapsedMs && Value() == Spending(old(Value()), report, outputBytes)
      ensures stop.None? && Within(old(Value()), b) ==> Within(Value(), b)
      ensures stop == Some(Deadline) <==> elapsedMs > b.maxElapsedMs
      ensures elapsedMs > b.maxElapsedMs ==> Value() == old(Value())
      ensures stop.Some? && elapsedMs <= b.maxElapsedMs ==> Beyond(Value(), b, stop.value)
      ensures NotLess(old(Value()), Value())
      // The bytes read are added, then one missing report or the tokens reported; the total may be left to be summed.
      ensures elapsedMs <= b.maxElapsedMs ==>
        AddsTo(modelOutputBytes, old(modelOutputBytes), outputBytes, 0xFFFF_FFFF_FFFF_FFFF)
      ensures elapsedMs <= b.maxElapsedMs && modelOutputBytes <= b.maxModelOutputBytes ==>
        match report
        case None => AddsTo(missingTokenReports, old(missingTokenReports), 1, 0xFFFF_FFFF)
        case Some(tokens) =>
          var input := if tokens.input.Some? then tokens.input.value else 0;
          var output := if tokens.output.Some? then tokens.output.value else 0;
          && AddsTo(inputTokens, old(inputTokens), input, 0xFFFF_FFFF_FFFF_FFFF)
          && AddsTo(outputTokens, old(outputTokens), output, 0xFFFF_FFFF_FFFF_FFFF)
          && exists total: u64 ::
               && AddsTo(totalTokens, old(totalTokens), total, 0xFFFF_FFFF_FFFF_FFFF)
               && (if tokens.total.Some? then total == tokens.total.value
                   else AddsTo(total, input, output, 0xFFFF_FFFF_FFFF_FFFF))
      ensures modelCalls == old(modelCalls) && toolCalls == old(toolCalls)
      ensures report.Some? ==> missingTokenReports == old(missingTokenReports)
      ensures report.None? ==>
        inputTokens == old(inputTokens) && outputTokens == old(outputTokens) && totalTokens == old(totalTokens)
    {
      if elapsedMs > b.maxElapsedMs { return Some(Deadline); }
      modelOutputBytes := SaturatingAdd(modelOutputBytes, outputBytes, U64_MAX);
      if modelOutputBytes > b.maxModelOutputBytes { return Some(ModelOutputBytes); }
      if report.None? {
        missingTokenReports := SaturatingAdd(missingTokenReports, 1, U32_MAX);
        return if b.requireReportedTokens then Some(MissingTokenUsage) else None;
      }
      inputTokens := SaturatingAdd(inputTokens, Reported(report.value.input), U64_MAX);
      outputTokens := SaturatingAdd(outputTokens, Reported(report.value.output), U64_MAX);
      totalTokens := SaturatingAdd(totalTokens, ReportedTotal(report.value), U64_MAX);
      assert AddsTo(totalTokens, old(totalTokens), ReportedTotal(report.value), 0xFFFF_FFFF_FFFF_FFFF);
      if inputTokens > b.maxInputTokens { return Some(InputTokens); }
      if outputTokens > b.maxOutputTokens { return Some(OutputTokens); }
      if totalTokens > b.maxTotalTokens { return Some(TotalTokens); }
      return None;
    }
  }
}
