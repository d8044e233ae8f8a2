/** The records the analytics engine describes and the figures it reports. */
module AnalyticsModels {
  import opened Wrappers
  import opened Domain

  datatype SampleSizeLabel = INSUFFICIENT | LIMITED | MODERATE | STRONGER_EVIDENCE

  /** Position of a label in the declared order of the enumeration. */
  function LabelOrder(l: SampleSizeLabel): nat {
    match l
    case INSUFFICIENT => 0
    case LIMITED => 1
    case MODERATE => 2
    case STRONGER_EVIDENCE => 3
  }

  datatype AnalyticsConfig = AnalyticsConfig(
    limitedFrom: int, moderateFrom: int, strongerFrom: int, bestGroupMinLabel: SampleSizeLabel,
    equityCurveMaxPoints: int, disclaimer: string)
  {
    /** What loading the specification enforces. */
    predicate Valid() {
      1 <= limitedFrom < moderateFrom < strongerFrom
    }
  }

  /** One closed record, normalised. Times are integer instants, R multiples exact reals. */
  datatype Sample = Sample(
    id: string, symbol: string, direction: Direction, closedAt: int, r: Option<real>, win: bool, breakeven: bool,
    result: string, session: string, setupType: string, timeframe: string, dayOfWeek: string,
    noWick: Option<string>, liquidityEvent: Option<string>, synthetic: bool, strategyVersion: string)

  datatype GroupStats = GroupStats(
    key: string, count: int, sizeLabel: SampleSizeLabel, wins: int, losses: int, breakeven: int,
    winRate: Option<real>, rCount: int, avgR: Option<real>, totalR: Option<real>, avgWinR: Option<real>,
    avgLossR: Option<real>, expectancyR: Option<real>, profitFactor: Option<real>)

  datatype BestReason = FEWER_THAN_TWO_GROUPS | NO_GROUP_REACHES_THE_FLOOR | HIGHEST_EXPECTANCY

  datatype Breakdown = Breakdown(
    dimension: string, groups: seq<GroupStats>, best: Option<string>, bestReason: BestReason)

  datatype Drawdown = Drawdown(
    maxDrawdownR: real, peakAt: Option<int>, troughAt: Option<int>, recoveredAt: Option<int>,
    recoveryTrades: Option<int>)

  datatype EquityPoint = EquityPoint(at: int, cumulativeR: real)
}
