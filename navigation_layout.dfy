/**
 * The fixed navigation layout that HierarchicalNavigationSystem registers
 * when it is created (hierarchical_navigation_system.py): five level-0
 * categories, then the level-1 pages under them, in declaration order.
 *
 * Node ids are a closed set, so an id is its position in the declaration
 * order; the id strings, titles, descriptions and help texts are functions
 * of the id.
 */
module NavigationLayout {
  import opened Common

  /** A node id: its position in the layout's declaration order. */
  type NodeId = n: nat | n < 23

  const ExecutiveSummary: NodeId := 0
  const TechnicalAnalysis: NodeId := 1
  const OperationalMetrics: NodeId := 2
  const DataScience: NodeId := 3
  const AlertsActions: NodeId := 4
  const BusinessImpact: NodeId := 5
  const CapacityPlanning: NodeId := 6
  const RiskAssessment: NodeId := 7
  const InvestmentRecommendations: NodeId := 8
  const PerformanceMetrics: NodeId := 9
  const SystemResources: NodeId := 10
  const StreamAnalysis: NodeId := 11
  const ErrorAnalysis: NodeId := 12
  const OptimizationOpportunities: NodeId := 13
  const RealTimeStatus: NodeId := 14
  const SlaCompliance: NodeId := 15
  const MonitoringAlerts: NodeId := 16
  const MaintenanceSchedule: NodeId := 17
  const StatisticalAnalysis: NodeId := 18
  const CorrelationAnalysis: NodeId := 19
  const AnomalyDetection: NodeId := 20
  const PredictiveInsights: NodeId := 21
  const DataExport: NodeId := 22

  /** The NavigationNode dataclass, without the texts (see Title and friends) and data_path. */
  datatype Node = Node(
    id: NodeId,
    title: string,
    description: string,
    helpText: string,
    level: nat,
    parentId: Option<NodeId>,
    children: seq<NodeId>,
    audience: seq<string>,   // audience_relevance
    priority: int,           // 1 = high, 2 = medium, 3 = low
    tags: seq<string>)

  /** The node id string. */
  function IdName(id: NodeId): string
  {
    if id == ExecutiveSummary then "executive_summary" else
    if id == TechnicalAnalysis then "technical_analysis" else
    if id == OperationalMetrics then "operational_metrics" else
    if id == DataScience then "data_science" else
    if id == AlertsActions then "alerts_actions" else
    if id == BusinessImpact then "business_impact" else
    if id == CapacityPlanning then "capacity_planning" else
    if id == RiskAssessment then "risk_assessment" else
    if id == InvestmentRecommendations then "investment_recommendations" else
    if id == PerformanceMetrics then "performance_metrics" else
    if id == SystemResources then "system_resources" else
    if id == StreamAnalysis then "stream_analysis" else
    if id == ErrorAnalysis then "error_analysis" else
    if id == OptimizationOpportunities then "optimization_opportunities" else
    if id == RealTimeStatus then "real_time_status" else
    if id == SlaCompliance then "sla_compliance" else
    if id == MonitoringAlerts then "monitoring_alerts" else
    if id == MaintenanceSchedule then "maintenance_schedule" else
    if id == StatisticalAnalysis then "statistical_analysis" else
    if id == CorrelationAnalysis then "correlation_analysis" else
    if id == AnomalyDetection then "anomaly_detection" else
    if id == PredictiveInsights then "predictive_insights" else
    "data_export"
  }

  function Title(id: NodeId): string
  {
    if id == ExecutiveSummary then "Executive Summary" else
    if id == TechnicalAnalysis then "Technical Analysis" else
    if id == OperationalMetrics then "Operational Metrics" else
    if id == DataScience then "Data Science & Analytics" else
    if id == AlertsActions then "Alerts & Actions" else
    if id == BusinessImpact then "Business Impact Assessment" else
    if id == CapacityPlanning then "Capacity Planning" else
    if id == RiskAssessment then "Risk Assessment" else
    if id == InvestmentRecommendations then "Investment Recommendations" else
    if id == PerformanceMetrics then "Performance Metrics" else
    if id == SystemResources then "System Resource Analysis" else
    if id == StreamAnalysis then "Individual Stream Analysis" else
    if id == ErrorAnalysis then "Error Analysis" else
    if id == OptimizationOpportunities then "Optimization Opportunities" else
    if id == RealTimeStatus then "Real-time Status" else
    if id == SlaCompliance then "SLA Compliance" else
    if id == MonitoringAlerts then "Monitoring & Alerts" else
    if id == MaintenanceSchedule then "Maintenance Schedule" else
    if id == StatisticalAnalysis then "Statistical Analysis" else
    if id == CorrelationAnalysis then "Correlation Analysis" else
    if id == AnomalyDetection then "Anomaly Detection" else
    if id == PredictiveInsights then "Predictive Insights" else
    "Data Export & APIs"
  }

  function Description(id: NodeId): string
  {
    if id == ExecutiveSummary then "High-level business insights and strategic recommendations" else
    if id == TechnicalAnalysis then "Detailed technical performance metrics and engineering insights" else
    if id == OperationalMetrics then "Real-time operational data and monitoring insights" else
    if id == DataScience then "Statistical analysis, patterns, and predictive insights" else
    if id == AlertsActions then "Critical alerts, warnings, and recommended actions" else
    if id == BusinessImpact then "Impact on business operations and strategic objectives" else
    if id == CapacityPlanning then "Current capacity assessment and future scaling recommendations" else
    if id == RiskAssessment then "Identified risks and mitigation strategies" else
    if id == InvestmentRecommendations then "Recommended investments and expected returns" else
    if id == PerformanceMetrics then "Detailed performance statistics and benchmarks" else
    if id == SystemResources then "CPU, memory, network, and storage utilization" else
    if id == StreamAnalysis then "Per-stream performance and behavior analysis" else
    if id == ErrorAnalysis then "Error patterns, root causes, and troubleshooting" else
    if id == OptimizationOpportunities then "Identified optimization opportunities and recommendations" else
    if id == RealTimeStatus then "Current system status and health indicators" else
    if id == SlaCompliance then "Service level agreement compliance and tracking" else
    if id == MonitoringAlerts then "Alert configurations and monitoring recommendations" else
    if id == MaintenanceSchedule then "Recommended maintenance activities and schedules" else
    if id == StatisticalAnalysis then "Comprehensive statistical analysis and significance testing" else
    if id == CorrelationAnalysis then "Correlation patterns between metrics and variables" else
    if id == AnomalyDetection then "Detected anomalies and outlier analysis" else
    if id == PredictiveInsights then "Predictive models and forecasting analysis" else
    "Raw data exports and API endpoints for further analysis"
  }

  function HelpText(id: NodeId): string
  {
    if id == ExecutiveSummary then "Quick overview for decision makers focusing on business impact and strategic implications" else
    if id == TechnicalAnalysis then "In-depth technical analysis for engineers and technical teams" else
    if id == OperationalMetrics then "Operational metrics and alerts for day-to-day system management" else
    if id == DataScience then "Comprehensive statistical analysis and data science insights" else
    if id == AlertsActions then "Important alerts and actionable recommendations requiring immediate attention" else
    if id == BusinessImpact then "Analysis of how system performance affects business objectives and ROI" else
    if id == CapacityPlanning then "Strategic capacity planning and resource allocation recommendations" else
    if id == RiskAssessment then "Risk analysis and recommended mitigation strategies" else
    if id == InvestmentRecommendations then "Strategic investment recommendations for system improvements" else
    if id == PerformanceMetrics then "Comprehensive performance metrics including FPS, latency, and throughput" else
    if id == SystemResources then "Detailed analysis of system resource utilization and bottlenecks" else
    if id == StreamAnalysis then "Detailed analysis of individual stream performance and patterns" else
    if id == ErrorAnalysis then "Comprehensive error analysis and troubleshooting guidance" else
    if id == OptimizationOpportunities then "Technical optimization opportunities and implementation guidance" else
    if id == RealTimeStatus then "Live system status and health monitoring dashboard" else
    if id == SlaCompliance then "SLA compliance metrics and performance against agreed service levels" else
    if id == MonitoringAlerts then "Monitoring setup and alert configuration recommendations" else
    if id == MaintenanceSchedule then "Preventive maintenance schedule and routine operational tasks" else
    if id == StatisticalAnalysis then "Statistical analysis including hypothesis testing and confidence intervals" else
    if id == CorrelationAnalysis then "Analysis of correlations between different performance metrics" else
    if id == AnomalyDetection then "Automated anomaly detection and outlier analysis" else
    if id == PredictiveInsights then "Predictive analysis and forecasting models for capacity planning" else
    "Access to raw data and API endpoints for custom analysis"
  }

  /** level */
  function LevelOf(id: NodeId): nat
  {
    if id == ExecutiveSummary then 0 else
    if id == TechnicalAnalysis then 0 else
    if id == OperationalMetrics then 0 else
    if id == DataScience then 0 else
    if id == AlertsActions then 0 else
    if id == BusinessImpact then 1 else
    if id == CapacityPlanning then 1 else
    if id == RiskAssessment then 1 else
    if id == InvestmentRecommendations then 1 else
    if id == PerformanceMetrics then 1 else
    if id == SystemResources then 1 else
    if id == StreamAnalysis then 1 else
    if id == ErrorAnalysis then 1 else
    if id == OptimizationOpportunities then 1 else
    if id == RealTimeStatus then 1 else
    if id == SlaCompliance then 1 else
    if id == MonitoringAlerts then 1 else
    if id == MaintenanceSchedule then 1 else
    if id == StatisticalAnalysis then 1 else
    if id == CorrelationAnalysis then 1 else
    if id == AnomalyDetection then 1 else
    if id == PredictiveInsights then 1 else
    1
  }

  /** parent_id */
  function ParentOf(id: NodeId): Option<NodeId>
  {
    if id == ExecutiveSummary then None else
    if id == TechnicalAnalysis then None else
    if id == OperationalMetrics then None else
    if id == DataScience then None else
    if id == AlertsActions then None else
    if id == BusinessImpact then Some(ExecutiveSummary) else
    if id == CapacityPlanning then Some(ExecutiveSummary) else
    if id == RiskAssessment then Some(ExecutiveSummary) else
    if id == InvestmentRecommendations then Some(ExecutiveSummary) else
    if id == PerformanceMetrics then Some(TechnicalAnalysis) else
    if id == SystemResources then Some(TechnicalAnalysis) else
    if id == StreamAnalysis then Some(TechnicalAnalysis) else
    if id == ErrorAnalysis then Some(TechnicalAnalysis) else
    if id == OptimizationOpportunities then Some(TechnicalAnalysis) else
    if id == RealTimeStatus then Some(OperationalMetrics) else
    if id == SlaCompliance then Some(OperationalMetrics) else
    if id == MonitoringAlerts then Some(OperationalMetrics) else
    if id == MaintenanceSchedule then Some(OperationalMetrics) else
    if id == StatisticalAnalysis then Some(DataScience) else
    if id == CorrelationAnalysis then Some(DataScience) else
    if id == AnomalyDetection then Some(DataScience) else
    if id == PredictiveInsights then Some(DataScience) else
    Some(DataScience)
  }

  /** priority */
  function PriorityOf(id: NodeId): int
  {
    if id == ExecutiveSummary then 1 else
    if id == TechnicalAnalysis then 1 else
    if id == OperationalMetrics then 1 else
    if id == DataScience then 1 else
    if id == AlertsActions then 1 else
    if id == BusinessImpact then 1 else
    if id == CapacityPlanning then 1 else
    if id == RiskAssessment then 1 else
    if id == InvestmentRecommendations then 2 else
    if id == PerformanceMetrics then 1 else
    if id == SystemResources then 1 else
    if id == StreamAnalysis then 1 else
    if id == ErrorAnalysis then 1 else
    if id == OptimizationOpportunities then 2 else
    if id == RealTimeStatus then 1 else
    if id == SlaCompliance then 1 else
    if id == MonitoringAlerts then 1 else
    if id == MaintenanceSchedule then 2 else
    if id == StatisticalAnalysis then 1 else
    if id == CorrelationAnalysis then 1 else
    if id == AnomalyDetection then 1 else
    if id == PredictiveInsights then 2 else
    2
  }

  /** audience_relevance */
  function AudienceOf(id: NodeId): seq<string>
  {
    if id == ExecutiveSummary then ["executive", "all"] else
    if id == TechnicalAnalysis then ["engineer", "data_scientist", "all"] else
    if id == OperationalMetrics then ["operations", "engineer", "all"] else
    if id == DataScience then ["data_scientist", "analyst", "all"] else
    if id == AlertsActions then ["all"] else
    if id == BusinessImpact then ["executive"] else
    if id == CapacityPlanning then ["executive", "operations"] else
    if id == RiskAssessment then ["executive", "operations"] else
    if id == InvestmentRecommendations then ["executive"] else
    if id == PerformanceMetrics then ["engineer", "data_scientist"] else
    if id == SystemResources then ["engineer", "operations"] else
    if id == StreamAnalysis then ["engineer", "data_scientist"] else
    if id == ErrorAnalysis then ["engineer"] else
    if id == OptimizationOpportunities then ["engineer"] else
    if id == RealTimeStatus then ["operations"] else
    if id == SlaCompliance then ["operations", "executive"] else
    if id == MonitoringAlerts then ["operations"] else
    if id == MaintenanceSchedule then ["operations"] else
    if id == StatisticalAnalysis then ["data_scientist"] else
    if id == CorrelationAnalysis then ["data_scientist"] else
    if id == AnomalyDetection then ["data_scientist", "engineer"] else
    if id == PredictiveInsights then ["data_scientist"] else
    ["data_scientist", "engineer"]
  }

  /** tags */
  function TagsOf(id: NodeId): seq<string>
  {
    if id == ExecutiveSummary then ["summary", "business", "strategic"] else
    if id == TechnicalAnalysis then ["technical", "performance", "engineering"] else
    if id == OperationalMetrics then ["operations", "monitoring", "real-time"] else
    if id == DataScience then ["analytics", "statistics", "data"] else
    if id == AlertsActions then ["alerts", "actions", "critical"] else
    if id == BusinessImpact then ["business", "impact", "roi"] else
    if id == CapacityPlanning then ["capacity", "scaling", "planning"] else
    if id == RiskAssessment then ["risk", "mitigation", "strategy"] else
    if id == InvestmentRecommendations then ["investment", "budget", "roi"] else
    if id == PerformanceMetrics then ["performance", "metrics", "benchmarks"] else
    if id == SystemResources then ["resources", "cpu", "memory", "network"] else
    if id == StreamAnalysis then ["streams", "individual", "behavior"] else
    if id == ErrorAnalysis then ["errors", "troubleshooting", "debugging"] else
    if id == OptimizationOpportunities then ["optimization", "tuning", "improvement"] else
    if id == RealTimeStatus then ["real-time", "status", "health"] else
    if id == SlaCompliance then ["sla", "compliance", "tracking"] else
    if id == MonitoringAlerts then ["monitoring", "alerts", "notifications"] else
    if id == MaintenanceSchedule then ["maintenance", "schedule", "preventive"] else
    if id == StatisticalAnalysis then ["statistics", "analysis", "significance"] else
    if id == CorrelationAnalysis then ["correlation", "patterns", "relationships"] else
    if id == AnomalyDetection then ["anomalies", "outliers", "detection"] else
    if id == PredictiveInsights then ["prediction", "forecasting", "modeling"] else
    ["export", "api", "raw-data"]
  }

  /** Each node as constructed, before any child is attached to it. */
  function Declared(id: NodeId): (n: Node)
    ensures n.id == id && n.children == [] && n.level == LevelOf(id) && n.parentId == ParentOf(id)
  {
    Node(id, Title(id), Description(id), HelpText(id), LevelOf(id), ParentOf(id), [], AudienceOf(id), PriorityOf(id), TagsOf(id))
  }

  /** root_nodes, then executive_children + technical_children + operational_children + data_science_children. */
  const RootOrder: seq<NodeId> := [ExecutiveSummary, TechnicalAnalysis, OperationalMetrics, DataScience, AlertsActions]
  const ExecutiveChildren: seq<NodeId> := [BusinessImpact, CapacityPlanning, RiskAssessment, InvestmentRecommendations]
  const TechnicalChildren: seq<NodeId> := [PerformanceMetrics, SystemResources, StreamAnalysis, ErrorAnalysis, OptimizationOpportunities]
  const OperationalChildren: seq<NodeId> := [RealTimeStatus, SlaCompliance, MonitoringAlerts, MaintenanceSchedule]
  const DataScienceChildren: seq<NodeId> := [StatisticalAnalysis, CorrelationAnalysis, AnomalyDetection, PredictiveInsights, DataExport]
  const ChildOrder: seq<NodeId> := ExecutiveChildren + TechnicalChildren + OperationalChildren + DataScienceChildren

  function DeclaredAll(ids: seq<NodeId>): (r: seq<Node>)
    ensures |r| == |ids| && forall i :: 0 <= i < |ids| ==> r[i] == Declared(ids[i])
  {
    seq(|ids|, i requires 0 <= i < |ids| => Declared(ids[i]))
  }

  const StandardRoots: seq<Node> := DeclaredAll(RootOrder)
  const StandardChildren: seq<Node> := DeclaredAll(ChildOrder)

  /**
   * The shape of the layout: roots then children list the ids in
   * declaration order, so no id is registered twice; roots sit at level 0
   * with no parent, children at level 1 under a root, and nobody has
   * children before registration.
   */
  predicate Layered(roots: seq<Node>, children: seq<Node>)
  {
    && (forall i :: 0 <= i < |roots| ==>
          && roots[i].id == i && roots[i].level == 0
          && roots[i].parentId.None? && roots[i].children == [])
    && (forall i :: 0 <= i < |children| ==>
          && children[i].id == |roots| + i && children[i].level == 1
          && children[i].children == []
          && children[i].parentId.Some? && children[i].parentId.value < |roots|)
  }

  /** The standard layout has that shape. */
  lemma StandardLayered()
    ensures Layered(StandardRoots, StandardChildren)
  {
    RootsLayered();
    ChildrenLayered();
  }

  lemma RootsLayered()
    ensures |RootOrder| == 5
    ensures forall i :: 0 <= i < |RootOrder| ==>
      RootOrder[i] == i && LevelOf(RootOrder[i]) == 0 && ParentOf(RootOrder[i]).None?
  {
  }

  lemma ChildrenLayered()
    ensures forall i :: 0 <= i < |ChildOrder| ==>
      var n := Declared(ChildOrder[i]);
      && n.id == 5 + i && n.level == 1
      && n.parentId.Some? && n.parentId.value < 5
  {
    ExecutiveChildrenLayered();
    TechnicalChildrenLayered();
    OperationalChildrenLayered();
    DataScienceChildrenLayered();
    forall i | 0 <= i < |ChildOrder|
      ensures var n := Declared(ChildOrder[i]);
        n.id == 5 + i && n.level == 1 && n.parentId.Some? && n.parentId.value < 5
    {
      if i < 4 {
        assert ChildOrder[i] == ExecutiveChildren[i];
      } else if i < 9 {
        assert ChildOrder[i] == TechnicalChildren[i - 4];
      } else if i < 13 {
        assert ChildOrder[i] == OperationalChildren[i - 9];
      } else {
        assert ChildOrder[i] == DataScienceChildren[i - 13];
      }
    }
  }

  /** One group of children: consecutive ordinals from `first`, level 1, under a root. */
  predicate GroupShape(group: seq<NodeId>, first: nat)
  {
    forall i :: 0 <= i < |group| ==>
      group[i] == first + i && LevelOf(group[i]) == 1
      && ParentOf(group[i]).Some? && ParentOf(group[i]).value < 5
  }

  lemma ExecutiveChildrenLayered()
    ensures GroupShape(ExecutiveChildren, 5)
  {
  }

  lemma TechnicalChildrenLayered()
    ensures GroupShape(TechnicalChildren, 9)
  {
  }

  lemma OperationalChildrenLayered()
    ensures GroupShape(OperationalChildren, 14)
  {
  }

  lemma DataScienceChildrenLayered()
    ensures GroupShape(DataScienceChildren, 18)
  {
  }
}
