/**
 * The live funnel card: the five wizard steps, each with the number of
 * leads whose latest event is at that step, an activity level, and a bar
 * relative to the busiest step.
 */
module FunnelStepsLive {
  import opened Tally
  import AnalyticsRows
  import RealtimeTracking

  datatype LiveStep = LiveStep(number: int, name: string, description: string)

  /** `steps`. */
  const Steps: seq<LiveStep> := [
    LiveStep(1, "Modalidade", "Escolha do método"),
    LiveStep(2, "Dados Pessoais", "Preenchimento do formulário"),
    LiveStep(3, "Tratamento", "Seleção do produto"),
    LiveStep(4, "Agendamento", "Escolha de data/hora"),
    LiveStep(5, "Revisão", "Finalização do pedido")]

  /** `getStepUsers`: the step's count, 0 for a step the map does not hold. */
  function GetStepUsers(usersByStep: Counts<int>, stepNumber: int): (users: nat)
    requires |usersByStep.counts| == |usersByStep.keys|
    ensures stepNumber !in usersByStep.keys ==> users == 0
    ensures stepNumber in usersByStep.keys ==> users in usersByStep.counts
  {
    Get(usersByStep, stepNumber)
  }

  /**
   * Fed the hook's snapshot, a step's count is the number of leads whose
   * latest event is at that step.
   */
  lemma StepUsersOfSnapshot(data: seq<AnalyticsRows.EventRow>, isUsingFallback: bool, stepNumber: int)
    ensures var s := RealtimeTracking.Snapshot(data, isUsingFallback);
      |s.usersByStep.counts| == |s.usersByStep.keys|
      && GetStepUsers(s.usersByStep, stepNumber)
        == Occurrences(RealtimeTracking.StepKeys(RealtimeTracking.LatestByLead(data).events), stepNumber)
  {
    var ks := RealtimeTracking.StepKeys(RealtimeTracking.LatestByLead(data).events);
    GetOccurrences(CountsFor(ks), ks, stepNumber);
  }

  /**
   * `getStepActivity`: no leads is inactive, three or more is high, one or
   * two is medium; a count is never negative, so 'low' is never returned.
   */
  function GetStepActivity(usersByStep: Counts<int>, stepNumber: int): (activity: string)
    requires |usersByStep.counts| == |usersByStep.keys|
    ensures activity == "inactive" <==> GetStepUsers(usersByStep, stepNumber) == 0
    ensures activity == "high" <==> GetStepUsers(usersByStep, stepNumber) >= 3
    ensures activity == "medium" <==> 1 <= GetStepUsers(usersByStep, stepNumber) <= 2
    ensures activity != "low"
  {
    var users := GetStepUsers(usersByStep, stepNumber);
    if users == 0 then "inactive"
    else if users >= 3 then "high"
    else if users >= 1 then "medium"
    else "low"
  }

  /** `getActivityColor`. */
  function ActivityColor(activity: string): string {
    match activity
    case "high" => "bg-green-500"
    case "medium" => "bg-yellow-500"
    case "low" => "bg-blue-500"
    case _ => "bg-gray-300"
  }

  /** `getActivityText`. */
  function ActivityText(activity: string): string {
    match activity
    case "high" => "Alta atividade"
    case "medium" => "Atividade moderada"
    case "low" => "Baixa atividade"
    case _ => "Inativo"
  }

  /**
   * Colour and text agree: any level the maps do not name, 'inactive'
   * included, is grey and 'Inativo'; each named level has its own colour
   * and text; and a step never shows the blue of 'low'.
   */
  lemma ActivityStyles(activity: string, usersByStep: Counts<int>, stepNumber: int)
    requires |usersByStep.counts| == |usersByStep.keys|
    ensures activity != "high" && activity != "medium" && activity != "low" ==>
      ActivityColor(activity) == "bg-gray-300" && ActivityText(activity) == "Inativo"
    ensures ActivityColor(activity) == "bg-gray-300" <==> ActivityText(activity) == "Inativo"
    ensures ActivityColor(GetStepActivity(usersByStep, stepNumber)) != "bg-blue-500"
    ensures ActivityText(GetStepActivity(usersByStep, stepNumber)) == "Inativo"
      <==> GetStepUsers(usersByStep, stepNumber) == 0
  {
  }

  /** `Math.max(...usersByStep.values(), 1)`. */
  function MaxUsers(values: seq<nat>): (m: nat)
    ensures m >= 1
    ensures forall i :: 0 <= i < |values| ==> values[i] <= m
    ensures m == 1 || m in values
  {
    if values == [] then 1
    else
      var rest := MaxUsers(values[1..]);
      if values[0] > rest then values[0] else rest
  }

  /** `maxUsers > 0 ? (users / maxUsers) * 100 : 0`. */
  function Progress(users: nat, maxUsers: nat): real {
    if maxUsers > 0 then (users as real / maxUsers as real) * 100.0 else 0.0
  }

  /**
   * The bar of every step lies between 0 and 100, the busiest step's bar
   * is full, and an inactive step's bar is empty.
   */
  lemma ProgressBounded(usersByStep: Counts<int>, stepNumber: int)
    requires |usersByStep.counts| == |usersByStep.keys|
    ensures var users, maxUsers := GetStepUsers(usersByStep, stepNumber), MaxUsers(usersByStep.counts);
      0.0 <= Progress(users, maxUsers) <= 100.0
      && (users == maxUsers ==> Progress(users, maxUsers) == 100.0)
      && (users == 0 ==> Progress(users, maxUsers) == 0.0)
  {
    var users, maxUsers := GetStepUsers(usersByStep, stepNumber), MaxUsers(usersByStep.counts);
    if stepNumber in usersByStep.keys {
      var i :| 0 <= i < |usersByStep.counts| && usersByStep.counts[i] == users;
    }
    ShareBounded(users, maxUsers);
  }

  lemma ShareBounded(part: nat, whole: nat)
    requires part <= whole && whole >= 1
    ensures 0.0 <= Progress(part, whole) <= 100.0
    ensures part == whole ==> Progress(part, whole) == 100.0
  {
    var p, w := part as real, whole as real;
    var q := p / w;
    assert q * w == p;
    assert (1.0 - q) * w == w - p;
    assert 0.0 <= q <= 1.0;
    if part == whole {
      assert q == 1.0;
    }
  }
}
