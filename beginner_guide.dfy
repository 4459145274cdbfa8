/**
 * The step list of project/src/components/UserLevel/BeginnerGuide.tsx: which
 * marker each step shows, and the single "start" button on the first step not
 * yet completed.
 */
module BeginnerGuide {
  import opened Collections

  datatype Step = Step(id: nat, title: string, description: string, completed: bool)

  const Steps: seq<Step> := [
    Step(1, "eBayアカウント作成", "eBayセラーアカウントを作成し、基本情報を入力します", true),
    Step(2, "商品リサーチ", "推奨商品から低リスクで高利益の商品を選びます", true),
    Step(3, "仕入れ・出品", "商品を仕入れてeBayに出品します", false),
    Step(4, "発送・顧客対応", "注文が入ったら商品を発送し、顧客対応を行います", false),
    Step(5, "売上分析・改善", "売上データを分析し、次の商品選定に活かします", false)
  ]

  function Incomplete(): Step -> bool
  {
    (s: Step) => !s.completed
  }

  /**
   * `!step.completed && index === steps.findIndex(s => !s.completed)`: the
   * button is drawn exactly on an incomplete step all of whose predecessors
   * are complete.
   */
  function HasStartButton(steps: seq<Step>, index: int): (shown: bool)
    requires 0 <= index < |steps|
    ensures shown <==> !steps[index].completed && forall j :: 0 <= j < index ==> steps[j].completed
  {
    !steps[index].completed && index == FindIndex(steps, Incomplete())
  }

  /**
   * No other step has a button besides the one that does, and when every
   * step is complete there is no button at all.
   */
  lemma AtMostOneStartButton(steps: seq<Step>, index: int)
    requires 0 <= index < |steps|
    ensures HasStartButton(steps, index) ==> forall other :: 0 <= other < |steps| && other != index ==> !HasStartButton(steps, other)
    ensures (forall j :: 0 <= j < |steps| ==> steps[j].completed) ==> !HasStartButton(steps, index)
  {
  }

  /** The marker beside a step: a check mark once completed, otherwise the step's number. */
  datatype Marker = CheckMark | Number(n: nat)

  function MarkerFor(step: Step): (marker: Marker)
    ensures marker == CheckMark <==> step.completed
    ensures marker.Number? ==> marker.n == step.id
  {
    if step.completed then CheckMark else Number(step.id)
  }

  /** With the guide's own list, the button sits on step 3, 仕入れ・出品. */
  lemma StartButtonOnThirdStep()
    ensures HasStartButton(Steps, 2)
    ensures forall i :: 0 <= i < |Steps| && i != 2 ==> !HasStartButton(Steps, i)
  {
  }
}
