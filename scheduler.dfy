/** One prediction cycle of `run_expert_system` and the edge-triggered marker
    `current_running_period` that keeps a period from being announced twice. */
module Scheduler {
  import opened Wrappers
  import opened PageText
  import opened Scanner
  import opened Prediction

  /** What a cycle hands to the messaging channel: the running period and the decision for it. */
  datatype Notice = Notice(period: string, decision: Decision)

  /** The outcome of one edge-trigger step: whether to send, and the marker kept afterwards. */
  datatype Step = Step(send: bool, marker: Option<string>)

  /** `if current_period and current_period != self.current_running_period`:
      send, and remember the period, only for a new non-empty period. */
  function Trigger(marker: Option<string>, current: Option<string>): Step {
    if current.Some? && current.value != "" && current != marker then Step(true, current)
    else Step(false, marker)
  }

  /** Seeing the same period again right after a step sends nothing and keeps the marker. */
  lemma TriggerIdempotent(marker: Option<string>, current: Option<string>)
    ensures var s := Trigger(marker, current);
      Trigger(s.marker, current) == Step(false, s.marker)
  {
  }

  /** The number of messages sent while observing the periods `observed` in order. */
  function Sends(marker: Option<string>, observed: seq<Option<string>>): nat
    decreases |observed|
  {
    if |observed| == 0 then 0
    else
      var s := Trigger(marker, observed[0]);
      (if s.send then 1 else 0) + Sends(s.marker, observed[1..])
  }

  /** The number of places where an observed period differs from the one before it. */
  function Changes(observed: seq<Option<string>>): nat {
    if |observed| < 2 then 0
    else (if observed[0] != observed[1] then 1 else 0) + Changes(observed[1..])
  }

  /** A message is sent only on the first observation or where the period changed. */
  lemma {:induction false} SendsNeedChanges(marker: Option<string>, observed: seq<Option<string>>)
    ensures Sends(marker, observed) <=
      (if |observed| > 0 && Trigger(marker, observed[0]).send then 1 else 0) + Changes(observed)
    decreases |observed|
  {
    if |observed| > 1 {
      var s := Trigger(marker, observed[0]);
      SendsNeedChanges(s.marker, observed[1..]);
      if observed[1] == observed[0] {
        TriggerIdempotent(marker, observed[0]);
      }
    }
  }

  /** The same period observed in consecutive cycles is announced at most once. */
  lemma RepeatedPeriodSentOnce(marker: Option<string>, observed: seq<Option<string>>)
    requires forall k :: 0 <= k < |observed| ==> observed[k] == observed[0]
    ensures Sends(marker, observed) <= 1
  {
    SendsNeedChanges(marker, observed);
    NoChanges(observed);
  }

  lemma {:induction false} NoChanges(observed: seq<Option<string>>)
    requires forall k :: 0 <= k < |observed| ==> observed[k] == observed[0]
    ensures Changes(observed) == 0
  {
    if |observed| >= 2 {
      NoChanges(observed[1..]);
    }
  }

  /** The state that persists across cycles: the last period announced. */
  class ExpertSystem {
    var currentRunningPeriod: Option<string>

    constructor ()
      ensures currentRunningPeriod == None
    {
      currentRunningPeriod := None;
    }

    /** One cycle's prediction and notification step: predict from the training
        data, read the running period off the page, and announce it if it is new. */
    method Cycle(pageText: string, trainingData: seq<Category>) returns (notice: Option<Notice>)
      modifies this
      ensures Step(notice.Some?, currentRunningPeriod) ==
        Trigger(old(currentRunningPeriod), FirstPeriod(Split(pageText)))
      ensures notice.Some? ==>
        notice.value == Notice(currentRunningPeriod.value, QuantumPredictionEngine(trainingData))
    {
      var decision := QuantumPredictionEngine(trainingData);
      var current := GetCurrentPeriod(pageText);
      if current.Some? && current.value != "" && current != currentRunningPeriod {
        notice := Some(Notice(current.value, decision));
        currentRunningPeriod := current;
      } else {
        notice := None;
      }
    }
  }

  /** Two consecutive cycles whose pages show the same running period send at
      most one message: the second one sends nothing. */
  method TwoCyclesSamePeriod(system: ExpertSystem, page1: string, page2: string,
                             data1: seq<Category>, data2: seq<Category>)
    returns (first: Option<Notice>, second: Option<Notice>)
    requires FirstPeriod(Split(page1)) == FirstPeriod(Split(page2))
    modifies system
    ensures second.None?
  {
    first := system.Cycle(page1, data1);
    TriggerIdempotent(old(system.currentRunningPeriod), FirstPeriod(Split(page1)));
    second := system.Cycle(page2, data2);
  }
}
