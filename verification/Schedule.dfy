/** schedule.py: what a test schedule is and when it is valid. */
module Schedule {

  datatype Step = Step(name: string, expectedState: string, circuitAction: string, timeoutS: real,
                       sequence: int, frequency: real, onTimeout: string)

  datatype Schedule = Schedule(name: string, steps: seq<Step>, repeat: int, defaultOnTimeout: string)

  const CIRCUIT_ACTIONS := ["idle", "charge", "discharge", "pulse_charge"]
  const EXPECTED_STATES := ["cc_charge", "cv_charge", "rest", "discharge"]
  const ON_TIMEOUT := ["wait", "advance", "abort"]

  datatype Fault = NoName | BadState | BadAction | BadTimeout | BadSequence | BadFrequency | BadOnTimeout

  datatype Problem = NameMissing | NoSteps | BadRepeat | BadDefault | StepProblem(index: nat, fault: Fault)

  predicate Has(s: Step, fault: Fault) {
    match fault
    case NoName => s.name == ""
    case BadState => s.expectedState !in EXPECTED_STATES
    case BadAction => s.circuitAction !in CIRCUIT_ACTIONS
    case BadTimeout => s.timeoutS <= 0.0
    case BadSequence => s.circuitAction == "charge" && !(0 <= s.sequence <= 7)
    case BadFrequency => s.circuitAction == "charge" && s.frequency <= 0.0
    case BadOnTimeout => s.onTimeout !in ON_TIMEOUT
  }

  predicate HasProblem(s: Schedule, p: Problem) {
    match p
    case NameMissing => s.name == ""
    case NoSteps => s.steps == []
    case BadRepeat => s.repeat < 1
    case BadDefault => s.defaultOnTimeout !in ON_TIMEOUT
    case StepProblem(i, fault) => i < |s.steps| && Has(s.steps[i], fault)
  }

  ghost predicate Valid(s: Schedule)
    ensures Valid(s) ==> s.steps != []
  {
    assert HasProblem(s, NoSteps) <==> s.steps == [];
    forall p :: !HasProblem(s, p)
  }

  predicate IsSound(s: Step) {
    && s.name != "" && s.timeoutS > 0.0
    && s.circuitAction in ["idle", "charge", "discharge", "pulse_charge"]
    && s.expectedState in ["cc_charge", "cv_charge", "rest", "discharge"]
    && s.onTimeout in ["wait", "advance", "abort"]
    && (s.circuitAction == "charge" ==> s.sequence in [0, 1, 2, 3, 4, 5, 6, 7] && s.frequency > 0.0)
  }

  /** What a schedule without problems looks like. */
  lemma ValidMeans(s: Schedule)
    ensures Valid(s) <==>
      && s.name != "" && s.steps != [] && s.repeat >= 1 && s.defaultOnTimeout in ["wait", "advance", "abort"]
      && forall k :: 0 <= k < |s.steps| ==> IsSound(s.steps[k])
  {
    if Valid(s) {
      assert !HasProblem(s, NameMissing) && !HasProblem(s, BadRepeat) && !HasProblem(s, BadDefault);
      forall k | 0 <= k < |s.steps|
        ensures IsSound(s.steps[k])
      {
        forall fault: Fault
          ensures !Has(s.steps[k], fault)
        {
          assert !HasProblem(s, StepProblem(k, fault));
        }
        SoundMeans(s.steps[k]);
      }
    } else {
      var p :| HasProblem(s, p);
      if p.StepProblem? && IsSound(s.steps[p.index]) {
        SoundMeans(s.steps[p.index]);
      }
    }
  }

  lemma SoundMeans(s: Step)
    ensures IsSound(s) <==> forall fault: Fault :: !Has(s, fault)
  {
    assert Has(s, NoName) <==> s.name == "";
    assert Has(s, BadState) <==> s.expectedState !in EXPECTED_STATES;
    assert Has(s, BadAction) <==> s.circuitAction !in CIRCUIT_ACTIONS;
    assert Has(s, BadTimeout) <==> s.timeoutS <= 0.0;
    assert Has(s, BadSequence) <==> s.circuitAction == "charge" && !(0 <= s.sequence <= 7);
    assert Has(s, BadFrequency) <==> s.circuitAction == "charge" && s.frequency <= 0.0;
    assert Has(s, BadOnTimeout) <==> s.onTimeout !in ON_TIMEOUT;
  }

  method StepProblems(s: Step, i: nat) returns (problems: seq<Problem>)
    ensures forall p :: p in problems <==> p.StepProblem? && p.index == i && Has(s, p.fault)
  {
    problems := [];
    if s.name == "" {
      problems := problems + [StepProblem(i, NoName)];
    }
    if s.expectedState !in EXPECTED_STATES {
      problems := problems + [StepProblem(i, BadState)];
    }
    if s.circuitAction !in CIRCUIT_ACTIONS {
      problems := problems + [StepProblem(i, BadAction)];
    }
    if s.timeoutS <= 0.0 {
      problems := problems + [StepProblem(i, BadTimeout)];
    }
    if s.circuitAction == "charge" {
      if !(0 <= s.sequence <= 7) {
        problems := problems + [StepProblem(i, BadSequence)];
      }
      if s.frequency <= 0.0 {
        problems := problems + [StepProblem(i, BadFrequency)];
      }
    }
    if s.onTimeout !in ON_TIMEOUT {
      problems := problems + [StepProblem(i, BadOnTimeout)];
    }
  }

  /** Every problem there is, and no other; none exactly for a valid schedule. */
  method ValidateSchedule(s: Schedule) returns (problems: seq<Problem>)
    ensures forall p :: p in problems <==> HasProblem(s, p)
    ensures problems == [] <==> Valid(s)
  {
    problems := [];
    if s.name == "" {
      problems := problems + [NameMissing];
    }
    if s.steps == [] {
      problems := problems + [NoSteps];
    }
    if s.repeat < 1 {
      problems := problems + [BadRepeat];
    }
    for i := 0 to |s.steps|
      invariant forall p :: p in problems <==>
        !p.BadDefault? && HasProblem(s, p) && (p.StepProblem? ==> p.index < i)
    {
      var more := StepProblems(s.steps[i], i);
      problems := problems + more;
    }
    if s.defaultOnTimeout !in ON_TIMEOUT {
      problems := problems + [BadDefault];
    }
    assert problems != [] ==> problems[0] in problems;
  }
}
