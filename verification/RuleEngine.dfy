/** The auto-remediation rule engine as it updates its state (internal/rules/engine.go). */
module RuleEngine {
  import opened Basics

  const SECOND: int := 1_000_000_000   // nanoseconds

  datatype Disk = Disk(mount: string, usedPercent: real)

  datatype Metrics = Metrics(
    cpu: real,
    ramUsed: nat, ramTotal: nat,
    swapUsed: nat, swapTotal: nat,
    load1: real, load5: real, load15: real,
    disks: seq<Disk>)

  /** A reading of the clock: nanoseconds, the calendar day, and its day of the year. */
  datatype Clock = Clock(now: int, day: int, yearDay: int)

  datatype RuleDefinition = RuleDefinition(
    ruleID: string,
    enabled: bool,
    metric: string,
    op: string,
    threshold: real,
    durationSeconds: int,
    cooldownSeconds: int,
    maxPerDay: int)

  function Percent(used: nat, total: nat): real
    requires total > 0
  {
    used as real / total as real * 100.0
  }

  const DISK_PREFIX := "disk_"

  function FindDisk(disks: seq<Disk>, mount: string): Option<real> {
    if disks == [] then None
    else if disks[0].mount == mount then Some(disks[0].usedPercent)
    else FindDisk(disks[1..], mount)
  }

  /** extractMetric. */
  function MetricValue(m: Metrics, name: string): Option<real> {
    if name == "cpu" then Some(m.cpu)
    else if name == "ram" then (if m.ramTotal == 0 then None else Some(Percent(m.ramUsed, m.ramTotal)))
    else if name == "swap" then (if m.swapTotal == 0 then None else Some(Percent(m.swapUsed, m.swapTotal)))
    else if name == "load_1m" then Some(m.load1)
    else if name == "load_5m" then Some(m.load5)
    else if name == "load_15m" then Some(m.load15)
    else if |name| > |DISK_PREFIX| && DISK_PREFIX <= name then FindDisk(m.disks, name[|DISK_PREFIX|..])
    else None
  }

  /** The processor and the loads are their own fields. */
  lemma FieldMetrics(m: Metrics)
    ensures MetricValue(m, "cpu") == Some(m.cpu)
    ensures MetricValue(m, "load_1m") == Some(m.load1)
    ensures MetricValue(m, "load_5m") == Some(m.load5)
    ensures MetricValue(m, "load_15m") == Some(m.load15)
  {
  }

  /** Memory and swap are percentages of their own totals, told without division. */
  lemma UsageMetrics(m: Metrics)
    ensures MetricValue(m, "ram").None? <==> m.ramTotal == 0
    ensures m.ramTotal > 0 ==> MetricValue(m, "ram").value * m.ramTotal as real == 100.0 * m.ramUsed as real
    ensures MetricValue(m, "swap").None? <==> m.swapTotal == 0
    ensures m.swapTotal > 0 ==> MetricValue(m, "swap").value * m.swapTotal as real == 100.0 * m.swapUsed as real
  {
    PercentIsShare(m.ramUsed, m.ramTotal);
    PercentIsShare(m.swapUsed, m.swapTotal);
  }

  lemma PercentIsShare(used: nat, total: nat)
    ensures total > 0 ==> Percent(used, total) * total as real == 100.0 * used as real
  {
    if total > 0 {
      var t := total as real;
      assert used as real / t * t == used as real;
      assert used as real / t * 100.0 * t == used as real / t * t * 100.0;
    }
  }

  lemma {:induction false} FirstDiskDecides(disks: seq<Disk>, mount: string)
    ensures FindDisk(disks, mount).None? <==> forall k :: 0 <= k < |disks| ==> disks[k].mount != mount
    ensures FindDisk(disks, mount).Some? ==>
              exists k :: 0 <= k < |disks| && disks[k].mount == mount && FindDisk(disks, mount).value == disks[k].usedPercent
                          && forall i :: 0 <= i < k ==> disks[i].mount != mount
  {
    if disks != [] && disks[0].mount != mount {
      var rest := disks[1..];
      FirstDiskDecides(rest, mount);
      assert forall k :: 0 <= k < |rest| ==> rest[k] == disks[k + 1];
      if FindDisk(rest, mount).Some? {
        var k :| 0 <= k < |rest| && rest[k].mount == mount && FindDisk(rest, mount).value == rest[k].usedPercent
                 && forall i :: 0 <= i < k ==> rest[i].mount != mount;
        assert disks[k + 1].mount == mount;
        assert forall i :: 0 < i < k + 1 ==> disks[i] == rest[i - 1];
      }
    }
  }

  /** "disk_" and a mount point name the first disk mounted there. */
  lemma DiskMetric(m: Metrics, mount: string)
    requires mount != ""
    ensures var v := MetricValue(m, "disk_" + mount);
            && (v.None? <==> forall k :: 0 <= k < |m.disks| ==> m.disks[k].mount != mount)
            && (v.Some? ==>
                  exists k :: 0 <= k < |m.disks| && m.disks[k].mount == mount && v.value == m.disks[k].usedPercent
                              && forall i :: 0 <= i < k ==> m.disks[i].mount != mount)
  {
    var name := "disk_" + mount;
    assert name[|DISK_PREFIX|..] == mount && name[0] == 'd';
    assert name != "cpu" && name != "ram" && name != "swap" && name != "load_1m" && name != "load_5m" && name != "load_15m";
    FirstDiskDecides(m.disks, mount);
  }

  /** No other name has a value. */
  lemma OtherNamesAreDisks(m: Metrics, name: string) returns (mount: string)
    requires name !in ["cpu", "ram", "swap", "load_1m", "load_5m", "load_15m"] && MetricValue(m, name).Some?
    ensures mount != "" && name == "disk_" + mount
  {
    mount := name[|DISK_PREFIX|..];
  }

  /** extractMetric with its search loop: the first disk with the mount point decides. */
  method ExtractMetric(m: Metrics, name: string) returns (value: Option<real>)
    ensures value == MetricValue(m, name)
  {
    match name {
      case "cpu" => return Some(m.cpu);
      case "ram" =>
        if m.ramTotal == 0 {
          return None;
        }
        return Some(Percent(m.ramUsed, m.ramTotal));
      case "swap" =>
        if m.swapTotal == 0 {
          return None;
        }
        return Some(Percent(m.swapUsed, m.swapTotal));
      case "load_1m" => return Some(m.load1);
      case "load_5m" => return Some(m.load5);
      case "load_15m" => return Some(m.load15);
      case _ =>
    }
    if |name| > |DISK_PREFIX| && name[..|DISK_PREFIX|] == DISK_PREFIX {
      var mount := name[|DISK_PREFIX|..];
      for k := 0 to |m.disks|
        invariant FindDisk(m.disks, mount) == FindDisk(m.disks[k..], mount)
      {
        if m.disks[k].mount == mount {
          return Some(m.disks[k].usedPercent);
        }
        assert m.disks[k..][1..] == m.disks[k + 1..];
      }
      return None;
    }
    return None;
  }

  function EvalOp(value: real, op: string, threshold: real): bool {
    if op == ">" then value > threshold
    else if op == ">=" then value >= threshold
    else if op == "<" then value < threshold
    else if op == "<=" then value <= threshold
    else if op == "==" then value == threshold
    else false
  }

  /** At equal values exactly ">=", "<=" and "==" hold. */
  lemma OperatorsAtEqual(x: real)
    ensures EvalOp(x, ">=", x) && EvalOp(x, "<=", x) && EvalOp(x, "==", x) && !EvalOp(x, "<", x) && !EvalOp(x, ">", x)
  {
  }

  /** At different values exactly one of "<" and ">" holds, and the others follow it. */
  lemma OperatorsApart(x: real, y: real)
    requires x != y
    ensures !EvalOp(x, "==", y)
    ensures EvalOp(x, "<", y) <==> !EvalOp(x, ">", y)
    ensures EvalOp(x, "<=", y) <==> EvalOp(x, "<", y)
    ensures EvalOp(x, ">=", y) <==> EvalOp(x, ">", y)
  {
  }

  /** "<" is kept when the value falls and ">" when it rises; each holds somewhere. */
  lemma OperatorsAreMonotone(x: real, x': real, y: real)
    ensures EvalOp(x, "<", y) && x' <= x ==> EvalOp(x', "<", y)
    ensures EvalOp(x, ">", y) && x' >= x ==> EvalOp(x', ">", y)
    ensures EvalOp(y - 1.0, "<", y) && EvalOp(y + 1.0, ">", y)
  {
  }

  lemma UnknownOperatorNeverHolds(x: real, op: string, y: real)
    requires op !in [">", ">=", "<", "<=", "=="]
    ensures !EvalOp(x, op, y)
  {
  }

  // ─── One rule, one evaluation ────────────────────────────────────────────────

  /** The per-rule state; the zero time is None. */
  datatype State = State(since: Option<int>, lastFired: Option<int>, firedToday: int, lastFiredDay: int)

  const FRESH := State(None, None, 0, 0)

  /** One evaluation of a rule that yielded a value. */
  datatype Obs = Obs(at: Clock, met: bool, durationSeconds: int, cooldownSeconds: int, maxPerDay: int)

  /** The state after the evaluation, and whether the rule fires. */
  function Step(st: State, o: Obs): (State, bool) {
    if !o.met then
      (st.(since := None), false)
    else
      var st1 := if st.since.None? then st.(since := Some(o.at.now)) else st;
      if o.at.now - st1.since.value < o.durationSeconds * SECOND then
        (st1, false)
      else if st1.lastFired.Some? && o.at.now - st1.lastFired.value < o.cooldownSeconds * SECOND then
        (st1, false)
      else
        var st2 := if o.maxPerDay > 0 && st1.lastFiredDay != o.at.yearDay
                   then st1.(firedToday := 0, lastFiredDay := o.at.yearDay) else st1;
        if o.maxPerDay > 0 && st2.firedToday >= o.maxPerDay then
          (st2, false)
        else
          (State(None, Some(o.at.now), st2.firedToday + 1, st2.lastFiredDay), true)
  }

  /** What a rule's turn in Evaluate observes; nothing when it is disabled or has no value. */
  function Observe(r: RuleDefinition, m: Metrics, at: Clock): Option<Obs> {
    if !r.enabled then None
    else match MetricValue(m, r.metric)
         case None => None
         case Some(v) => Some(Obs(at, EvalOp(v, r.op, r.threshold), r.durationSeconds, r.cooldownSeconds, r.maxPerDay))
  }

  datatype Fired = Fired(ruleID: string, now: int)

  function StateOf(states: map<string, State>, id: string): State {
    if id in states then states[id] else FRESH
  }

  /** One rule's turn on the states of all. */
  function TurnOf(states: map<string, State>, id: string, o: Obs): (map<string, State>, bool) {
    var (st, fires) := Step(StateOf(states, id), o);
    (states[id := st], fires)
  }

  /** One pass over the rules, in order. */
  function EvalRules(states: map<string, State>, rules: seq<RuleDefinition>, m: Metrics, at: Clock)
      : (map<string, State>, seq<Fired>)
    decreases |rules|
  {
    if rules == [] then (states, [])
    else match Observe(rules[0], m, at)
         case None => EvalRules(states, rules[1..], m, at)
         case Some(o) =>
           var id := rules[0].ruleID;
           var (st, fires) := Step(StateOf(states, id), o);
           var (states', fired) := EvalRules(states[id := st], rules[1..], m, at);
           (states', (if fires then [Fired(id, at.now)] else []) + fired)
  }

  // ─── The engine's objects ────────────────────────────────────────────────────

  class RuleState {
    var conditionSince: Option<int>
    var lastFired: Option<int>
    var firedToday: int
    var lastFiredDay: int

    constructor ()
      ensures View() == FRESH
    {
      conditionSince, lastFired, firedToday, lastFiredDay := None, None, 0, 0;
    }

    function View(): State
      reads this
    {
      State(conditionSince, lastFired, firedToday, lastFiredDay)
    }

    /** The part of Evaluate between the engine's lock and unlock. */
    method Turn(o: Obs) returns (fires: bool)
      modifies this
      ensures (View(), fires) == Step(old(View()), o)
    {
      fires := false;
      if o.met {
        if conditionSince.None? {
          conditionSince := Some(o.at.now);
        }
      } else {
        conditionSince := None;
        return;
      }
      var condDuration := o.at.now - conditionSince.value;
      var minDuration := o.durationSeconds * SECOND;
      if condDuration < minDuration {
        return;
      }
      if lastFired.Some? && o.at.now - lastFired.value < o.cooldownSeconds * SECOND {
        return;
      }
      if o.maxPerDay > 0 {
        if lastFiredDay != o.at.yearDay {
          firedToday := 0;
          lastFiredDay := o.at.yearDay;
        }
        if firedToday >= o.maxPerDay {
          return;
        }
      }
      lastFired := Some(o.at.now);
      firedToday := firedToday + 1;
      conditionSince := None;
      fires := true;
    }
  }

  class Engine {
    var rules: seq<RuleDefinition>
    var state: map<string, RuleState>

    /** Every rule has a state object of its own. */
    ghost predicate Valid()
      reads this
    {
      forall i, j :: i in state && j in state && i != j ==> state[i] != state[j]
    }

    ghost function States(): map<string, State>
      reads this, state.Values
    {
      map id | id in state :: state[id].View()
    }

    constructor ()
      ensures Valid() && rules == [] && States() == map[]
    {
      rules, state := [], map[];
    }

    /** Sync replaces the rules and keeps every rule's state. */
    method Sync(newRules: seq<RuleDefinition>)
      requires Valid()
      modifies this`rules
      ensures Valid() && rules == newRules && States() == old(States())
    {
      rules := newRules;
    }

    /** The state object of the rule, created on first use. */
    method StateFor(id: string) returns (st: RuleState)
      requires Valid()
      modifies this`state
      ensures Valid() && id in state && state[id] == st
      ensures state.Values <= old(state.Values) + {st} && (st in old(state.Values) || fresh(st))
      ensures States() == old(States())[id := StateOf(old(States()), id)]
    {
      if id !in state {
        st := new RuleState();
        state := state[id := st];
      } else {
        st := state[id];
      }
    }

    method Observed(id: string, o: Obs) returns (fires: bool)
      requires Valid()
      modifies this`state, state.Values
      ensures Valid() && fresh(state.Values - old(state.Values))
      ensures var r := Step(StateOf(old(States()), id), o);
              States() == old(States())[id := r.0] && fires == r.1
    {
      ghost var before := States();
      var st := StateFor(id);
      ghost var found := States();
      fires := TurnAt(id, st, o);
      assert found[id] == StateOf(before, id);
      assert before[id := found[id]][id := Step(found[id], o).0] == before[id := Step(found[id], o).0];
    }

    /** Only the rule's own state object changes. */
    method TurnAt(id: string, st: RuleState, o: Obs) returns (fires: bool)
      requires Valid() && id in state && state[id] == st
      modifies st
      ensures Valid()
      ensures States() == old(States())[id := Step(old(States()[id]), o).0]
      ensures fires == Step(old(States()[id]), o).1
    {
      fires := st.Turn(o);
      forall i | i in state && i != id ensures state[i].View() == old(state[i].View()) {
        assert state[i] != st;
      }
    }

    /** One rule's turn of the loop in Evaluate. */
    method EvaluateRule(r: RuleDefinition, m: Metrics, at: Clock) returns (fires: bool)
      requires Valid()
      modifies this`state, state.Values
      ensures Valid() && fresh(state.Values - old(state.Values))
      ensures match Observe(r, m, at)
              case None => States() == old(States()) && !fires
              case Some(o) => (States(), fires) == TurnOf(old(States()), r.ruleID, o)
    {
      if !r.enabled {
        return false;
      }
      var value := ExtractMetric(m, r.metric);
      if value.None? {
        return false;
      }
      var condMet := EvalOp(value.value, r.op, r.threshold);
      fires := Observed(r.ruleID, Obs(at, condMet, r.durationSeconds, r.cooldownSeconds, r.maxPerDay));
    }

    /** Evaluate: one pass over the rules, in order. */
    method Evaluate(m: Metrics, at: Clock) returns (fired: seq<Fired>)
      requires Valid()
      modifies this`state, state.Values
      ensures Valid() && fresh(state.Values - old(state.Values))
      ensures (States(), fired) == EvalRules(old(States()), rules, m, at)
    {
      var todo := rules;
      fired := [];
      for k := 0 to |todo|
        invariant Valid() && fresh(state.Values - old(state.Values))
        invariant EvalRules(old(States()), todo, m, at).0 == EvalRules(States(), todo[k..], m, at).0
        invariant EvalRules(old(States()), todo, m, at).1 == fired + EvalRules(States(), todo[k..], m, at).1
      {
        var r := todo[k];
        assert todo[k..][0] == r && todo[k..][1..] == todo[k + 1..];
        var fires := EvaluateRule(r, m, at);
        if fires {
          fired := fired + [Fired(r.ruleID, at.now)];
        }
      }
      assert todo[|todo|..] == [] && fired + [] == fired;
    }
  }
}
