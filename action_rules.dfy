/**
 * Threshold rules: an ordered list of (comparator, value) pairs checked
 * against a count, and an action fired for every counted key whose count
 * satisfies some rule.
 */
module Rules {
  import opened Wrappers
  import opened Counting

  /** The comparators of Python's `operator` module that a rule may use. */
  datatype Op = Lt | Le | Gt | Ge | Eq | Ne {
    /** `op(a, b)`, e.g. `operator.gt(a, b)` is `a > b`. */
    predicate Apply(a: int, b: int)
    {
      match this
      case Lt => a < b
      case Le => a <= b
      case Gt => a > b
      case Ge => a >= b
      case Eq => a == b
      case Ne => a != b
    }
  }

  /** The pair `[op, value]` that `addRule` appends. */
  datatype Rule = Rule(op: Op, value: int) {
    predicate Holds(v: int)
    {
      op.Apply(v, value)
    }
  }

  /** Whether any rule holds for `v`. */
  ghost predicate AnyHolds(rules: seq<Rule>, v: int)
  {
    exists i :: 0 <= i < |rules| && rules[i].Holds(v)
  }

  /** The position of the first rule, in insertion order, that holds for `v`. */
  function FirstSatisfied(rules: seq<Rule>, v: int): (r: Option<nat>)
    ensures r.Some? <==> AnyHolds(rules, v)
    ensures r.Some? ==> r.value < |rules| && rules[r.value].Holds(v)
    ensures r.Some? ==> forall j :: 0 <= j < r.value ==> !rules[j].Holds(v)
  {
    if rules == [] then None
    else if rules[0].Holds(v) then Some(0)
    else
      match FirstSatisfied(rules[1..], v)
      case None => None
      case Some(i) => Some(i + 1)
  }

  /**
   * Appending a rule never changes which rule decides a value that some
   * earlier rule already decided; it can only decide values no earlier
   * rule held for.
   */
  lemma {:induction false} FirstSatisfiedAppend(rules: seq<Rule>, r: Rule, v: int)
    ensures FirstSatisfied(rules + [r], v) ==
              if FirstSatisfied(rules, v).Some? then FirstSatisfied(rules, v)
              else if r.Holds(v) then Some(|rules|)
              else None
    decreases |rules|
  {
    if rules == [] {
      assert rules + [r] == [r];
    } else {
      assert (rules + [r])[0] == rules[0];
      assert (rules + [r])[1..] == rules[1..] + [r];
      FirstSatisfiedAppend(rules[1..], r, v);
    }
  }

  /** No key occurs twice. */
  predicate NoDuplicates(s: seq<string>)
  {
    forall i, j :: 0 <= i < j < |s| ==> s[i] != s[j]
  }

  /** The class attribute `ActionRules.rules`: one list shared by every ActionRules object. */
  class RuleStore {
    var rules: seq<Rule>

    constructor()
      ensures rules == []
    {
      rules := [];
    }
  }

  /** The action to fire. Its external effect is recorded as a log of the keys it was executed with. */
  class Action {
    ghost var log: seq<string>

    constructor()
      ensures log == []
    {
      log := [];
    }

    method Execute(key: string)
      modifies this
      ensures log == old(log) + [key]
    {
      log := log + [key];
    }
  }

  class ActionRules {
    const action: Action
    const shared: RuleStore

    /** Binding an action does not touch the shared rule list. */
    constructor(action: Action, shared: RuleStore)
      ensures this.action == action && this.shared == shared
    {
      this.action := action;
      this.shared := shared;
    }

    method AddRule(op: Op, value: int)
      modifies shared
      ensures shared.rules == old(shared.rules) + [Rule(op, value)]
    {
      shared.rules := shared.rules + [Rule(op, value)];
    }

    /**
     * Whether any rule holds for `v`. `evaluated` is the number of rules
     * whose comparator was applied: the search stops at the first rule that
     * holds.
     */
    method Fire(v: int) returns (fired: bool, ghost evaluated: nat)
      ensures fired <==> AnyHolds(shared.rules, v)
      ensures fired ==> evaluated == FirstSatisfied(shared.rules, v).value + 1
      ensures !fired ==> evaluated == |shared.rules|
    {
      var rules := shared.rules;
      for i := 0 to |rules|
        invariant forall j :: 0 <= j < i ==> !rules[j].Holds(v)
      {
        var rule := rules[i];
        if rule.op.Apply(v, rule.value) {
          fired, evaluated := true, i + 1;
          return;
        }
      }
      fired, evaluated := false, |rules|;
    }

    /**
     * Executes the action once for every key of the counter's dictionary
     * whose count satisfies some rule, and for no other key, in the
     * dictionary's (unspecified) iteration order.
     */
    method FireAgainstCounter(counter: Counter) returns (atLeastOneFired: bool)
      modifies action
      ensures |old(action.log)| <= |action.log| && action.log[..|old(action.log)|] == old(action.log)
      ensures var executed := action.log[|old(action.log)|..];
              NoDuplicates(executed) &&
              forall k :: k in executed <==> k in counter.Count() && AnyHolds(shared.rules, counter.Count()[k])
      ensures atLeastOneFired <==> exists k :: k in counter.Count() && AnyHolds(shared.rules, counter.Count()[k])
      ensures atLeastOneFired <==> |action.log| > |old(action.log)|
    {
      var count := counter.Count();
      var todo := count.Keys;
      ghost var executed: seq<string> := [];
      atLeastOneFired := false;
      while todo != {}
        invariant todo <= count.Keys
        invariant action.log == old(action.log) + executed
        invariant NoDuplicates(executed)
        invariant forall k :: k in executed <==> k in count && k !in todo && AnyHolds(shared.rules, count[k])
        invariant atLeastOneFired <==> executed != []
        decreases todo
      {
        var key :| key in todo;
        var fired: bool;
        ghost var evaluated: nat;
        fired, evaluated := Fire(count[key]);
        if fired {
          action.Execute(key);
          executed := executed + [key];
          atLeastOneFired := true;
        }
        todo := todo - {key};
      }
      assert action.log[|old(action.log)|..] == executed;
      if atLeastOneFired {
        assert executed[0] in executed;
      }
    }
  }
}
