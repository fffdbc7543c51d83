/**
 * Two runs of the engine on concrete inputs, stated as what a caller can
 * conclude from the contracts alone.
 */
module Scenarios {
  import opened Wrappers
  import opened Tallies
  import opened Counting
  import opened Rules

  /** A pattern matching lines that start with `prefix`: the key is the prefix, the rest what follows it. */
  function Literal(prefix: string): Pattern
  {
    Pattern(line => if prefix <= line then Some((prefix, line[|prefix|..])) else None)
  }

  /** A pattern matching lines that start with `tag`: the key is what follows the tag, the rest is empty. */
  function Tagged(tag: string): Pattern
  {
    Pattern(line => if tag <= line then Some((line[|tag|..], "")) else None)
  }

  /**
   * Counts {"1.2.3.4": 6, "5.6.7.8": 2} against the single rule `count > 5`:
   * the action runs once, for "1.2.3.4" only.
   */
  method ThresholdExample() returns (fired: bool, ghost executed: seq<string>)
    ensures fired && executed == ["1.2.3.4"]
  {
    var store := new CountStore();
    store.count := map["1.2.3.4" := 6, "5.6.7.8" := 2];
    var counter := new Counter(store);
    var action := new Action();
    var ruleList := new RuleStore();
    var rules := new ActionRules(action, ruleList);
    rules.AddRule(Gt, 5);
    assert rules.shared.rules == [Rule(Gt, 5)];
    assert rules.shared.rules[0].Holds(6);
    fired := rules.FireAgainstCounter(counter);
    executed := action.log;
    OnlyKey(executed, "1.2.3.4");
  }

  /** Counts {"1.2.3.4": 2} against the rule `count > 5`: nothing is executed and the result is false. */
  method BelowThresholdExample() returns (fired: bool, ghost executed: seq<string>)
    ensures !fired && executed == []
  {
    var store := new CountStore();
    store.count := map["1.2.3.4" := 2];
    var counter := new Counter(store);
    var action := new Action();
    var ruleList := new RuleStore();
    var rules := new ActionRules(action, ruleList);
    rules.AddRule(Gt, 5);
    assert rules.shared.rules == [Rule(Gt, 5)];
    fired := rules.FireAgainstCounter(counter);
    executed := action.log;
  }

  /**
   * A root that strips "amavis: " and hands the rest to two counting leaves,
   * one for "Blocked SPAM, " and one for "Passed SPAMMY, ". One SPAM line is
   * parsed: it is counted once, and because the counter dictionary is
   * shared, the SPAMMY leaf's counter reports the address as well.
   */
  method SharedCountsExample() returns (spamCount: nat, spammyCount: nat)
    ensures spamCount == 1 && spammyCount == 1
  {
    var store := new CountStore();
    var spam := new CountingParser(Tagged("Blocked SPAM, "), true, NoNext, store);
    var spammy := new CountingParser(Tagged("Passed SPAMMY, "), true, NoNext, store);
    var root := new CountingParser(Literal("amavis: "), false, Many([Parser(spam), Parser(spammy)]), store);
    var line, rest := "amavis: Blocked SPAM, 1.2.3.4", "Blocked SPAM, 1.2.3.4";
    assert Match(root.pattern, line) == Some(("amavis: ", rest));
    assert Match(spam.pattern, rest) == Some(("1.2.3.4", ""));
    assert !("Passed SPAMMY, " <= rest) by {
      assert "Passed SPAMMY, "[0] != rest[0];
    }
    assert Match(spammy.pattern, rest) == None;
    assert spam.Run(rest).incs == ["1.2.3.4"];
    assert spammy.Run(rest).incs == [];
    assert root.RunChildren(1, rest).incs == ["1.2.3.4"];
    assert root.RunChildren(2, rest).incs == ["1.2.3.4"];
    assert root.Run(line).incs == ["1.2.3.4"];
    var matched;
    ghost var calls;
    matched, calls := root.Parse(line);
    assert store.count == Tally(map[], ["1.2.3.4"]);
    assert store.count == map["1.2.3.4" := 1];
    spamCount := Get(spam.counter.Count(), "1.2.3.4");
    spammyCount := Get(spammy.counter.Count(), "1.2.3.4");
  }

  /**
   * Two counters over the shared dictionary {"1.2.3.4": 1}, the rule
   * `count >= 1`, and the rules fired against each counter in turn: the
   * action runs twice for the same key.
   */
  method DoubleFiringExample() returns (firedFirst: bool, firedSecond: bool, ghost executed: seq<string>)
    ensures firedFirst && firedSecond
    ensures executed == ["1.2.3.4", "1.2.3.4"]
  {
    var store := new CountStore();
    store.count := map["1.2.3.4" := 1];
    var spamCounter := new Counter(store);
    var spammyCounter := new Counter(store);
    var action := new Action();
    var ruleList := new RuleStore();
    var rules := new ActionRules(action, ruleList);
    rules.AddRule(Ge, 1);
    assert rules.shared.rules[0].Holds(1);
    firedFirst := rules.FireAgainstCounter(spamCounter);
    OnlyKey(action.log, "1.2.3.4");
    ghost var first := action.log;
    firedSecond := rules.FireAgainstCounter(spammyCounter);
    OnlyKey(action.log[|first|..], "1.2.3.4");
    executed := action.log;
    assert executed == first + executed[|first|..];
  }

  /** A duplicate-free sequence that contains `key` and nothing else is `[key]`. */
  lemma OnlyKey(s: seq<string>, key: string)
    requires NoDuplicates(s) && key in s
    requires forall k :: k in s ==> k == key
    ensures s == [key]
  {
    if |s| > 1 {
      FirstTwoDistinct(s);
      assert false;
    }
  }

  lemma FirstTwoDistinct(s: seq<string>)
    requires NoDuplicates(s) && |s| > 1
    ensures s[0] in s && s[1] in s && s[0] != s[1]
  {
  }
}
