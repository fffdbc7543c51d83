# Counting action parser

A Dafny model of the generic engine of ActionLogWatch (`CountingActionParser.py`).
The engine reads log lines through a chain of counting parsers. Each counting
parser matches a line against a regular expression with two groups. It counts
group 1, the key, if it was built to count. It then passes group 2, the rest of
the line, to the parser or parsers chained after it. Once the lines have been
parsed, a set of threshold rules is checked against every counted key. The
bound action is executed for each key whose count satisfies a rule.

Files:

- `wrappers.dfy`: `Option`.
- `tally.dfy` (module `Tallies`): key-to-count maps. `Bump` is one increment,
  `Tally` a sequence of them, and the lemmas say what a sequence of increments
  leaves behind.
- `counting_parser.dfy` (module `Counting`): the pattern abstraction, the shared
  counter dictionary, `Counter` and `CountingParser`. `Run` is the meaning of
  one `parse` call: its return value, the `parse` invocations it makes and the
  keys it increments. `Parse` is proved against it.
- `action_rules.dfy` (module `Rules`): comparators, rules, `Action` and
  `ActionRules`.
- `scenarios.dfy` (module `Scenarios`): the engine wired up as in
  `amavisParser.py`, called on concrete inputs. Each result follows from the
  contracts alone.

Behaviour the model keeps as the code has it:

- **One counter dictionary.** `Counter.count` is a class attribute
  (CountingActionParser.py:93), so every `Counter` reads and writes one map.
  It is modelled as a `CountStore` object passed to each `Counter` and each
  parser node. Within one parser tree, `Valid()` makes every node and every
  counter use the same store. Creating a `Counter` does not reset it. When
  every counter is given the program's one store, `fireAgainstCounter` on
  any counter sees the keys of every counting node
  (`Scenarios.SharedCountsExample`, `Scenarios.DoubleFiringExample`).
  A design that gives each counter its own map would differ here; the model
  follows the code.
- **One rule list.** `ActionRules.rules` is a class attribute too
  (CountingActionParser.py:181). It is modelled as a `RuleStore` object
  passed to each `ActionRules`; objects given the same store share its list.
- **The increment guard.** `key in self.count > 0` (line 105) is a chained
  comparison: `key in count and count > 0`. Python 2 orders a number before a
  value of any other type, so a dict is always greater than `0`. The guard is
  therefore the membership test alone. A comment on `Inc` records this
  decision, and `Inc` is proved to give "absent key becomes 1, present key
  goes up by 1".
- **Return value.** With one chained parser, `parse` returns that parser's
  result on the rest (lines 70-71). With a list of chained parsers it returns
  true, whatever they return (lines 73-79). A description where a node always
  reports only its own match would differ for the single-parser case; the model
  follows the code.
- **Non-parser list elements.** Elements of the list that are not
  `CountingParser`s are skipped (line 75). They are modelled as `NotAParser`.
  A `next_parser` that is neither a parser nor a list acts like `None`
  (`NoNext`).
- **Action.** An `Action`'s effect is modelled as a ghost log of the keys
  `execute` was called with.
- **Regular expressions.** A pattern is an arbitrary total function from a
  line to "no match" or the pair (group 1, group 2). So every property is
  proved for every pattern.

## Model

| member | source | states |
|---|---|---|
| `Tallies.Bump` | CountingActionParser.py:99-108 | one increment: an absent key becomes 1, a present key goes up by 1, the key set gains the key, every other key keeps its count |
| `Tallies.Tally` | CountingActionParser.py:99-108 | after a sequence of increments the keys are the old keys plus every incremented key |
| `Tallies.TallyAppend` | CountingActionParser.py:99-108 | incrementing one sequence of keys and then another is the same as incrementing their concatenation |
| `Tallies.TallyGet` | CountingActionParser.py:99-108 | after a sequence of increments each key's count is its old count plus the number of times it occurs in the sequence |
| `Tallies.TallyRepeat` | CountingActionParser.py:99-108 | N increments of one key on an empty map give that key count N, and no other key |
| `Counting.CountStore.constructor` | CountingActionParser.py:93 | the shared dictionary starts empty |
| `Counting.Counter.constructor` | CountingActionParser.py:95-96 | a new counter is a view on the shared dictionary and does not reset it |
| `Counting.Counter.Inc` | CountingActionParser.py:99-108 | the shared dictionary becomes `Bump` of its old value at the key |
| `Counting.CountingParser.constructor` | CountingActionParser.py:13-34 | keeps the pattern, the counting flag and the chained parsers; a counting node gets a fresh counter on the shared dictionary, and the node satisfies the tree invariant |
| `Counting.CountingParser.GetNextParser` | CountingActionParser.py:37-38 | returns the chained parsers, each a valid node on the same dictionary, lower in the tree |
| `Counting.CountingParser.Run` | CountingActionParser.py:41-82 | the calls made by a `parse` call begin with that call itself, on that line |
| `Counting.CountingParser.ChildCallAt` | CountingActionParser.py:73-76 | on a match, list element i (if it is a parser) is called with the rest of the line, right after all the calls made by the elements before it, so the elements are parsed in list order |
| `Counting.CountingParser.RunIncs` | CountingActionParser.py:61-76 | the keys a `parse` call increments are exactly the group-1 keys of the invocations in its trace made on counting nodes whose pattern matched a non-empty line, in call order |
| `Counting.CountingParser.Parse` | CountingActionParser.py:41-82 | returns and counts as `Run` says; an empty or non-matching line gives false, no count change and no chained call; a matching leaf returns true and bumps its key only if it counts; a single chained parser's result on the rest is returned; a list gives true; each key's count rises by the number of counting matches that extracted it |
| `Counting.CountingParser.ParseEach` | CountingActionParser.py:73-76 | the loop over a list of chained parsers makes exactly the calls and increments of its elements on the rest, in list order, skipping non-parsers |
| `Rules.FirstSatisfied` | CountingActionParser.py:214-223 | the first rule, in insertion order, that holds for a value: some rule is found exactly when some rule holds, the rule found holds, and no earlier rule holds |
| `Rules.FirstSatisfiedAppend` | CountingActionParser.py:192-223 | appending a rule keeps the first match of every value that already had one; only values no earlier rule held for can now be matched by the new rule |
| `Rules.RuleStore.constructor` | CountingActionParser.py:181 | the shared rule list starts empty |
| `Rules.Action.constructor` | CountingActionParser.py:136-151 | a new action has executed nothing |
| `Rules.Action.Execute` | CountingActionParser.py:166-174 | records one execution for the key |
| `Rules.ActionRules.constructor` | CountingActionParser.py:183-190 | binds the action and the shared rule list without changing the rules |
| `Rules.ActionRules.AddRule` | CountingActionParser.py:192-203 | appends `[op, value]` at the end of the shared list; the earlier rules keep their order |
| `Rules.ActionRules.Fire` | CountingActionParser.py:206-223 | returns true iff some rule holds for the value (false for no rules); exactly the rules up to and including the first that holds have their comparator evaluated, or all rules if none holds |
| `Rules.ActionRules.FireAgainstCounter` | CountingActionParser.py:226-242 | executes the action exactly once for each key of the dictionary whose count satisfies some rule and for no other key, only appending to what was executed before; returns true iff some key qualified, which is iff some execution was made, so false on an empty dictionary |
| `Scenarios.ThresholdExample` | amavisParser.py:54-56 | counts {1.2.3.4: 6, 5.6.7.8: 2} with the rule `count > 5` execute the action once, for 1.2.3.4, and report true |
| `Scenarios.BelowThresholdExample` | amavisParser.py:54-56 | counts {1.2.3.4: 2} with the rule `count > 5` execute nothing and report false |
| `Scenarios.SharedCountsExample` | amavisParser.py:27-47 | in the amavis-shaped tree, one SPAM line counts its address once, and the SPAMMY leaf's counter shows it too because the dictionary is shared |
| `Scenarios.DoubleFiringExample` | amavisParser.py:54-57 | firing the rules against the SPAM and the SPAMMY counter executes the action twice for one address |

## Left out

- Regular expressions: compiling and matching are not modelled. A pattern is
  an arbitrary matcher returning the two groups. Patterns that do not compile
  or lack a second group fail in the library; the model cannot express them.
- `Action.__init__`'s configuration file: the file check, `ConfigParser`, and
  `exit(-1)` when the file is missing. These are file I/O and process exit.
- `Action.prepare`: its body is `pass`, and concrete actions use it to open
  a connection.
- `Action.execute`'s `print`, `Counter.printAll` and the debug `print` in
  `fire`: console output. The debug output lists one line per evaluated rule,
  which `Fire`'s ghost `evaluated` result counts.
- An exception raised by a concrete action's `execute`: it would propagate out
  of `fireAgainstCounter`. The modelled `Execute` cannot fail.
- `MySqlAction.py`: a database connection and an SQL insert. The model keeps
  only the fact that `execute` was called with a key.
- `amavisParser.py`: reading stdin, the concrete amavis patterns and printing.
  Its wiring is mirrored in `Scenarios` with simpler prefix patterns. It calls
  `fireRulesAgainstCounter`, a method `ActionRules` does not define; the
  scenarios call `FireAgainstCounter`.
- Dictionary iteration order in `fireAgainstCounter` is unspecified. The model
  picks each next key arbitrarily, and the contract holds for every order.
- One store per process: the class attributes `Counter.count` and
  `ActionRules.rules` are passed in as a `CountStore` or `RuleStore`
  parameter. Every property is proved for any store, so also for the
  program's single one. The model does not rule out a second store, so
  "every counter sees one map" and "every rule set sees one list" are up to
  the caller, except within one parser tree, where `Valid()` enforces it.
- Chains with cycles: the model builds each node from already-built nodes and
  keeps a ghost height. So `parse` always terminates. Reassigning `next` after
  construction to create a cycle, which would recurse until Python's recursion
  limit, is not modelled.
- Counting.CountingParser.GetNextParser: requires the tree invariant `Valid()`
  that every constructed node has. The Python getter has no precondition.
- Thresholds and counts are unbounded integers. Python 2 also compares values
  of other types; rules here compare integers only.
