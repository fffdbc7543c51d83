/**
 * The counting parser: a chain (or tree) of pattern-matching nodes. Each node
 * matches a line against its two-group pattern, may count the first group
 * (the key) in the counter dictionary, and hands the second group (the rest
 * of the line) to its chained parser or parsers.
 */
module Counting {
  import opened Wrappers
  import opened Tallies

  /**
   * A compiled regular expression with exactly two groups. `matcher` stands
   * for its anchored match: no match, or the pair (group 1, group 2). The
   * regular-expression engine itself is not modelled, so every property
   * below holds for every matcher.
   */
  datatype Pattern = Pattern(matcher: string -> Option<(string, string)>)

  function Match(p: Pattern, line: string): Option<(string, string)>
  {
    p.matcher(line)
  }

  /**
   * The dictionary `Counter.count`. It is a class attribute, so there is
   * exactly one of it and every Counter object reads and writes the same map.
   */
  class CountStore {
    var count: map<string, nat>

    constructor()
      ensures count == map[]
    {
      count := map[];
    }
  }

  /** A Counter is a handle on the shared dictionary; it has no state of its own. */
  class Counter {
    const store: CountStore

    /** Creating a Counter does not reset the shared dictionary. */
    constructor(store: CountStore)
      ensures this.store == store
    {
      this.store := store;
    }

    /** The dictionary as seen through this counter: always the shared one. */
    function Count(): map<string, nat>
      reads store
    {
      store.count
    }

    /**
     * The guard `key in self.count > 0` is the chained comparison
     * `key in self.count and self.count > 0`. Python 2 orders a number before
     * any object of another type, so a dict is always greater than 0 and the
     * guard is the membership test alone.
     */
    method Inc(key: string)
      modifies store
      ensures store.count == Bump(old(store.count), key)
    {
      if key in store.count {
        store.count := store.count[key := store.count[key] + 1];
      } else {
        store.count := store.count[key := 1];
      }
    }
  }

  /** An element of a list of chained parsers; anything that is not a CountingParser is skipped by `parse`. */
  datatype Child = Parser(p: CountingParser) | NotAParser

  /** The `next_parser` argument: nothing (None or any other value), one parser, or a list. */
  datatype Next = NoNext | Single(p: CountingParser) | Many(children: seq<Child>)

  /** The parsers that `next` chains to. */
  function Parsers(next: Next): set<CountingParser>
  {
    match next
    case NoNext => {}
    case Single(p) => {p}
    case Many(cs) => set i | 0 <= i < |cs| && cs[i].Parser? :: cs[i].p
  }

  ghost function HeightBound(cs: seq<Child>): (h: nat)
    ensures forall i :: 0 <= i < |cs| && cs[i].Parser? ==> cs[i].p.height < h
  {
    if cs == [] then 0
    else
      var h := HeightBound(cs[..|cs| - 1]);
      match cs[|cs| - 1]
      case NotAParser => h
      case Parser(p) => if p.height < h then h else p.height + 1
  }

  ghost function NextBound(next: Next): (h: nat)
    ensures forall c :: c in Parsers(next) ==> c.height < h
  {
    match next
    case NoNext => 0
    case Single(p) => p.height + 1
    case Many(cs) => HeightBound(cs)
  }

  /** One invocation of `parse` on one node with one line. */
  datatype Visit = Visit(parser: CountingParser, line: string)

  /**
   * What one `parse` call amounts to: its return value, every `parse`
   * invocation it makes (itself first, then its chained parsers' calls, in
   * order) and every key it increments, in order.
   */
  datatype Outcome = Outcome(matched: bool, calls: seq<Visit>, incs: seq<string>)

  /** The key one invocation counts itself: its group 1, on a counting node whose pattern matched a non-empty line. */
  function Counted(v: Visit): seq<string>
  {
    if v.parser.countMatches && v.line != "" && Match(v.parser.pattern, v.line).Some?
    then [Match(v.parser.pattern, v.line).value.0]
    else []
  }

  /** The keys a trace of invocations counts, in order. */
  function IncsOf(calls: seq<Visit>): seq<string>
  {
    if calls == [] then [] else Counted(calls[0]) + IncsOf(calls[1..])
  }

  lemma {:induction false} IncsOfAppend(a: seq<Visit>, b: seq<Visit>)
    ensures IncsOf(a + b) == IncsOf(a) + IncsOf(b)
    decreases |a|
  {
    if a == [] {
      assert a + b == b;
    } else {
      assert (a + b)[0] == a[0];
      assert (a + b)[1..] == a[1..] + b;
      IncsOfAppend(a[1..], b);
    }
  }

  class CountingParser {
    const pattern: Pattern
    const countMatches: bool
    /** Present exactly when the node counts its matches. */
    const counter: Counter?
    const next: Next
    /** The shared counter dictionary that every counter of the tree writes to. */
    const store: CountStore
    /** Bounds the depth below this node, so that `parse` terminates. */
    ghost const height: nat

    ghost predicate Valid()
      decreases height
    {
      (countMatches <==> counter != null) &&
      (counter != null ==> counter.store == store) &&
      forall c :: c in Parsers(next) ==> c.height < height && c.store == store && c.Valid()
    }

    constructor(pattern: Pattern, countMatches: bool, next: Next, store: CountStore)
      requires forall c :: c in Parsers(next) ==> c.Valid() && c.store == store
      ensures Valid()
      ensures this.pattern == pattern && this.countMatches == countMatches
      ensures this.next == next && this.store == store
      ensures countMatches ==> fresh(counter)
    {
      this.pattern := pattern;
      this.countMatches := countMatches;
      if countMatches {
        var c := new Counter(store);
        this.counter := c;
      } else {
        this.counter := null;
      }
      this.next := next;
      this.store := store;
      this.height := NextBound(next);
    }

    function GetNextParser(): (n: Next)
      requires Valid()
      ensures n == next
      ensures forall c :: c in Parsers(n) ==> c.Valid() && c.store == store && c.height < height
    {
      next
    }

    /** The meaning of `parse(line)` on this node. */
    ghost function Run(line: string): (o: Outcome)
      requires Valid()
      ensures |o.calls| >= 1 && o.calls[0] == Visit(this, line)
      decreases height, 1, 0
    {
      var here := [Visit(this, line)];
      if line == "" then Outcome(false, here, [])
      else
        match Match(pattern, line)
        case None => Outcome(false, here, [])
        case Some((key, rest)) =>
          var own := if countMatches then [key] else [];
          match next
          case NoNext => Outcome(true, here, own)
          case Single(p) =>
            var o := p.Run(rest);
            Outcome(o.matched, here + o.calls, own + o.incs)
          case Many(cs) =>
            var o := RunChildren(|cs|, rest);
            Outcome(true, here + o.calls, own + o.incs)
    }

    /** What parsing `rest` with the first `n` elements of the list of chained parsers amounts to. */
    ghost function RunChildren(n: nat, rest: string): (o: Outcome)
      requires Valid() && next.Many? && n <= |next.children|
      decreases height, 0, n
    {
      if n == 0 then Outcome(true, [], [])
      else
        var before := RunChildren(n - 1, rest);
        match next.children[n - 1]
        case NotAParser => before
        case Parser(p) =>
          assert p in Parsers(next);
          var o := p.Run(rest);
          Outcome(true, before.calls + o.calls, before.incs + o.incs)
    }

    lemma {:induction false} RunChildrenPrefix(i: nat, n: nat, rest: string)
      requires Valid() && next.Many? && i <= n <= |next.children|
      ensures RunChildren(i, rest).calls <= RunChildren(n, rest).calls
      ensures RunChildren(i, rest).incs <= RunChildren(n, rest).incs
      decreases n
    {
      if i < n {
        RunChildrenPrefix(i, n - 1, rest);
      }
    }

    /**
     * On a match, the list element `i` that is a parser is called with the
     * rest of the line, right after every call the elements before it made.
     */
    lemma {:induction false} ChildCallAt(line: string, i: nat)
      requires Valid() && next.Many? && line != "" && Match(pattern, line).Some?
      requires i < |next.children| && next.children[i].Parser?
      ensures var rest := Match(pattern, line).value.1;
              var k := 1 + |RunChildren(i, rest).calls|;
              k < |Run(line).calls| && Run(line).calls[k] == Visit(next.children[i].p, rest)
    {
      var rest := Match(pattern, line).value.1;
      RunChildrenPrefix(i + 1, |next.children|, rest);
    }

    /** Every increment a parse makes is the key of one matching invocation of a counting node, in call order. */
    lemma {:induction false} RunIncs(line: string)
      requires Valid()
      ensures Run(line).incs == IncsOf(Run(line).calls)
      decreases height, 1, 0
    {
      var here := [Visit(this, line)];
      if line != "" && Match(pattern, line).Some? {
        var rest := Match(pattern, line).value.1;
        match next
        case NoNext =>
        case Single(p) =>
          p.RunIncs(rest);
          IncsOfAppend(here, p.Run(rest).calls);
        case Many(cs) =>
          RunChildrenIncs(|cs|, rest);
          IncsOfAppend(here, RunChildren(|cs|, rest).calls);
      }
    }

    lemma {:induction false} RunChildrenIncs(n: nat, rest: string)
      requires Valid() && next.Many? && n <= |next.children|
      ensures RunChildren(n, rest).incs == IncsOf(RunChildren(n, rest).calls)
      decreases height, 0, n
    {
      if n > 0 {
        RunChildrenIncs(n - 1, rest);
        match next.children[n - 1]
        case NotAParser =>
        case Parser(p) =>
          assert p in Parsers(next);
          p.RunIncs(rest);
          IncsOfAppend(RunChildren(n - 1, rest).calls, p.Run(rest).calls);
      }
    }

    method Parse(line: string) returns (matched: bool, ghost calls: seq<Visit>)
      requires Valid()
      modifies store
      decreases height, 1
      ensures matched == Run(line).matched && calls == Run(line).calls
      ensures store.count == Tally(old(store.count), Run(line).incs)
      ensures forall k :: Get(store.count, k) == Get(old(store.count), k) + multiset(IncsOf(calls))[k]
      ensures line == "" || Match(pattern, line).None? ==>
                !matched && calls == [Visit(this, line)] && store.count == old(store.count)
      ensures line != "" && Match(pattern, line).Some? && next.NoNext? ==>
                matched && calls == [Visit(this, line)] &&
                store.count == if countMatches then Bump(old(store.count), Match(pattern, line).value.0)
                               else old(store.count)
      ensures line != "" && Match(pattern, line).Some? && next.Single? ==>
                matched == next.p.Run(Match(pattern, line).value.1).matched
      ensures line != "" && Match(pattern, line).Some? && next.Many? ==> matched
    {
      calls := [Visit(this, line)];
      matched := false;
      if line != "" {
        var m := Match(pattern, line);
        if m.Some? {
          var key, rest := m.value.0, m.value.1;
          ghost var own: seq<string> := if countMatches then [key] else [];
          if countMatches {
            counter.Inc(key);
          }
          assert store.count == Tally(old(store.count), own);
          ghost var afterOwn := store.count;
          match next {
            case NoNext =>
              matched := true;
            case Single(p) =>
              ghost var childCalls: seq<Visit>;
              matched, childCalls := p.Parse(rest);
              calls := calls + childCalls;
              TallyAppend(old(store.count), own, p.Run(rest).incs);
            case Many(cs) =>
              ghost var childCalls := ParseEach(rest);
              calls := calls + childCalls;
              TallyAppend(old(store.count), own, RunChildren(|cs|, rest).incs);
              matched := true;
          }
        }
      }
      RunIncs(line);
      forall k
        ensures Get(store.count, k) == Get(old(store.count), k) + multiset(IncsOf(calls))[k]
      {
        TallyGet(old(store.count), Run(line).incs, k);
      }
    }

    lemma RunChildrenStep(i: nat, rest: string)
      requires Valid() && next.Many? && i < |next.children|
      ensures next.children[i].NotAParser? ==> RunChildren(i + 1, rest) == RunChildren(i, rest)
      ensures next.children[i].Parser? ==>
                var p := next.children[i].p;
                p.Valid() && p.store == store && p.height < height &&
                RunChildren(i + 1, rest) ==
                  Outcome(true, RunChildren(i, rest).calls + p.Run(rest).calls, RunChildren(i, rest).incs + p.Run(rest).incs)
    {
    }

    /** The loop over a list of chained parsers: each element that is a parser parses `rest`, in list order; results are ignored. */
    method ParseEach(rest: string) returns (ghost calls: seq<Visit>)
      requires Valid() && next.Many?
      modifies store
      decreases height, 0
      ensures calls == RunChildren(|next.children|, rest).calls
      ensures store.count == Tally(old(store.count), RunChildren(|next.children|, rest).incs)
    {
      var cs := next.children;
      calls := [];
      for i := 0 to |cs|
        invariant store.count == Tally(old(store.count), RunChildren(i, rest).incs)
        invariant calls == RunChildren(i, rest).calls
      {
        match cs[i] {
          case NotAParser =>
            RunChildrenStep(i, rest);
          case Parser(p) =>
            RunChildrenStep(i, rest);
            var childMatched: bool;
            ghost var childCalls: seq<Visit>;
            childMatched, childCalls := p.Parse(rest);
            calls := calls + childCalls;
            TallyAppend(old(store.count), RunChildren(i, rest).incs, p.Run(rest).incs);
        }
      }
    }
  }
}
