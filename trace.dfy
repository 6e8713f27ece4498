/**
 * Consecutive calls of the wrapped `lex` on a host whose `isLexer` is
 * `true`, on values: each call starts where the previous one left the
 * cursor, and stamps the token of its own call only.
 */
module LexTrace {
  import opened Wrappers
  import opened JsValues
  import opened SnapdragonLocation

  /** The effects of the wrapped `lex` called once per step, starting at cursor `entry`. */
  function Trace(entry: Position, steps: seq<BaseStep>): (r: seq<LexEffect>)
    ensures |r| == |steps|
    ensures forall k :: 0 <= k < |r| ==> !r[k].Threw? && (r[k].Stamped? <==> steps[k].produced)
    decreases |steps|
  {
    if steps == [] then []
    else [Effect(Bool(true), entry, steps[0])] + Trace(steps[0].exit, steps[1..])
  }

  /** The cursor at the start of call `k`: the entry cursor, or where call `k - 1` left it. */
  function EntryOf(entry: Position, steps: seq<BaseStep>, k: nat): Position
    requires k < |steps|
  {
    if k == 0 then entry else steps[k - 1].exit
  }

  /** How many calls stamped a token. */
  function StampCount(effects: seq<LexEffect>): nat {
    if effects == [] then 0
    else (if effects[0].Stamped? then 1 else 0) + StampCount(effects[1..])
  }

  /** How many calls of the host's own `lex` produced a token. */
  function ProducedCount(steps: seq<BaseStep>): nat {
    if steps == [] then 0
    else (if steps[0].produced then 1 else 0) + ProducedCount(steps[1..])
  }

  /** Call `k` behaves as one wrapped `lex` call started at the cursor call `k - 1` left. */
  lemma {:induction false} TraceAt(entry: Position, steps: seq<BaseStep>, k: nat)
    requires k < |steps|
    ensures Trace(entry, steps)[k] == Effect(Bool(true), EntryOf(entry, steps, k), steps[k])
    decreases |steps|
  {
    if k > 0 {
      TraceAt(steps[0].exit, steps[1..], k - 1);
    }
  }

  /** A call that produced a token is stamped from the cursor at its start to the cursor at its end. */
  lemma StampedLocation(entry: Position, steps: seq<BaseStep>, k: nat)
    requires k < |steps| && steps[k].produced
    ensures Trace(entry, steps)[k] == Stamped(Location(EntryOf(entry, steps, k), steps[k].exit))
  {
    TraceAt(entry, steps, k);
  }

  /** Stamps are made for the N calls that produced a token, never for the calls that produced none. */
  lemma {:induction false} StampCountIsProduced(entry: Position, steps: seq<BaseStep>)
    ensures StampCount(Trace(entry, steps)) == ProducedCount(steps)
    decreases |steps|
  {
    if steps != [] {
      var t := Trace(entry, steps);
      assert t[1..] == Trace(steps[0].exit, steps[1..]);
      StampCountIsProduced(steps[0].exit, steps[1..]);
    }
  }

  /** Where no call between `k` and `j` moved the cursor, call `j` left it where call `k` did. */
  lemma {:induction false} ExitHeldBetween(steps: seq<BaseStep>, k: nat, j: nat)
    requires k <= j < |steps|
    requires forall i :: k < i <= j ==> steps[i].exit == steps[i - 1].exit
    ensures steps[j].exit == steps[k].exit
    decreases j - k
  {
    if j > k {
      ExitHeldBetween(steps, k, j - 1);
    }
  }

  /**
   * Two consecutive stamped tokens tile: the first ends where the second
   * starts. Calls in between produced no token; the tiling holds exactly
   * because each of them left the cursor where it found it (a failed match
   * that moves the cursor would open a gap).
   */
  lemma ConsecutiveStampsTile(entry: Position, steps: seq<BaseStep>, k: nat, m: nat)
    requires k < m < |steps| && steps[k].produced && steps[m].produced
    requires forall j :: k < j < m ==> steps[j].exit == steps[j - 1].exit
    ensures Trace(entry, steps)[k].loc.end == Trace(entry, steps)[m].loc.start
  {
    StampedLocation(entry, steps, k);
    StampedLocation(entry, steps, m);
    ExitHeldBetween(steps, k, m - 1);
  }

  /** A call that leaves the cursor where it found it stamps an empty location and range. */
  lemma UnmovedCallStampsEmptyRange(entry: Position, steps: seq<BaseStep>, k: nat)
    requires k < |steps| && steps[k].produced && steps[k].exit == EntryOf(entry, steps, k)
    ensures Trace(entry, steps)[k].loc.start == Trace(entry, steps)[k].loc.end
    ensures RangeOf(Trace(entry, steps)[k].loc) == (steps[k].exit.index, steps[k].exit.index)
  {
    StampedLocation(entry, steps, k);
  }

  /** No call that produced a token moved the host's cursor index backwards. */
  predicate IndexNeverDecreases(entry: Position, steps: seq<BaseStep>) {
    forall k :: 0 <= k < |steps| && steps[k].produced ==> EntryOf(entry, steps, k).index <= steps[k].exit.index
  }

  /**
   * The location code does not check the cursor; the ranges it writes are
   * ordered exactly when the host keeps its index from decreasing during
   * the calls that produce a token.
   */
  lemma RangesOrderedIffIndexNeverDecreases(entry: Position, steps: seq<BaseStep>)
    ensures IndexNeverDecreases(entry, steps) <==>
      forall k :: 0 <= k < |steps| && Trace(entry, steps)[k].Stamped? ==>
        RangeOf(Trace(entry, steps)[k].loc).0 <= RangeOf(Trace(entry, steps)[k].loc).1
  {
    var stamps := Trace(entry, steps);
    if IndexNeverDecreases(entry, steps) {
      forall k | 0 <= k < |steps| && stamps[k].Stamped?
        ensures RangeOf(stamps[k].loc).0 <= RangeOf(stamps[k].loc).1
      {
        StampedLocation(entry, steps, k);
      }
    } else {
      var k :| 0 <= k < |steps| && steps[k].produced && EntryOf(entry, steps, k).index > steps[k].exit.index;
      StampedLocation(entry, steps, k);
    }
  }

  /**
   * Two wrapped `lex` calls in a row on an installed lexer stamp what the
   * first two entries of `Trace` say: the second call starts at the cursor
   * the first one left, whether or not the first produced a token.
   * `first` and `second` are the stamps read off each token right after its call.
   */
  method ConsecutiveLexCalls(host: Lexer, one: BaseOutcome, two: BaseOutcome)
    returns (first: Option<Location>, second: Option<Location>)
    requires host.isLexer == Bool(true) && host.lexWrapped
    modifies host`index, host`column, host`line, one.Produced(), two.Produced()
    ensures host.Snapshot() == two.exit
    ensures var t := Trace(old(host.Snapshot()), [one.Step(), two.Step()]);
      && first == (if one.token.Some? then Some(t[0].loc) else None)
      && second == (if two.token.Some? then Some(t[1].loc) else None)
  {
    ghost var entry := host.Snapshot();
    ghost var steps := [one.Step(), two.Step()];
    var r1 := host.Lex(one);
    first := if one.token.Some? then one.token.value.loc else None;
    var r2 := host.Lex(two);
    second := if two.token.Some? then two.token.value.loc else None;
    TraceAt(entry, steps, 0);
    TraceAt(entry, steps, 1);
  }
}
