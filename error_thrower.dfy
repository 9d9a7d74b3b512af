/**
 * The error accumulator every stage of the harness writes into and consults.
 */
module ErrorThrowers {
  import opened Wrappers

  /** What a thrower shows: whether it holds an error, and the message of that error. */
  datatype ThrowerState = ThrowerState(error: bool, message: string)

  const Clean: ThrowerState := ThrowerState(false, "")

  /** One report: only the first report of a thrower sets the flag and fixes the message. */
  function Record(context: string, t: ThrowerState, msg: string): ThrowerState
  {
    if t.error then t else ThrowerState(true, context + ": " + msg)
  }

  /** The state after a sequence of reports, made one after another. */
  function Replay(context: string, t: ThrowerState, reports: seq<string>): (r: ThrowerState)
    ensures r.error == (t.error || reports != [])
    decreases |reports|
  {
    if reports == [] then t else Replay(context, Record(context, t, reports[0]), reports[1..])
  }

  /** However many reports follow, a thrower shows the first error it was ever given. */
  lemma {:induction false} ReplayKeepsFirst(context: string, t: ThrowerState, reports: seq<string>)
    ensures Replay(context, t, reports) ==
      if t.error || reports == [] then t else ThrowerState(true, context + ": " + reports[0])
    decreases |reports|
  {
    if reports != [] {
      ReplayKeepsFirst(context, Record(context, t, reports[0]), reports[1..]);
    }
  }

  /** Reporting `a` and then `b` is reporting `a + b`: stages compose by concatenating their reports. */
  lemma {:induction false} ReplayAppend(context: string, t: ThrowerState, a: seq<string>, b: seq<string>)
    ensures Replay(context, t, a + b) == Replay(context, Replay(context, t, a), b)
    decreases |a|
  {
    if a != [] {
      assert (a + b)[0] == a[0] && (a + b)[1..] == a[1..] + b;
      ReplayAppend(context, Record(context, t, a[0]), a[1..], b);
    } else {
      assert a + b == b;
    }
  }

  /**
   * An ErrorThrower is created for one top-level harness call under a context name, and each
   * call of `Error` reports one failure. The ghost log `reported` keeps every report, in order,
   * so that contracts can say which reports a stage made even after the first one has won;
   * the flag and the message are always what replaying that log on a clean thrower gives.
   */
  class ErrorThrower {
    const context: string
    var error: bool
    var message: string
    ghost var reported: seq<string>

    ghost predicate Valid()
      reads this
    {
      ThrowerState(error, message) == Replay(context, Clean, reported)
    }

    constructor (context: string)
      ensures Valid()
      ensures this.context == context && reported == []
    {
      this.context := context;
      error := false;
      message := "";
      reported := [];
    }

    /** Reports one failure. */
    method Error(msg: string)
      requires Valid()
      modifies this
      ensures Valid()
      ensures reported == old(reported) + [msg]
      ensures error
    {
      ReplayAppend(context, Clean, reported, [msg]);
      if !error {
        error := true;
        message := context + ": " + msg;
      }
      reported := reported + [msg];
    }

    /** The error the thrower holds when its owner's call ends: the first report, if there was one. */
    function Pending(): (p: Option<string>)
      reads this
      requires Valid()
      ensures p.Some? <==> reported != []
      ensures p.Some? ==> p.value == context + ": " + reported[0]
    {
      ReplayKeepsFirst(context, Clean, reported);
      if error then Some(message) else None
    }
  }
}
