/**
 * The first-suggestion confirmation gate. The bot replies to a first-time
 * suggestor with a prompt and collects at most one reaction on it that is a
 * ✅ from the original author; the collection window ends with a timeout
 * when no such reaction arrives. Reactions that fail the filter are ignored
 * and do not end the window.
 */
module Confirmation {
  import opened Discord

  const Check := "\U{2705}"

  /**
   * Idle: no confirmation in progress. Pending: the prompt `prompt` awaits
   * the author of `suggestion`. Confirmed and Expired are the two outcomes.
   */
  datatype Gate =
    | Idle
    | Pending(suggestion: Message, prompt: Snowflake)
    | Confirmed(suggestion: Message, prompt: Snowflake)
    | Expired(suggestion: Message, prompt: Snowflake)

  /** What the collector can observe: a reaction on the prompt, or the end of the window. */
  datatype GateEvent = Reacted(emoji: string, user: Snowflake) | TimedOut

  /** The collector's filter: a ✅ by the author of the suggestion. */
  predicate Accepts(m: Message, e: GateEvent) {
    e.Reacted? && e.emoji == Check && e.user == m.author.id
  }

  /** One event seen by the gate. */
  function Step(g: Gate, e: GateEvent): (g': Gate)
    ensures g.Pending? && Accepts(g.suggestion, e) ==> g' == Confirmed(g.suggestion, g.prompt)
    ensures g.Pending? && e.TimedOut? ==> g' == Expired(g.suggestion, g.prompt)
    ensures g.Pending? && !Accepts(g.suggestion, e) && !e.TimedOut? ==> g' == g
    ensures !g.Pending? ==> g' == g
  {
    match g
    case Pending(m, p) =>
      if Accepts(m, e) then Confirmed(m, p)
      else if e.TimedOut? then Expired(m, p)
      else g
    case _ => g
  }

  /** A sequence of events seen by the gate, in order. */
  function Run(g: Gate, es: seq<GateEvent>): Gate
    decreases |es|
  {
    if es == [] then g else Run(Step(g, es[0]), es[1..])
  }

  /** Once decided (or never started), a gate ignores everything: at most one reaction is collected. */
  lemma {:induction false} RunSettled(g: Gate, es: seq<GateEvent>)
    requires !g.Pending?
    ensures Run(g, es) == g
    decreases |es|
  {
    if es != [] {
      RunSettled(Step(g, es[0]), es[1..]);
    }
  }

  /** No event before position i ends the window. */
  predicate QuietBefore(m: Message, es: seq<GateEvent>, i: nat)
    requires i <= |es|
  {
    forall j :: 0 <= j < i ==> !Accepts(m, es[j]) && !es[j].TimedOut?
  }

  /** From a prompt, a run keeps the suggestion and prompt and only moves to an outcome. */
  lemma {:induction false} RunFromPendingShape(m: Message, p: Snowflake, es: seq<GateEvent>)
    ensures Run(Pending(m, p), es) in {Pending(m, p), Confirmed(m, p), Expired(m, p)}
    decreases |es|
  {
    if es != [] {
      var g := Step(Pending(m, p), es[0]);
      if g.Pending? {
        RunFromPendingShape(m, p, es[1..]);
      } else {
        RunSettled(g, es[1..]);
      }
    }
  }

  /**
   * From a prompt, a run ends confirmed exactly when some event is the
   * author's ✅ and no earlier event ended the window.
   */
  lemma {:induction false} RunConfirmed(m: Message, p: Snowflake, es: seq<GateEvent>)
    ensures Run(Pending(m, p), es).Confirmed? <==>
              exists i :: 0 <= i < |es| && Accepts(m, es[i]) && QuietBefore(m, es, i)
    decreases |es|
  {
    if es != [] {
      var g := Step(Pending(m, p), es[0]);
      if g.Pending? {
        RunConfirmed(m, p, es[1..]);
        if exists i :: 0 <= i < |es| && Accepts(m, es[i]) && QuietBefore(m, es, i) {
          var i :| 0 <= i < |es| && Accepts(m, es[i]) && QuietBefore(m, es, i);
          assert i > 0;
          assert Accepts(m, es[1..][i - 1]) && QuietBefore(m, es[1..], i - 1);
        }
        if exists i :: 0 <= i < |es[1..]| && Accepts(m, es[1..][i]) && QuietBefore(m, es[1..], i) {
          var i :| 0 <= i < |es[1..]| && Accepts(m, es[1..][i]) && QuietBefore(m, es[1..], i);
          assert Accepts(m, es[i + 1]) && QuietBefore(m, es, i + 1);
        }
      } else {
        RunSettled(g, es[1..]);
        assert QuietBefore(m, es, 0);
      }
    }
  }

  /**
   * From a prompt, a run ends expired exactly when some event is the timeout
   * and no earlier event ended the window.
   */
  lemma {:induction false} RunExpired(m: Message, p: Snowflake, es: seq<GateEvent>)
    ensures Run(Pending(m, p), es).Expired? <==>
              exists i :: 0 <= i < |es| && es[i].TimedOut? && QuietBefore(m, es, i)
    decreases |es|
  {
    if es != [] {
      var g := Step(Pending(m, p), es[0]);
      if g.Pending? {
        RunExpired(m, p, es[1..]);
        if exists i :: 0 <= i < |es| && es[i].TimedOut? && QuietBefore(m, es, i) {
          var i :| 0 <= i < |es| && es[i].TimedOut? && QuietBefore(m, es, i);
          assert i > 0;
          assert es[1..][i - 1].TimedOut? && QuietBefore(m, es[1..], i - 1);
        }
        if exists i :: 0 <= i < |es[1..]| && es[1..][i].TimedOut? && QuietBefore(m, es[1..], i) {
          var i :| 0 <= i < |es[1..]| && es[1..][i].TimedOut? && QuietBefore(m, es[1..], i);
          assert es[i + 1].TimedOut? && QuietBefore(m, es, i + 1);
        }
      } else {
        RunSettled(g, es[1..]);
        assert QuietBefore(m, es, 0);
      }
    }
  }
}
