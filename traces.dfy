/**
 * Runs of initialization attempts in one process: any sequence of calls,
 * each through any entry point and in whatever environment holds at the
 * time. A run serializes attempts that may come from several threads; the
 * slot's commit is one step, so each attempt sees the slot whole.
 */
module Traces {
  import opened Wrappers
  import opened Environment
  import opened Backend
  import opened Routing

  /** One attempt: the environment at the time of the call, and the call. */
  datatype Attempt = Attempt(env: Env, call: Call)

  /** The slot after `attempts` starting from `slot`, and each attempt's reply in order. */
  function Run(slot: Option<Config>, attempts: seq<Attempt>): (r: (Option<Config>, seq<Reply>))
    ensures |r.1| == |attempts|
    ensures slot.Some? ==> r.0 == slot
    decreases |attempts|
  {
    if attempts == [] then (slot, [])
    else
      var first := Effect(slot, attempts[0].env, attempts[0].call);
      var rest := Run(first.installed, attempts[1..]);
      (rest.0, [first.reply] + rest.1)
  }

  /** Once a logger is installed, no later attempt succeeds or changes it:
      each fails with `SetLoggerError`, returned or as a panic by its kind. */
  lemma {:induction false} LaterAttemptsFail(slot: Option<Config>, attempts: seq<Attempt>)
    requires slot.Some?
    ensures Run(slot, attempts).0 == slot
    ensures forall i :: 0 <= i < |attempts| ==> Run(slot, attempts).1[i] == FailureReply(attempts[i].call)
  {
    if attempts != [] {
      EffectSetOnce(slot, attempts[0].env, attempts[0].call);
      LaterAttemptsFail(slot, attempts[1..]);
      var rest := Run(slot, attempts[1..]);
      assert Run(slot, attempts).1 == [FailureReply(attempts[0].call)] + rest.1;
    }
  }

  /** The first attempt of a process wins: it alone succeeds, the slot ends
      holding exactly what it requested, and every later attempt fails. */
  lemma {:induction false} FirstAttemptWins(attempts: seq<Attempt>)
    requires attempts != []
    ensures Run(None, attempts).0 == Some(Requested(attempts[0].env, attempts[0].call))
    ensures Run(None, attempts).1[0] == Returned(Ok(()))
    ensures forall i :: 1 <= i < |attempts| ==> Run(None, attempts).1[i] == FailureReply(attempts[i].call)
  {
    var first := Effect(None, attempts[0].env, attempts[0].call);
    EffectSetOnce(None, attempts[0].env, attempts[0].call);
    LaterAttemptsFail(first.installed, attempts[1..]);
    var rest := Run(first.installed, attempts[1..]);
    assert Run(None, attempts).1 == [first.reply] + rest.1;
    forall i | 1 <= i < |attempts|
      ensures Run(None, attempts).1[i] == FailureReply(attempts[i].call)
    {
      assert Run(None, attempts).1[i] == rest.1[i - 1];
      assert attempts[1..][i - 1] == attempts[i];
    }
  }

  /** Exactly one attempt of a non-empty run from an empty slot succeeds. */
  lemma {:induction false} ExactlyOneSuccess(attempts: seq<Attempt>)
    requires attempts != []
    ensures forall i :: 0 <= i < |attempts| ==> (Run(None, attempts).1[i].Succeeded() <==> i == 0)
  {
    FirstAttemptWins(attempts);
  }
}
