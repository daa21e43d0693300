/** The session guardian: `verify_session`'s per-chat warning counter, which
    forces a logout after `MAX_WARNINGS` consecutive failures or at once on a
    fatal session error, and `reconnect_client`'s bounded attempts with
    exponential backoff. What the connection and Telegram answer is given as
    a parameter. */
module Guardian {
  import opened Common

  const MaxWarnings := 5

  /** What probing a session produced: no client object; `ensure_connected`
      returned False; `get_me` returned nothing; `get_me` returned the user; a
      fatal session error (key unregistered, session revoked, account banned);
      any other exception. */
  datatype Probe = NoClient | ConnectFailed | NoMe | Healthy | FatalError | OtherError

  const ReasonConnectionFailed := "CONNECTION_FAILED_MAX_ATTEMPTS"
  const ReasonGetMeFailed := "GET_ME_FAILED"
  const ReasonFatal := "FATAL_SESSION_ERROR"
  const ReasonMaxWarnings := "MAX_WARNINGS_REACHED"

  /** `warning_counts[chat]` of a `defaultdict(int)`. */
  function Count(w: map<int, nat>, chat: int): nat {
    if chat in w then w[chat] else 0
  }

  /** The counter after a failure that counts: one more, unless that reaches
      the threshold, in which case the logout deletes the entry. */
  datatype VerifyStep = VerifyStep(warnings: map<int, nat>, logout: Option<string>, ok: bool)

  function Warn(w: map<int, nat>, chat: int, reason: string): VerifyStep {
    var n := Count(w, chat) + 1;
    if n >= MaxWarnings then VerifyStep(w - {chat}, Some(reason), false)
    else VerifyStep(w[chat := n], None, false)
  }

  /** `verify_session` as a function of the counters before it. */
  function VerifySpec(w: map<int, nat>, chat: int, probe: Probe): VerifyStep {
    match probe
    case NoClient => VerifyStep(w, None, false)
    case ConnectFailed => Warn(w, chat, ReasonConnectionFailed)
    case NoMe => Warn(w, chat, ReasonGetMeFailed)
    case Healthy => VerifyStep(w[chat := 0], None, true)
    case FatalError => VerifyStep(w - {chat}, Some(ReasonFatal), false)
    case OtherError => Warn(w, chat, ReasonMaxWarnings)
  }

  /** Every stored counter is below the threshold. */
  predicate CountersBelowMax(w: map<int, nat>) {
    forall c :: c in w ==> w[c] < MaxWarnings
  }

  /** The session is reported good exactly when `get_me` answered; a logout
      happens exactly on a fatal error or on the failure that reaches the
      threshold; the counters stay below it; other chats are untouched. */
  lemma VerifyContract(w: map<int, nat>, chat: int, probe: Probe)
    requires CountersBelowMax(w)
    ensures var r := VerifySpec(w, chat, probe);
      && (r.ok <==> probe == Healthy)
      && CountersBelowMax(r.warnings)
      && (r.logout.Some? <==>
            probe == FatalError
            || ((probe == ConnectFailed || probe == NoMe || probe == OtherError) && Count(w, chat) + 1 >= MaxWarnings))
      && (r.logout.Some? ==> chat !in r.warnings)
      && (probe == Healthy ==> Count(r.warnings, chat) == 0)
      && (forall c :: c != chat ==> Count(r.warnings, c) == Count(w, c))
  {
  }

  /** `k` failures in a row of a kind that counts. */
  function Failures(w: map<int, nat>, chat: int, probe: Probe, k: nat): (map<int, nat>, nat)
    requires probe == ConnectFailed || probe == NoMe || probe == OtherError
  {
    if k == 0 then (w, 0)
    else
      var (w', logouts) := Failures(w, chat, probe, k - 1);
      var r := VerifySpec(w', chat, probe);
      (r.warnings, logouts + (if r.logout.Some? then 1 else 0))
  }

  /** From a clean counter, `k` failures in a row leave the counter at `k % 5`
      and force `k / 5` logouts: one every fifth failure. */
  lemma {:induction false} FailuresCycle(w: map<int, nat>, chat: int, probe: Probe, k: nat)
    requires probe == ConnectFailed || probe == NoMe || probe == OtherError
    requires Count(w, chat) == 0
    ensures Count(Failures(w, chat, probe, k).0, chat) == k % MaxWarnings
    ensures Failures(w, chat, probe, k).1 == k / MaxWarnings
  {
    if k > 0 {
      FailuresCycle(w, chat, probe, k - 1);
      var j := k - 1;
      assert k % MaxWarnings == if j % MaxWarnings == MaxWarnings - 1 then 0 else j % MaxWarnings + 1;
      assert k / MaxWarnings == j / MaxWarnings + (if j % MaxWarnings == MaxWarnings - 1 then 1 else 0);
    }
  }

  /** `verify_session` over the shared `warning_counts` dictionary, with the
      logouts it triggers recorded in order. */
  class SessionGuardian {
    var warnings: map<int, nat>
    var logouts: seq<(int, string)>

    predicate Valid()
      reads this
    {
      CountersBelowMax(warnings)
    }

    constructor ()
      ensures Valid() && warnings == map[] && logouts == []
    {
      warnings := map[];
      logouts := [];
    }

    method Verify(chat: int, probe: Probe) returns (ok: bool)
      requires Valid()
      modifies this
      ensures Valid()
      ensures var r := VerifySpec(old(warnings), chat, probe);
        && ok == r.ok && warnings == r.warnings
        && logouts == old(logouts) + (if r.logout.Some? then [(chat, r.logout.value)] else [])
    {
      VerifyContract(warnings, chat, probe);
      if probe == NoClient {
        return false;
      }
      if probe == Healthy {
        warnings := warnings[chat := 0];
        return true;
      }
      if probe == FatalError {
        Logout(chat, ReasonFatal);
        return false;
      }
      var n := Count(warnings, chat) + 1;
      warnings := warnings[chat := n];
      if n >= MaxWarnings {
        var reason := if probe == ConnectFailed then ReasonConnectionFailed
                      else if probe == NoMe then ReasonGetMeFailed else ReasonMaxWarnings;
        Logout(chat, reason);
      }
      ok := false;
    }

    /** The part of `logout_user` that concerns the counters: the chat's
        entry is deleted. */
    method Logout(chat: int, reason: string)
      modifies this
      ensures warnings == old(warnings) - {chat}
      ensures logouts == old(logouts) + [(chat, reason)]
    {
      warnings := warnings - {chat};
      logouts := logouts + [(chat, reason)];
    }
  }

  // --------------------------------------------------------- reconnecting

  /** What one reconnect attempt produced: authorised; connected but not
      authorised; a fatal session error; a connection error; any other
      error. */
  datatype Attempt = Authorized | NotAuthorized | FatalSession | ConnectionLost | OtherFailure

  function Pow2(k: nat): nat {
    if k == 0 then 1 else 2 * Pow2(k - 1)
  }

  /** `min(2 ** attempt, 15)` seconds. */
  function Backoff(attempt: nat): nat {
    if Pow2(attempt) < 15 then Pow2(attempt) else 15
  }

  /** The outcome of `reconnect_client`: whether the client is usable, the
      pauses taken between attempts, and whether the user was marked
      unregistered. */
  datatype ReconnectRun = ReconnectRun(ok: bool, sleeps: seq<nat>, deregistered: bool)

  /** Attempts `done + 1 .. max`: an authorised client ends with success; an
      unauthorised client or a fatal error ends with failure and marks the
      user unregistered; other errors wait `Backoff` and try again, except
      after the last attempt. */
  function ReconnectFrom(done: nat, max: nat, attempts: nat -> Attempt): ReconnectRun
    decreases max - done
  {
    if done >= max then ReconnectRun(false, [], false)
    else
      var a := done + 1;
      match attempts(a)
      case Authorized => ReconnectRun(true, [], false)
      case NotAuthorized => ReconnectRun(false, [], true)
      case FatalSession => ReconnectRun(false, [], true)
      case _ =>
        if a < max then
          Prefixed([Backoff(a)], ReconnectFrom(a, max, attempts))
        else ReconnectRun(false, [], false)
  }

  /** `reconnect_client`. */
  method Reconnect(hasClient: bool, attempts: nat -> Attempt, max: nat) returns (ok: bool, sleeps: seq<nat>, deregistered: bool)
    ensures hasClient ==> ReconnectRun(ok, sleeps, deregistered) == ReconnectFrom(0, max, attempts)
    ensures !hasClient ==> !ok && sleeps == [] && !deregistered
  {
    ok, sleeps, deregistered := false, [], false;
    if !hasClient {
      return;
    }
    var attempt := 0;
    while attempt < max
      invariant 0 <= attempt <= max
      invariant ReconnectFrom(0, max, attempts) == Prefixed(sleeps, ReconnectFrom(attempt, max, attempts))
      decreases max - attempt
    {
      var before := attempt;
      attempt := attempt + 1;
      var outcome := attempts(attempt);
      if outcome == Authorized {
        assert ReconnectFrom(before, max, attempts) == ReconnectRun(true, [], false);
        return true, sleeps, false;
      } else if outcome == NotAuthorized || outcome == FatalSession {
        assert ReconnectFrom(before, max, attempts) == ReconnectRun(false, [], true);
        return false, sleeps, true;
      } else if attempt < max {
        var rest := ReconnectFrom(attempt, max, attempts);
        assert ReconnectFrom(before, max, attempts) == Prefixed([Backoff(attempt)], rest);
        assert sleeps + ([Backoff(attempt)] + rest.sleeps) == (sleeps + [Backoff(attempt)]) + rest.sleeps;
        sleeps := sleeps + [Backoff(attempt)];
      } else {
        assert ReconnectFrom(before, max, attempts) == ReconnectRun(false, [], false);
        return false, sleeps, false;
      }
    }
  }

  /** A run with pauses `s` taken before it. */
  function Prefixed(s: seq<nat>, r: ReconnectRun): ReconnectRun {
    ReconnectRun(r.ok, s + r.sleeps, r.deregistered)
  }

  /** The pauses follow the failed attempts `1, 2, ...` with `min(2^k, 15)`
      seconds, never after the last attempt; success means the attempt after
      the pauses was authorised; there are never more than `max` attempts. */
  lemma {:induction false} ReconnectShape(done: nat, max: nat, attempts: nat -> Attempt)
    ensures var r := ReconnectFrom(done, max, attempts);
      && (done < max ==> |r.sleeps| < max - done)
      && (done >= max ==> r.sleeps == [])
      && (forall i :: 0 <= i < |r.sleeps| ==> r.sleeps[i] == Backoff(done + 1 + i) && r.sleeps[i] <= 15)
      && (forall i :: done < i <= done + |r.sleeps| ==> attempts(i) == ConnectionLost || attempts(i) == OtherFailure)
      && (r.ok ==> attempts(done + 1 + |r.sleeps|) == Authorized)
      && (r.deregistered ==> attempts(done + 1 + |r.sleeps|) == NotAuthorized || attempts(done + 1 + |r.sleeps|) == FatalSession)
      && !(r.ok && r.deregistered)
    decreases max - done
  {
    if done < max {
      var a := done + 1;
      var k := attempts(a);
      if k != Authorized && k != NotAuthorized && k != FatalSession && a < max {
        ReconnectShape(a, max, attempts);
        var rest := ReconnectFrom(a, max, attempts);
        var r := ReconnectFrom(done, max, attempts);
        assert r.sleeps == [Backoff(a)] + rest.sleeps;
        forall i | 0 <= i < |r.sleeps|
          ensures r.sleeps[i] == Backoff(done + 1 + i) && r.sleeps[i] <= 15
        {
          if i > 0 {
            assert r.sleeps[i] == rest.sleeps[i - 1];
          }
        }
      }
    }
  }

  /** With the default of two attempts, two transient failures give one
      pause of two seconds and no success. */
  lemma DefaultAttempts(attempts: nat -> Attempt)
    requires attempts(1) == ConnectionLost || attempts(1) == OtherFailure
    requires attempts(2) == ConnectionLost || attempts(2) == OtherFailure
    ensures ReconnectFrom(0, 2, attempts) == ReconnectRun(false, [2], false)
  {
    assert Pow2(1) == 2;
  }

  /** The backoff doubles from 2 seconds and is capped at 15 from the fourth
      attempt on. */
  lemma {:induction false} BackoffValues(k: nat)
    ensures Backoff(1) == 2 && Backoff(2) == 4 && Backoff(3) == 8
    ensures k >= 4 ==> Backoff(k) == 15
  {
    assert Pow2(1) == 2 && Pow2(2) == 4 && Pow2(3) == 8 && Pow2(4) == 16;
    if k >= 4 {
      Pow2AtLeast(k);
    }
  }

  lemma {:induction false} Pow2AtLeast(k: nat)
    requires k >= 4
    ensures Pow2(k) >= 16
  {
    if k > 4 {
      Pow2AtLeast(k - 1);
    } else {
      assert Pow2(4) == 16 by { assert Pow2(2) == 4; }
    }
  }
}
