/** The per-chat worker registry (`user_tasks`) and `manage_forward_copy_task`,
    which starts a forwarding/copying worker when one should run and none is
    live, and cancels the live one when it should not. `now` is the integer
    part of `time.time()`: for an integer `v`, `v > t` holds exactly when
    `v > floor(t)`. */
module Supervisor {
  import opened Common
  import opened Schema

  /** The truth value Python compares a stored expiry with, if the comparison
      with a float does not raise: integers and booleans compare, anything
      else raises `TypeError`. */
  function ExpiryAfter(j: Json, now: int): Option<bool> {
    match j
    case JInt(v) => Some(v > now)
    case JBool(b) => Some((if b then 1 else 0) > now)
    case _ => None
  }

  /** `bot_data.get('key_expiry_timestamp', 0)`. */
  function StoredExpiry(bot: BotData): Json {
    if KeyKeyExpiry in bot then bot[KeyKeyExpiry] else JInt(0)
  }

  /** The conjuncts of `should_run` before the expiry test, in source order. */
  predicate ModesAndKey(bot: BotData) {
    (Truthy(Get(bot, KeyIsForwarding)) || Truthy(Get(bot, KeyIsCopying)))
    && Truthy(Get(bot, KeyIsRegistered)) && Truthy(Get(bot, KeyHasValidKey))
  }

  /** `should_run` as written: the expiry comparison is evaluated before the
      admin test, so it raises (None) for a stored value that is not a
      number, even for an admin. */
  function ShouldRunAsWritten(bot: BotData, now: int, admin: bool): (r: Option<bool>)
    ensures r.None? <==> ModesAndKey(bot) && ExpiryAfter(StoredExpiry(bot), now).None?
  {
    if !ModesAndKey(bot) then Some(false)
    else match ExpiryAfter(StoredExpiry(bot), now)
      case None => None
      case Some(b) => Some(b || admin)
  }

  /** `should_run` as intended: an admin needs no expiry, and a stored value
      that is not a number is no valid expiry. */
  function ShouldRun(bot: BotData, now: int, admin: bool): bool {
    ModesAndKey(bot) && (admin || ExpiryAfter(StoredExpiry(bot), now) == Some(true))
  }

  /** A worker runs exactly when a mode is on, the user is registered with a
      valid key, and the user is an admin or the key expires strictly after
      now. A missing expiry counts as 0. */
  lemma ShouldRunMeaning(bot: BotData, now: int, admin: bool)
    ensures ShouldRun(bot, now, admin) <==>
      && (Truthy(Get(bot, KeyIsForwarding)) || Truthy(Get(bot, KeyIsCopying)))
      && Truthy(Get(bot, KeyIsRegistered)) && Truthy(Get(bot, KeyHasValidKey))
      && (admin
          || (KeyKeyExpiry !in bot && 0 > now)
          || (KeyKeyExpiry in bot && bot[KeyKeyExpiry].JInt? && bot[KeyKeyExpiry].i > now)
          || (KeyKeyExpiry in bot && bot[KeyKeyExpiry] == JBool(true) && 1 > now)
          || (KeyKeyExpiry in bot && bot[KeyKeyExpiry] == JBool(false) && 0 > now))
  {
  }

  /** Wherever the code as written reaches a decision, the intended rule
      reaches the same one. */
  lemma ShouldRunAgrees(bot: BotData, now: int, admin: bool)
    requires ShouldRunAsWritten(bot, now, admin).Some?
    ensures ShouldRunAsWritten(bot, now, admin).value == ShouldRun(bot, now, admin)
  {
  }

  /** An admin granted a key by `/start` keeps the default expiry None; as
      soon as forwarding is switched on, the code as written raises instead
      of starting the worker, while the intended rule starts it. */
  lemma AdminWithoutExpiryRaises(bot: BotData, now: int)
    requires Get(bot, KeyIsForwarding) == JBool(true)
    requires Get(bot, KeyIsRegistered) == JBool(true) && Get(bot, KeyHasValidKey) == JBool(true)
    requires KeyKeyExpiry in bot && bot[KeyKeyExpiry] == JNull
    ensures ShouldRunAsWritten(bot, now, true) == None
    ensures ShouldRun(bot, now, true)
  {
  }

  /** The `/start` update for an admin and the schema default give exactly
      that state once forwarding is on. */
  lemma AdminStartLeavesNoExpiry()
    ensures DefaultBotData[KeyKeyExpiry] == JNull
    ensures var admin := DefaultBotData[KeyHasValidKey := JBool(true)][KeyActiveKeyType := JStr("admin")]
                                       [KeyIsRegistered := JBool(true)][KeyIsForwarding := JBool(true)];
            ShouldRunAsWritten(admin, 0, true) == None
  {
    var admin := DefaultBotData[KeyHasValidKey := JBool(true)][KeyActiveKeyType := JStr("admin")]
                               [KeyIsRegistered := JBool(true)][KeyIsForwarding := JBool(true)];
    assert Get(admin, KeyIsForwarding) == JBool(true);
    assert Get(admin, KeyIsRegistered) == JBool(true) && Get(admin, KeyHasValidKey) == JBool(true);
    assert admin[KeyKeyExpiry] == JNull;
    AdminWithoutExpiryRaises(admin, 0);
  }

  /** A registered worker: still running, or finished. */
  datatype TaskState = Running | Finished

  predicate Live(tasks: map<int, TaskState>, chat: int) {
    chat in tasks && tasks[chat] == Running
  }

  datatype ManageStep = ManageStep(tasks: map<int, TaskState>, started: bool, cancelled: bool)

  /** The registry after `manage_forward_copy_task` given `should_run`. */
  function ManageSpec(tasks: map<int, TaskState>, chat: int, shouldRun: bool): ManageStep {
    if Live(tasks, chat) then
      if shouldRun then ManageStep(tasks, false, false)
      else ManageStep(tasks - {chat}, false, true)
    else if shouldRun then ManageStep(tasks[chat := Running], true, false)
    else ManageStep(tasks, false, false)
  }

  /** After managing, a worker is live exactly when one should run; one is
      started only when none was live and cancelled only when one was; other
      chats are untouched. */
  lemma ManageContract(tasks: map<int, TaskState>, chat: int, shouldRun: bool)
    ensures var r := ManageSpec(tasks, chat, shouldRun);
      && (Live(r.tasks, chat) <==> shouldRun)
      && (r.started <==> shouldRun && !Live(tasks, chat))
      && (r.cancelled <==> !shouldRun && Live(tasks, chat))
      && (forall c :: c != chat ==> (c in r.tasks <==> c in tasks) && (c in tasks ==> r.tasks[c] == tasks[c]))
  {
  }

  /** Managing twice with the same decision changes nothing the second
      time. */
  lemma ManageIdempotent(tasks: map<int, TaskState>, chat: int, shouldRun: bool)
    ensures var once := ManageSpec(tasks, chat, shouldRun);
            var twice := ManageSpec(once.tasks, chat, shouldRun);
            twice.tasks == once.tasks && !twice.started && !twice.cancelled
  {
  }

  /** `user_tasks` with the workers started and cancelled so far. */
  class Registry {
    var tasks: map<int, TaskState>
    var started: seq<int>
    var cancelled: seq<int>

    constructor ()
      ensures tasks == map[] && started == [] && cancelled == []
    {
      tasks := map[];
      started := [];
      cancelled := [];
    }

    /** `manage_forward_copy_task` with the intended `should_run`. */
    method Manage(chat: int, bot: BotData, now: int, admin: bool)
      modifies this
      ensures var r := ManageSpec(old(tasks), chat, ShouldRun(bot, now, admin));
        && tasks == r.tasks
        && started == old(started) + (if r.started then [chat] else [])
        && cancelled == old(cancelled) + (if r.cancelled then [chat] else [])
    {
      var shouldRun := ShouldRun(bot, now, admin);
      var live := chat in tasks && tasks[chat] == Running;
      if live {
        if !shouldRun {
          cancelled := cancelled + [chat];
          tasks := tasks - {chat};
        }
      } else if shouldRun {
        tasks := tasks[chat := Running];
        started := started + [chat];
      }
    }

    /** The cleanup at the end of `forward_and_copy_task`: the chat's entry
        is removed if there is one. */
    method WorkerExited(chat: int)
      modifies this
      ensures tasks == old(tasks) - {chat}
      ensures started == old(started) && cancelled == old(cancelled)
    {
      if chat in tasks {
        tasks := tasks - {chat};
      }
    }
  }
}
