/** `forward_and_copy_task`: the per-chat worker. Each iteration reloads the
    user's `bot_data`, recovers the session or stops, switches off expired
    modes, stops when no mode is on, waits when there are no targets, sends
    every forward set and the first saved item, and waits `delay` seconds.
    The sender's True/False answers, the connection state and the clock are
    given per iteration; the endless loop is modelled over a finite sequence
    of iterations. */
module Worker {
  import opened Common
  import opened Schema
  import opened Entities
  import Supervisor

  const DefaultDelay := JInt(120)
  /** The one-second pause after each forward set. */
  const SetPause := JInt(1)

  // ------------------------------------------------------------ mode expiry

  /** `bot_data.get(flag) and bot_data.get(expiry) and now >= bot_data.get(expiry)`;
      None where the comparison raises because the expiry is not a number. */
  function Due(bot: BotData, flag: string, expiry: string, now: int): Option<bool> {
    var ts := Get(bot, expiry);
    if !Truthy(Get(bot, flag)) || !Truthy(ts) then Some(false)
    else match ts
      case JInt(v) => Some(now >= v)
      case JBool(_) => Some(now >= 1)
      case _ => None
  }

  function SwitchOff(bot: BotData, flag: string, expiry: string): BotData {
    bot[flag := JBool(false)][expiry := JNull]
  }

  datatype Expiry = Expiry(bot: BotData, changed: bool)

  /** Both expiry checks, forward first; `changed` is `made_changes`. */
  function ExpireModes(bot: BotData, now: int): Option<Expiry> {
    match Due(bot, KeyIsForwarding, KeyForwardExpiry, now)
    case None => None
    case Some(f) =>
      var b1 := if f then SwitchOff(bot, KeyIsForwarding, KeyForwardExpiry) else bot;
      match Due(b1, KeyIsCopying, KeyCopyExpiry, now)
      case None => None
      case Some(c) =>
        var b2 := if c then SwitchOff(b1, KeyIsCopying, KeyCopyExpiry) else b1;
        Some(Expiry(b2, f || c))
  }

  predicate ModeKey(k: string) {
    k == KeyIsForwarding || k == KeyForwardExpiry || k == KeyIsCopying || k == KeyCopyExpiry
  }

  /** A mode that is on, with a nonzero integer expiry at or before now, is
      switched off and its expiry cleared; a mode without an expiry, a mode
      that is off and a mode whose expiry lies after now are left as they
      are; nothing else changes; the data is written back exactly when it
      changed. */
  lemma ExpiryContract(bot: BotData, now: int)
    requires ExpireModes(bot, now).Some?
    ensures var x := ExpireModes(bot, now).value;
      && (x.changed <==> x.bot != bot)
      && x.bot.Keys == bot.Keys
      && (forall k :: k in bot && !ModeKey(k) ==> x.bot[k] == bot[k])
      && (Truthy(Get(bot, KeyIsForwarding)) && Get(bot, KeyForwardExpiry).JInt?
          && Get(bot, KeyForwardExpiry).i != 0 && now >= Get(bot, KeyForwardExpiry).i
          ==> Get(x.bot, KeyIsForwarding) == JBool(false) && Get(x.bot, KeyForwardExpiry) == JNull)
      && (Truthy(Get(bot, KeyIsCopying)) && Get(bot, KeyCopyExpiry).JInt?
          && Get(bot, KeyCopyExpiry).i != 0 && now >= Get(bot, KeyCopyExpiry).i
          ==> Get(x.bot, KeyIsCopying) == JBool(false) && Get(x.bot, KeyCopyExpiry) == JNull)
      && (!Truthy(Get(bot, KeyForwardExpiry))
          ==> Get(x.bot, KeyIsForwarding) == Get(bot, KeyIsForwarding) && Get(x.bot, KeyForwardExpiry) == Get(bot, KeyForwardExpiry))
      && (!Truthy(Get(bot, KeyCopyExpiry))
          ==> Get(x.bot, KeyIsCopying) == Get(bot, KeyIsCopying) && Get(x.bot, KeyCopyExpiry) == Get(bot, KeyCopyExpiry))
      && (!Truthy(Get(bot, KeyIsForwarding)) || (Get(bot, KeyForwardExpiry).JInt? && now < Get(bot, KeyForwardExpiry).i)
          ==> Get(x.bot, KeyIsForwarding) == Get(bot, KeyIsForwarding) && Get(x.bot, KeyForwardExpiry) == Get(bot, KeyForwardExpiry))
      && (!Truthy(Get(bot, KeyIsCopying)) || (Get(bot, KeyCopyExpiry).JInt? && now < Get(bot, KeyCopyExpiry).i)
          ==> Get(x.bot, KeyIsCopying) == Get(bot, KeyIsCopying) && Get(x.bot, KeyCopyExpiry) == Get(bot, KeyCopyExpiry))
  {
    var f := Due(bot, KeyIsForwarding, KeyForwardExpiry, now).value;
    var b1 := if f then SwitchOff(bot, KeyIsForwarding, KeyForwardExpiry) else bot;
    if f {
      assert b1[KeyIsForwarding] != bot[KeyIsForwarding];
    }
    assert Get(b1, KeyIsCopying) == Get(bot, KeyIsCopying) && Get(b1, KeyCopyExpiry) == Get(bot, KeyCopyExpiry);
    var c := Due(b1, KeyIsCopying, KeyCopyExpiry, now).value;
    if c {
      var b2 := SwitchOff(b1, KeyIsCopying, KeyCopyExpiry);
      assert b2[KeyIsCopying] != bot[KeyIsCopying];
    }
  }

  /** The expiry checks as the loop body runs them, on its own copy of the
      data. */
  method ExpireInPlace(bot0: BotData, now: int) returns (r: Option<Expiry>)
    ensures r == ExpireModes(bot0, now)
  {
    var bot := bot0;
    var madeChanges := false;
    var due := Due(bot, KeyIsForwarding, KeyForwardExpiry, now);
    if due.None? {
      return None;
    }
    if due.value {
      bot := bot[KeyIsForwarding := JBool(false)];
      bot := bot[KeyForwardExpiry := JNull];
      madeChanges := true;
    }
    due := Due(bot, KeyIsCopying, KeyCopyExpiry, now);
    if due.None? {
      return None;
    }
    if due.value {
      bot := bot[KeyIsCopying := JBool(false)];
      bot := bot[KeyCopyExpiry := JNull];
      madeChanges := true;
    }
    return Some(Expiry(bot, madeChanges));
  }

  // ------------------------------------------------------------ message links

  /** `link.split('/')`, then the chat is the last but one piece and the
      message id `int()` of the last; None where that raises. */
  function ParseLink(link: Json): Option<(string, int)> {
    match link
    case JStr(s) =>
      var parts := Split(s, '/');
      if |parts| < 2 then None
      else (match PyInt(parts[|parts| - 1])
        case None => None
        case Some(id) => Some((parts[|parts| - 2], id)))
    case _ => None
  }

  /** A link `<prefix>/<chat>/<id>` gives back the chat and the id. */
  lemma ParseLinkRoundTrip(prefix: string, chat: string, id: int)
    requires '/' !in chat
    ensures ParseLink(JStr(prefix + ['/'] + chat + ['/'] + IntToString(id))) == Some((chat, id))
  {
    var digits := IntToString(id);
    IntToStringAlphabet(id);
    assert '/' !in digits;
    var x := prefix + ['/'] + chat;
    SplitLast(x, '/', digits);
    SplitLast(prefix, '/', chat);
    var parts := Split(x + ['/'] + digits, '/');
    assert parts == Split(prefix, '/') + [chat] + [digits];
    PyIntOfIntToString(id);
    assert prefix + ['/'] + chat + ['/'] + digits == x + ['/'] + digits;
  }

  /** Text without a slash is no link. */
  lemma ParseLinkNeedsSlash(s: string)
    requires '/' !in s
    ensures ParseLink(JStr(s)) == None
  {
  }

  // --------------------------------------------------------------- watermark

  const VipKeyType := JStr("vip")
  const BasicKeyType := JStr("basic")

  /** `watermark_to_apply`: a VIP with the watermark on uses their own text;
      otherwise a basic key with an assigned text uses it; otherwise an admin
      with the watermark on uses their own text; otherwise none. */
  function Watermark(bot: BotData, admin: bool): Json {
    var keyType := Get(bot, KeyActiveKeyType);
    var enabled := Truthy(GetDefault(bot, KeyWatermarkEnabled, JBool(false)));
    var own := GetDefault(bot, KeyWatermarkText, JStr(DefaultGlobalWatermarkText));
    if keyType == VipKeyType && enabled then own
    else if keyType == BasicKeyType && Truthy(Get(bot, KeyAssignedBasicWatermark)) then Get(bot, KeyAssignedBasicWatermark)
    else if admin && enabled then own
    else JStr("")
  }

  /** Who gets which watermark, branch by branch: a VIP with the watermark
      on gets their own text; otherwise a basic key with an assigned text
      gets that text; otherwise an admin with the watermark on gets their own
      text; otherwise nobody gets one. As consequences, a basic key never
      shows the user's own text unless the user is an admin, a switched-off
      watermark shows nothing but a basic key's assigned text, and a user with
      neither kind of key who is not an admin gets no watermark. */
  lemma WatermarkChoice(bot: BotData, admin: bool)
    ensures var w := Watermark(bot, admin);
      var enabled := Truthy(GetDefault(bot, KeyWatermarkEnabled, JBool(false)));
      var own := GetDefault(bot, KeyWatermarkText, JStr(DefaultGlobalWatermarkText));
      var keyType := Get(bot, KeyActiveKeyType);
      var basicText := Get(bot, KeyAssignedBasicWatermark);
      && (keyType == BasicKeyType && Truthy(basicText) ==> w == basicText)
      && (enabled && (keyType == VipKeyType || admin) && !(keyType == BasicKeyType && Truthy(basicText)) ==> w == own)
      && (!(keyType == VipKeyType && enabled) && !(keyType == BasicKeyType && Truthy(basicText)) && !(admin && enabled)
          ==> w == JStr(""))
      && (keyType == BasicKeyType && !admin ==> w == Get(bot, KeyAssignedBasicWatermark) || w == JStr(""))
      && (!enabled ==> w == JStr("") || (keyType == BasicKeyType && w == Get(bot, KeyAssignedBasicWatermark)))
      && (keyType != VipKeyType && keyType != BasicKeyType && !admin ==> w == JStr(""))
      && (keyType == VipKeyType && enabled ==> w == own)
      && (Truthy(w) ==> w == own || w == Get(bot, KeyAssignedBasicWatermark))
  {
  }

  /** f-string formatting of a stored value. */
  function Str(j: Json): string {
    match j
    case JStr(s) => s
    case JInt(i) => IntToString(i)
    case JBool(b) => if b then "True" else "False"
    case JNull => "None"
    case _ => ""
  }

  /** What `do_copy_actual` sends to one target. */
  datatype Outgoing =
    | SendFile(media: Json, caption: Json, entities: seq<MessageEntity>, markdown: bool)
    | SendText(text: Json, entities: seq<MessageEntity>, markdown: bool)
    | NothingToSend
    /** The stored item is not a dictionary: every send raises. */
    | Unreadable

  /** `re.search(r"[*_`~[\]()]", text)`. */
  predicate HasMarkupChar(s: string) {
    exists i :: 0 <= i < |s| && s[i] in "*_`~[]()"
  }

  /** `[dict_to_entity(e) for e in entities if e]` without the Nones. */
  function DecodeEntities(xs: seq<Json>): (r: seq<MessageEntity>)
    ensures |r| <= |xs|
  {
    if xs == [] then []
    else
      var head := DictToEntity(xs[0]);
      (if Truthy(xs[0]) && head.Some? then [head.value] else []) + DecodeEntities(xs[1..])
  }

  /** Decoding is an in-order filter-map: the decoding of a concatenation
      is the concatenation of the decodings ... */
  lemma {:induction false} DecodeEntitiesConcat(a: seq<Json>, b: seq<Json>)
    ensures DecodeEntities(a + b) == DecodeEntities(a) + DecodeEntities(b)
  {
    if a == [] {
      assert a + b == b;
    } else {
      assert (a + b)[0] == a[0];
      assert (a + b)[1..] == a[1..] + b;
      DecodeEntitiesConcat(a[1..], b);
    }
  }

  /** ... and one stored value gives its annotation exactly when it is
      truthy and `dict_to_entity` rebuilds it. */
  lemma DecodeEntitiesOne(x: Json)
    ensures DecodeEntities([x]) == if Truthy(x) && DictToEntity(x).Some? then [DictToEntity(x).value] else []
  {
    assert [x][1..] == [];
  }

  function StoredEntities(j: Json): seq<MessageEntity> {
    match j
    case JList(xs) => DecodeEntities(xs)
    case _ => []
  }

  /** The text sent: the saved text, followed by a blank line and the
      watermark when there is one; for media without text, the watermark
      alone. */
  function ComposedText(text: Json, media: Json, wm: Json): Json {
    if !Truthy(wm) then text
    else if Truthy(text) then JStr(Str(text) + "\n\n" + Str(wm))
    else if Truthy(media) then wm
    else text
  }

  /** `do_copy_actual`: `linkMarkup` stands for the search for a markdown
      link `[..](http..)`. */
  function Compose(item: Json, bot: BotData, admin: bool, linkMarkup: string -> bool): Outgoing {
    match item
    case JObj(m) =>
      var text0 := GetDefault(m, "text", JStr(""));
      var ents := GetDefault(m, "entities", JList([]));
      var media := Get(m, "media_file_id");
      var wm := Watermark(bot, admin);
      var text := ComposedText(text0, media, wm);
      var entities := if !Truthy(wm) && Truthy(ents) then StoredEntities(ents) else [];
      var markdown := if Truthy(wm) && Truthy(ents) then HasMarkupChar(Str(text))
                      else if !Truthy(wm) && Truthy(ents) then false
                      else Truthy(text) && linkMarkup(Str(text));
      if Truthy(media) then SendFile(media, text, entities, markdown)
      else if Truthy(text) then SendText(text, entities, markdown)
      else NothingToSend
    case _ => Unreadable
  }

  /** A watermark follows non-empty text after a blank line and is the whole
      caption of media without text; without a watermark the saved text goes
      out unchanged; an item with neither text nor media sends nothing. */
  lemma ComposeContract(m: map<string, Json>, bot: BotData, admin: bool, linkMarkup: string -> bool)
    ensures var out := Compose(JObj(m), bot, admin, linkMarkup);
      var text0 := GetDefault(m, "text", JStr(""));
      var media := Get(m, "media_file_id");
      var wm := Watermark(bot, admin);
      && (Truthy(wm) && text0.JStr? && text0.s != "" && wm.JStr? ==>
            (out.SendFile? && out.caption == JStr(text0.s + "\n\n" + wm.s))
            || (out.SendText? && out.text == JStr(text0.s + "\n\n" + wm.s)))
      && (Truthy(wm) && !Truthy(text0) && Truthy(media) ==> out.SendFile? && out.media == media && out.caption == wm)
      && (!Truthy(wm) ==> (out.SendFile? && out.caption == text0) || (out.SendText? && out.text == text0) || out.NothingToSend?)
      && (!Truthy(text0) && !Truthy(media) ==> out == NothingToSend)
  {
  }

  /** Entities stored by `entity_to_dict` come back as the same entities when
      no watermark is added. */
  lemma {:induction false} StoredEntitiesRoundTrip(es: seq<MessageEntity>)
    requires forall i :: 0 <= i < |es| ==> WellNamed(es[i]) && !es[i].OtherEntity?
    ensures DecodeEntities(EntityJson(es)) == es
  {
    if es != [] {
      EntityRoundTrip(es[0]);
      assert EntityJson(es)[1..] == EntityJson(es[1..]);
      StoredEntitiesRoundTrip(es[1..]);
      assert Truthy(EntityJson(es)[0]);
    }
  }

  /** The stored form of a list of entities. */
  function EntityJson(es: seq<MessageEntity>): seq<Json> {
    if es == [] then [] else [JObj(EntityToDict(Annotation(es[0])).value)] + EntityJson(es[1..])
  }

  // ---------------------------------------------------------- one iteration

  /** What the loop meets in one iteration: whether the client is connected,
      what `verify_session` answers when it is not, the integer time, and
      what the `i`-th call of `send_messages_in_batches` in this iteration
      returns. */
  datatype CycleInput = CycleInput(connected: bool, verifyOk: bool, now: int, senderOk: nat -> bool)

  /** A call of `send_messages_in_batches`. */
  datatype Call =
    | ForwardSingle(fromChat: string, msgId: int)
    | ForwardDual(fromChat1: string, msgId1: int, fromChat2: string, msgId2: int, pause: Json)
    | CopyItem(message: Outgoing)

  datatype Event = Sending(call: Call, ok: bool) | BadLink | Pause(seconds: Json)

  /** Why the worker ended: the session could not be recovered, no mode is
      on, copying failed, or an exception reached the outer handler. */
  datatype Stop = SessionLost | NoModeActive | CopyFailed | Crashed

  datatype Cycle = Cycle(db: BotData, events: seq<Event>, stop: Option<Stop>)

  const BothOff: BotData := map[KeyIsForwarding := JBool(false), KeyIsCopying := JBool(false)]

  /** The outer exception handler: both modes off, and stop. */
  function Crash(db: BotData, events: seq<Event>): Cycle {
    Cycle(db + BothOff, events, Some(Crashed))
  }

  /** `asyncio.sleep(bot_data.get('delay', 120))`, which raises for a value
      that is not a number. */
  function Wait(db: BotData, events: seq<Event>, bot: BotData): Cycle {
    var d := GetDefault(bot, KeyDelay, DefaultDelay);
    if d.JInt? || d.JBool? then Cycle(db, events + [Pause(d)], None) else Crash(db, events)
  }

  /** The forward loop's state: the stored data, what happened, how many
      sends were made, whether a failed send ended the loop, whether an
      exception escaped it. */
  datatype Fwd = Fwd(db: BotData, events: seq<Event>, sends: nat, broken: bool, crashed: bool)

  /** A forward send: a False answer switches forwarding off and ends the
      forward loop; otherwise the loop pauses one second. */
  function SendForward(st: Fwd, call: Call, senderOk: nat -> bool): Fwd {
    var ok := senderOk(st.sends);
    var st1 := st.(events := st.events + [Sending(call, ok)], sends := st.sends + 1);
    if ok then st1.(events := st1.events + [Pause(SetPause)])
    else st1.(db := st1.db[KeyIsForwarding := JBool(false)], broken := true)
  }

  /** One forward set. A set without its link(s) is skipped without the
      pause; a link that does not parse is reported, then the pause. */
  function ForwardSet(st: Fwd, entry: Json, senderOk: nat -> bool): Fwd {
    if st.broken || st.crashed then st
    else match entry
      case JObj(m) => ForwardEntry(st, m, senderOk)
      case _ => st.(crashed := true)
  }

  function ForwardEntry(st: Fwd, m: map<string, Json>, senderOk: nat -> bool): Fwd {
    var kind := Get(m, "type");
    if kind == JStr("single") then ForwardOne(st, Get(m, "link"), senderOk)
    else if kind == JStr("dual") then ForwardTwo(st, m, senderOk)
    else st.(events := st.events + [Pause(SetPause)])
  }

  /** A `single` set. */
  function ForwardOne(st: Fwd, link: Json, senderOk: nat -> bool): Fwd {
    if !Truthy(link) then st
    else match ParseLink(link)
      case None => st.(events := st.events + [BadLink, Pause(SetPause)])
      case Some(p) => SendForward(st, ForwardSingle(p.0, p.1), senderOk)
  }

  /** A `dual` set. */
  function ForwardTwo(st: Fwd, m: map<string, Json>, senderOk: nat -> bool): Fwd {
    var link1, link2 := Get(m, "link1"), Get(m, "link2");
    if !Truthy(link1) || !Truthy(link2) then st
    else
      var p1, p2 := ParseLink(link1), ParseLink(link2);
      if p1.None? || p2.None? then st.(events := st.events + [BadLink, Pause(SetPause)])
      else SendForward(st, ForwardDual(p1.value.0, p1.value.1, p2.value.0, p2.value.1,
                                       GetDefault(m, "delay", SetPause)), senderOk)
  }

  function ForwardPrefix(sets: seq<Json>, k: nat, st0: Fwd, senderOk: nat -> bool): Fwd
    requires k <= |sets|
  {
    if k == 0 then st0 else ForwardSet(ForwardPrefix(sets, k - 1, st0, senderOk), sets[k - 1], senderOk)
  }

  lemma {:induction false} ForwardStays(sets: seq<Json>, k: nat, m: nat, st0: Fwd, senderOk: nat -> bool)
    requires k <= m <= |sets|
    requires ForwardPrefix(sets, k, st0, senderOk).broken || ForwardPrefix(sets, k, st0, senderOk).crashed
    ensures ForwardPrefix(sets, m, st0, senderOk) == ForwardPrefix(sets, k, st0, senderOk)
  {
    if m > k {
      ForwardStays(sets, k, m - 1, st0, senderOk);
    }
  }

  /** What the forward loop keeps true: a failed send is the last event and
      ends the loop with forwarding switched off in the stored data. */
  predicate FailureEndsLoop(st: Fwd) {
    && (forall i :: 0 <= i < |st.events| && st.events[i].Sending? && !st.events[i].ok ==> st.broken && i == |st.events| - 1)
    && (st.broken ==> Get(st.db, KeyIsForwarding) == JBool(false) && st.events != []
                      && st.events[|st.events| - 1].Sending? && !st.events[|st.events| - 1].ok)
    && !(st.broken && st.crashed)
  }

  lemma SendForwardKeeps(st: Fwd, call: Call, senderOk: nat -> bool)
    requires FailureEndsLoop(st) && !st.broken && !st.crashed
    ensures FailureEndsLoop(SendForward(st, call, senderOk))
  {
    var r := SendForward(st, call, senderOk);
    assert forall i :: 0 <= i < |st.events| ==> !(st.events[i].Sending? && !st.events[i].ok);
    assert forall i :: 0 <= i < |st.events| ==> r.events[i] == st.events[i];
  }

  lemma ForwardSetKeeps(st: Fwd, entry: Json, senderOk: nat -> bool)
    requires FailureEndsLoop(st)
    ensures FailureEndsLoop(ForwardSet(st, entry, senderOk))
  {
    if !st.broken && !st.crashed && entry.JObj? {
      ForwardEntryKeeps(st, entry.fields, senderOk);
    }
  }

  lemma ForwardEntryKeeps(st: Fwd, m: map<string, Json>, senderOk: nat -> bool)
    requires FailureEndsLoop(st) && !st.broken && !st.crashed
    ensures FailureEndsLoop(ForwardEntry(st, m, senderOk))
  {
    var kind := Get(m, "type");
    if kind == JStr("single") {
      var link := Get(m, "link");
      if Truthy(link) && ParseLink(link).Some? {
        SendForwardKeeps(st, ForwardSingle(ParseLink(link).value.0, ParseLink(link).value.1), senderOk);
      } else {
        NoteKeeps(st, [BadLink, Pause(SetPause)]);
      }
    } else if kind == JStr("dual") {
      ForwardTwoKeeps(st, m, senderOk);
    } else {
      NoteKeeps(st, [Pause(SetPause)]);
    }
  }

  lemma ForwardTwoKeeps(st: Fwd, m: map<string, Json>, senderOk: nat -> bool)
    requires FailureEndsLoop(st) && !st.broken && !st.crashed
    ensures FailureEndsLoop(ForwardTwo(st, m, senderOk))
  {
    var link1, link2 := Get(m, "link1"), Get(m, "link2");
    if Truthy(link1) && Truthy(link2) && ParseLink(link1).Some? && ParseLink(link2).Some? {
      var p1, p2 := ParseLink(link1).value, ParseLink(link2).value;
      SendForwardKeeps(st, ForwardDual(p1.0, p1.1, p2.0, p2.1, GetDefault(m, "delay", SetPause)), senderOk);
    } else {
      NoteKeeps(st, [BadLink, Pause(SetPause)]);
    }
  }

  /** Events other than a failed send, appended while the loop runs. */
  lemma NoteKeeps(st: Fwd, extra: seq<Event>)
    requires FailureEndsLoop(st) && !st.broken && !st.crashed
    requires forall e :: e in extra ==> !e.Sending?
    ensures FailureEndsLoop(st.(events := st.events + extra))
  {
    var r := st.(events := st.events + extra);
    forall i | 0 <= i < |r.events|
      ensures r.events[i].Sending? ==> r.events[i].ok
    {
      if i < |st.events| {
        assert r.events[i] == st.events[i];
      } else {
        assert r.events[i] == extra[i - |st.events|];
      }
    }
  }

  /** A failed forward send is the last thing the forward loop does, and it
      leaves forwarding switched off in the stored data. */
  lemma {:induction false} ForwardFailureDisables(sets: seq<Json>, k: nat, st0: Fwd, senderOk: nat -> bool)
    requires k <= |sets|
    requires st0.events == [] && !st0.broken && !st0.crashed
    ensures FailureEndsLoop(ForwardPrefix(sets, k, st0, senderOk))
  {
    if k > 0 {
      ForwardFailureDisables(sets, k - 1, st0, senderOk);
      ForwardSetKeeps(ForwardPrefix(sets, k - 1, st0, senderOk), sets[k - 1], senderOk);
    }
  }

  /** No copy of a saved item among the events. */
  predicate NoCopySends(events: seq<Event>) {
    forall i :: 0 <= i < |events| ==> !(events[i].Sending? && events[i].call.CopyItem?)
  }

  lemma NoCopyAppend(events: seq<Event>, extra: seq<Event>)
    requires NoCopySends(events) && NoCopySends(extra)
    ensures NoCopySends(events + extra)
  {
    forall i | 0 <= i < |events + extra|
      ensures !((events + extra)[i].Sending? && (events + extra)[i].call.CopyItem?)
    {
      if i < |events| {
        assert (events + extra)[i] == events[i];
      } else {
        assert (events + extra)[i] == extra[i - |events|];
      }
    }
  }

  /** One forward set only forwards, notes bad links and pauses. */
  lemma ForwardSetNoCopy(st: Fwd, entry: Json, senderOk: nat -> bool)
    requires NoCopySends(st.events)
    ensures NoCopySends(ForwardSet(st, entry, senderOk).events)
  {
    if !st.broken && !st.crashed && entry.JObj? {
      ForwardEntryNoCopy(st, entry.fields, senderOk);
    }
  }

  lemma ForwardEntryNoCopy(st: Fwd, m: map<string, Json>, senderOk: nat -> bool)
    requires NoCopySends(st.events)
    ensures NoCopySends(ForwardEntry(st, m, senderOk).events)
  {
    var kind := Get(m, "type");
    if kind == JStr("single") {
      ForwardOneNoCopy(st, Get(m, "link"), senderOk);
    } else if kind == JStr("dual") {
      ForwardTwoNoCopy(st, m, senderOk);
    } else {
      NoCopyAppend(st.events, [Pause(SetPause)]);
    }
  }

  lemma ForwardOneNoCopy(st: Fwd, link: Json, senderOk: nat -> bool)
    requires NoCopySends(st.events)
    ensures NoCopySends(ForwardOne(st, link, senderOk).events)
  {
    if Truthy(link) {
      match ParseLink(link)
      case None => NoCopyAppend(st.events, [BadLink, Pause(SetPause)]);
      case Some(p) => SendForwardNoCopy(st, ForwardSingle(p.0, p.1), senderOk);
    }
  }

  lemma ForwardTwoNoCopy(st: Fwd, m: map<string, Json>, senderOk: nat -> bool)
    requires NoCopySends(st.events)
    ensures NoCopySends(ForwardTwo(st, m, senderOk).events)
  {
    var link1, link2 := Get(m, "link1"), Get(m, "link2");
    if Truthy(link1) && Truthy(link2) {
      var p1, p2 := ParseLink(link1), ParseLink(link2);
      if p1.None? || p2.None? {
        NoCopyAppend(st.events, [BadLink, Pause(SetPause)]);
      } else {
        SendForwardNoCopy(st, ForwardDual(p1.value.0, p1.value.1, p2.value.0, p2.value.1,
                                          GetDefault(m, "delay", SetPause)), senderOk);
      }
    }
  }

  lemma SendForwardNoCopy(st: Fwd, call: Call, senderOk: nat -> bool)
    requires NoCopySends(st.events) && !call.CopyItem?
    ensures NoCopySends(SendForward(st, call, senderOk).events)
  {
    var ok := senderOk(st.sends);
    NoCopyAppend(st.events, [Sending(call, ok)]);
    NoCopyAppend(st.events + [Sending(call, ok)], [Pause(SetPause)]);
  }

  /** The forward loop never copies a saved item. */
  lemma {:induction false} ForwardNoCopy(sets: seq<Json>, k: nat, st0: Fwd, senderOk: nat -> bool)
    requires k <= |sets| && NoCopySends(st0.events)
    ensures NoCopySends(ForwardPrefix(sets, k, st0, senderOk).events)
  {
    if k > 0 {
      ForwardNoCopy(sets, k - 1, st0, senderOk);
      ForwardSetNoCopy(ForwardPrefix(sets, k - 1, st0, senderOk), sets[k - 1], senderOk);
    }
  }

  /** The forward loop. */
  method ForwardAll(sets: seq<Json>, st0: Fwd, senderOk: nat -> bool) returns (st: Fwd)
    requires !st0.broken && !st0.crashed
    ensures st == ForwardPrefix(sets, |sets|, st0, senderOk)
  {
    st := st0;
    var j := 0;
    while j < |sets| && !st.broken && !st.crashed
      invariant j <= |sets|
      invariant st == ForwardPrefix(sets, j, st0, senderOk)
    {
      st := ForwardSet(st, sets[j], senderOk);
      j := j + 1;
    }
    if j < |sets| {
      ForwardStays(sets, j, |sets|, st0, senderOk);
    }
  }

  function ForwardPhase(db: BotData, bot: BotData, senderOk: nat -> bool): Fwd {
    var start := Fwd(db, [], 0, false, false);
    if !(Truthy(Get(bot, KeyIsForwarding)) && Truthy(Get(bot, KeyForwardSets))) then start
    else match Get(bot, KeyForwardSets)
      case JList(sets) => ForwardPrefix(sets, |sets|, start, senderOk)
      case _ => start.(crashed := true)
  }

  /** `bot_data['saved_texts'][0]`: None where indexing raises. */
  function FirstSaved(j: Json): Option<Json> {
    match j
    case JList(xs) => if xs == [] then None else Some(xs[0])
    case JStr(s) => if s == "" then None else Some(JStr([s[0]]))
    case _ => None
  }

  function CopyPhase(fwd: Fwd, bot: BotData, admin: bool, senderOk: nat -> bool, linkMarkup: string -> bool): Cycle {
    if !(Truthy(Get(bot, KeyIsCopying)) && Truthy(Get(bot, KeySavedTexts))) then Wait(fwd.db, fwd.events, bot)
    else match FirstSaved(Get(bot, KeySavedTexts))
      case None => Crash(fwd.db, fwd.events)
      case Some(item) =>
        var ok := senderOk(fwd.sends);
        var events := fwd.events + [Sending(CopyItem(Compose(item, bot, admin, linkMarkup)), ok)];
        if !ok then Cycle(fwd.db[KeyIsCopying := JBool(false)], events, Some(CopyFailed))
        else Wait(fwd.db, events, bot)
  }

  predicate ModeOn(bot: BotData) {
    Truthy(Get(bot, KeyIsForwarding)) || Truthy(Get(bot, KeyIsCopying))
  }

  /** One iteration of the loop, from the stored data `db`. */
  function CycleSpec(db: BotData, inp: CycleInput, admin: bool, linkMarkup: string -> bool): Cycle {
    if !inp.connected && !inp.verifyOk then Cycle(db + BothOff, [], Some(SessionLost))
    else match ExpireModes(db, inp.now)
      case None => Crash(db, [])
      case Some(x) =>
        var db1 := if x.changed then db + x.bot else db;
        if !ModeOn(x.bot) then Cycle(db1, [], Some(NoModeActive))
        else if !Truthy(GetDefault(x.bot, KeyTargetGroups, JList([]))) then Wait(db1, [], x.bot)
        else
          var fwd := ForwardPhase(db1, x.bot, inp.senderOk);
          if fwd.crashed then Crash(fwd.db, fwd.events)
          else CopyPhase(fwd, x.bot, admin, inp.senderOk, linkMarkup)
  }

  /** One iteration, as the loop body runs it. */
  method RunCycle(db: BotData, inp: CycleInput, admin: bool, linkMarkup: string -> bool) returns (c: Cycle)
    ensures c == CycleSpec(db, inp, admin, linkMarkup)
  {
    if !inp.connected && !inp.verifyOk {
      return Cycle(db + BothOff, [], Some(SessionLost));
    }
    var expired := ExpireInPlace(db, inp.now);
    if expired.None? {
      return Crash(db, []);
    }
    var bot := expired.value.bot;
    var stored := db;
    if expired.value.changed {
      stored := stored + bot;
    }
    if !ModeOn(bot) {
      return Cycle(stored, [], Some(NoModeActive));
    }
    if !Truthy(GetDefault(bot, KeyTargetGroups, JList([]))) {
      return Wait(stored, [], bot);
    }
    var fwd := Fwd(stored, [], 0, false, false);
    if Truthy(Get(bot, KeyIsForwarding)) && Truthy(Get(bot, KeyForwardSets)) {
      var sets := Get(bot, KeyForwardSets);
      if sets.JList? {
        fwd := ForwardAll(sets.items, fwd, inp.senderOk);
      } else {
        fwd := fwd.(crashed := true);
      }
    }
    if fwd.crashed {
      return Crash(fwd.db, fwd.events);
    }
    c := CopyPhase(fwd, bot, admin, inp.senderOk, linkMarkup);
  }

  /** The ways an iteration can end after its data is loaded: waiting
      (the last event is the pause), or an exception, which leaves both modes
      off. */
  predicate EndsWell(c: Cycle) {
    && (c.stop.None? ==> c.events != [] && c.events[|c.events| - 1].Pause?)
    && (c.stop == Some(Crashed) ==> Get(c.db, KeyIsForwarding) == JBool(false) && Get(c.db, KeyIsCopying) == JBool(false))
    && (c.stop == Some(CopyFailed) ==> Get(c.db, KeyIsCopying) == JBool(false))
    && c.stop != Some(SessionLost) && c.stop != Some(NoModeActive)
  }

  lemma CrashEndsWell(db: BotData, events: seq<Event>)
    ensures EndsWell(Crash(db, events))
  {
    assert (db + BothOff)[KeyIsForwarding] == JBool(false);
    assert (db + BothOff)[KeyIsCopying] == JBool(false);
  }

  lemma WaitEndsWell(db: BotData, events: seq<Event>, bot: BotData)
    ensures EndsWell(Wait(db, events, bot))
  {
    CrashEndsWell(db, events);
  }

  lemma ForwardPhaseNoCopy(db: BotData, bot: BotData, senderOk: nat -> bool)
    ensures NoCopySends(ForwardPhase(db, bot, senderOk).events)
  {
    var start := Fwd(db, [], 0, false, false);
    if Truthy(Get(bot, KeyIsForwarding)) && Truthy(Get(bot, KeyForwardSets)) && Get(bot, KeyForwardSets).JList? {
      var sets := Get(bot, KeyForwardSets).items;
      ForwardNoCopy(sets, |sets|, start, senderOk);
    }
  }

  /** After a forward phase that copied nothing, the iteration ends with
      `CopyFailed` exactly when its last event is a copy answered False. */
  lemma CopyFailedMeans(fwd: Fwd, bot: BotData, admin: bool, senderOk: nat -> bool, linkMarkup: string -> bool)
    requires NoCopySends(fwd.events)
    ensures var c := CopyPhase(fwd, bot, admin, senderOk, linkMarkup);
            c.stop == Some(CopyFailed) <==> CopyFailedLast(c.events)
  {
    if fwd.events != [] {
      assert !(fwd.events[|fwd.events| - 1].Sending? && fwd.events[|fwd.events| - 1].call.CopyItem?);
    }
  }

  lemma CopyEndsWell(fwd: Fwd, bot: BotData, admin: bool, senderOk: nat -> bool, linkMarkup: string -> bool)
    ensures EndsWell(CopyPhase(fwd, bot, admin, senderOk, linkMarkup))
  {
    CrashEndsWell(fwd.db, fwd.events);
    WaitEndsWell(fwd.db, fwd.events, bot);
    if Truthy(Get(bot, KeyIsCopying)) && Truthy(Get(bot, KeySavedTexts)) {
      var item := FirstSaved(Get(bot, KeySavedTexts));
      if item.Some? {
        var ok := senderOk(fwd.sends);
        var events := fwd.events + [Sending(CopyItem(Compose(item.value, bot, admin, linkMarkup)), ok)];
        WaitEndsWell(fwd.db, events, bot);
      }
    }
  }

  /** After expiry both values agree on the modes, so what is stored is what
      the loop sees. */
  lemma StoredAfterExpiry(db: BotData, now: int)
    requires ExpireModes(db, now).Some?
    ensures var x := ExpireModes(db, now).value;
            (if x.changed then db + x.bot else db) == x.bot
  {
    ExpiryContract(db, now);
    var x := ExpireModes(db, now).value;
    if x.changed {
      assert db + x.bot == x.bot;
    }
  }

  /** The last thing that happened is a copy whose send answered False. */
  predicate CopyFailedLast(events: seq<Event>) {
    events != [] && events[|events| - 1].Sending? && events[|events| - 1].call.CopyItem? && !events[|events| - 1].ok
  }

  /** How an iteration ends. Without a recoverable session, or after an
      exception, both modes are off in the stored data; without an active
      mode the stored data shows none and nothing was sent; a failed copy
      switches copying off. An iteration that does not stop ends with the
      `delay` pause. */
  lemma CycleContract(db: BotData, inp: CycleInput, admin: bool, linkMarkup: string -> bool)
    ensures var c := CycleSpec(db, inp, admin, linkMarkup);
      && (c.stop == Some(SessionLost) || c.stop == Some(Crashed) ==>
            Get(c.db, KeyIsForwarding) == JBool(false) && Get(c.db, KeyIsCopying) == JBool(false))
      && (c.stop == Some(NoModeActive) ==> !ModeOn(c.db) && c.events == [])
      && (c.stop == Some(CopyFailed) ==> Get(c.db, KeyIsCopying) == JBool(false))
      && (c.stop == Some(SessionLost) <==> !inp.connected && !inp.verifyOk)
      && (c.stop == Some(SessionLost) ==> c.events == [])
      && ((inp.connected || inp.verifyOk) && ExpireModes(db, inp.now).Some? && !ModeOn(ExpireModes(db, inp.now).value.bot)
          ==> c.stop == Some(NoModeActive) && c.events == [])
      && (c.stop == Some(CopyFailed) <==> CopyFailedLast(c.events))
      && (c.stop.None? ==> c.events != [] && c.events[|c.events| - 1].Pause?)
  {
    if !inp.connected && !inp.verifyOk {
      assert (db + BothOff)[KeyIsForwarding] == JBool(false);
      assert (db + BothOff)[KeyIsCopying] == JBool(false);
    } else if ExpireModes(db, inp.now).None? {
      CrashEndsWell(db, []);
    } else {
      var x := ExpireModes(db, inp.now).value;
      StoredAfterExpiry(db, inp.now);
      var db1 := x.bot;
      if ModeOn(x.bot) {
        if !Truthy(GetDefault(x.bot, KeyTargetGroups, JList([]))) {
          WaitEndsWell(db1, [], x.bot);
        } else {
          var fwd := ForwardPhase(db1, x.bot, inp.senderOk);
          CrashEndsWell(fwd.db, fwd.events);
          CopyEndsWell(fwd, x.bot, admin, inp.senderOk, linkMarkup);
          ForwardPhaseNoCopy(db1, x.bot, inp.senderOk);
          CopyFailedMeans(fwd, x.bot, admin, inp.senderOk, linkMarkup);
          if fwd.events != [] {
            assert !(fwd.events[|fwd.events| - 1].Sending? && fwd.events[|fwd.events| - 1].call.CopyItem?);
          }
        }
      }
    }
  }

  /** A forward send that fails leaves forwarding off in the stored data,
      whatever else the iteration does after it. */
  lemma CycleForwardFailure(db: BotData, inp: CycleInput, admin: bool, linkMarkup: string -> bool)
    requires inp.connected || inp.verifyOk
    requires ExpireModes(db, inp.now).Some?
    requires var x := ExpireModes(db, inp.now).value;
             var db1 := if x.changed then db + x.bot else db;
             ModeOn(x.bot) && Truthy(GetDefault(x.bot, KeyTargetGroups, JList([])))
             && ForwardPhase(db1, x.bot, inp.senderOk).broken
    ensures Get(CycleSpec(db, inp, admin, linkMarkup).db, KeyIsForwarding) == JBool(false)
  {
    var x := ExpireModes(db, inp.now).value;
    var db1 := if x.changed then db + x.bot else db;
    var bot := x.bot;
    var start := Fwd(db1, [], 0, false, false);
    assert Truthy(Get(bot, KeyIsForwarding)) && Truthy(Get(bot, KeyForwardSets)) && Get(bot, KeyForwardSets).JList?;
    var sets := Get(bot, KeyForwardSets).items;
    ForwardFailureDisables(sets, |sets|, start, inp.senderOk);
  }

  /** With a mode on and no targets, the iteration only waits, and writes
      nothing but the expiry changes. */
  lemma NoTargetsOnlyWaits(db: BotData, inp: CycleInput, admin: bool, linkMarkup: string -> bool)
    requires inp.connected || inp.verifyOk
    requires ExpireModes(db, inp.now).Some?
    requires var x := ExpireModes(db, inp.now).value;
             ModeOn(x.bot) && !Truthy(GetDefault(x.bot, KeyTargetGroups, JList([])))
    ensures var x := ExpireModes(db, inp.now).value;
            var c := CycleSpec(db, inp, admin, linkMarkup);
            var d := GetDefault(x.bot, KeyDelay, DefaultDelay);
            && (d.JInt? || d.JBool? ==> c.events == [Pause(d)] && c.stop.None?)
            && c.db == (if c.stop.None? then (if x.changed then db + x.bot else db) else (if x.changed then db + x.bot else db) + BothOff)
  {
  }

  // ---------------------------------------------------------------- the task

  datatype Run = Run(db: BotData, events: seq<Event>, stop: Option<Stop>)

  /** Iterations until one stops the worker or the inputs run out. */
  function RunSpec(db: BotData, cycles: seq<CycleInput>, admin: bool, linkMarkup: string -> bool): Run
    decreases |cycles|
  {
    if cycles == [] then Run(db, [], None)
    else
      var c := CycleSpec(db, cycles[0], admin, linkMarkup);
      if c.stop.Some? then Run(c.db, c.events, c.stop)
      else Prepended(c.events, RunSpec(c.db, cycles[1..], admin, linkMarkup))
  }

  /** A run with the events `e` happening before it. */
  function Prepended(e: seq<Event>, r: Run): Run {
    Run(r.db, e + r.events, r.stop)
  }

  lemma RunStep(db: BotData, cycles: seq<CycleInput>, i: nat, c: Cycle, admin: bool, linkMarkup: string -> bool)
    requires i < |cycles| && c == CycleSpec(db, cycles[i], admin, linkMarkup)
    ensures c.stop.Some? ==> RunSpec(db, cycles[i..], admin, linkMarkup) == Run(c.db, c.events, c.stop)
    ensures c.stop.None? ==> RunSpec(db, cycles[i..], admin, linkMarkup)
                             == Prepended(c.events, RunSpec(c.db, cycles[i + 1..], admin, linkMarkup))
  {
    assert cycles[i..][1..] == cycles[i + 1..];
    assert cycles[i..][0] == cycles[i];
  }

  lemma PrependedTwice(e1: seq<Event>, e2: seq<Event>, r: Run)
    ensures Prepended(e1, Prepended(e2, r)) == Prepended(e1 + e2, r)
  {
    assert e1 + (e2 + r.events) == (e1 + e2) + r.events;
  }

  /** The `while True` loop of `forward_and_copy_task`: iterations run one
      after the other until one of them ends the task. */
  method RunCycles(db0: BotData, cycles: seq<CycleInput>, admin: bool, linkMarkup: string -> bool)
    returns (db: BotData, events: seq<Event>, stop: Option<Stop>)
    ensures Run(db, events, stop) == RunSpec(db0, cycles, admin, linkMarkup)
  {
    db, events, stop := db0, [], None;
    var i := 0;
    while i < |cycles|
      invariant 0 <= i <= |cycles|
      invariant RunSpec(db0, cycles, admin, linkMarkup) == Prepended(events, RunSpec(db, cycles[i..], admin, linkMarkup))
      invariant stop.None?
    {
      var c := RunCycle(db, cycles[i], admin, linkMarkup);
      RunStep(db, cycles, i, c, admin, linkMarkup);
      PrependedTwice(events, c.events, RunSpec(c.db, cycles[i + 1..], admin, linkMarkup));
      events := events + c.events;
      db := c.db;
      if c.stop.Some? {
        stop := c.stop;
        return;
      }
      i := i + 1;
    }
    assert cycles[i..] == [];
    assert events + [] == events;
  }

  /** `forward_and_copy_task`: the loop, then the removal of the chat's entry
      from `user_tasks` once it ends. */
  method RunWorker(registry: Supervisor.Registry, chat: int, db0: BotData, cycles: seq<CycleInput>,
                   admin: bool, linkMarkup: string -> bool)
    returns (db: BotData, events: seq<Event>, stop: Option<Stop>)
    modifies registry
    ensures Run(db, events, stop) == RunSpec(db0, cycles, admin, linkMarkup)
    ensures stop.Some? ==> registry.tasks == old(registry.tasks) - {chat}
    ensures stop.None? ==> registry.tasks == old(registry.tasks)
    ensures registry.started == old(registry.started) && registry.cancelled == old(registry.cancelled)
  {
    db, events, stop := RunCycles(db0, cycles, admin, linkMarkup);
    if stop.Some? {
      registry.WorkerExited(chat);
    }
  }

  /** Saving a change of schema keys over data that already has exactly the
      schema keys is a plain overwrite, which is how the loop's writes are
      modelled. */
  lemma WriteIsSave(defaults: BotData, db: BotData, update: BotData)
    requires db.Keys == defaults.Keys && update.Keys <= defaults.Keys
    ensures Reconciled(defaults, db, db + update) == db + update
  {
  }
}
