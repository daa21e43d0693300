/** The per-user `bot_data` dictionary and its reconciliation against the fixed
    default schema on every save and load (Kelana.py `DEFAULT_BOT_DATA`,
    `save_user_data`, `load_user_data`, `update_user_data_db`, `logout_user`).
    The SQL row is a value here; JSON encoding and decoding are the identity.
    The operations take the schema as a parameter `defaults`; the bot always
    passes `DefaultBotData`, whose shape `SchemaKeysOk` records. */
module Schema {
  import opened Common

  const DefaultGlobalWatermarkText := "Dikirim melalui HARA11Z X BOT"

  const KeyIsRegistered := "is_registered"
  const KeyActiveKeyValue := "active_key_value"
  const KeyActiveKeyType := "active_key_type"
  const KeyKeyExpiry := "key_expiry_timestamp"
  const KeyAssignedBasicWatermark := "assigned_basic_watermark_text"
  const KeyHasValidKey := "has_valid_key"
  const KeyIsForwarding := "is_forwarding"
  const KeyIsCopying := "is_copying"
  const KeyForwardExpiry := "forward_expiry_timestamp"
  const KeyCopyExpiry := "copy_expiry_timestamp"
  const KeyTargetGroups := "target_groups"
  const KeyForwardSets := "forward_sets"
  const KeySavedTexts := "saved_texts"
  const KeyDelay := "delay"
  const KeyWatermarkEnabled := "watermark_enabled"
  const KeyWatermarkText := "watermark_text"
  /** Written by the logout and reconnect paths, but not part of the schema. */
  const KeySessionString := "session_string"

  /** `DEFAULT_BOT_DATA`: the schema is exactly its key set. */
  const DefaultBotData: map<string, Json> := map[
    "saved_texts" := JList([]),
    "delay" := JInt(120),
    "is_copying" := JBool(false),
    "target_groups" := JList([]),
    "awaiting_input_type" := JNull,
    "awaiting_2fa" := JBool(false),
    "is_registered" := JBool(false),
    "welcome_message_sent" := JBool(false),
    "current_page_context" := JObj(map[]),
    "watermark_enabled" := JBool(false),
    "watermark_text" := JStr(DefaultGlobalWatermarkText),
    "active_key_value" := JNull,
    "active_key_type" := JNull,
    "key_expiry_timestamp" := JNull,
    "assigned_basic_watermark_text" := JNull,
    "has_valid_key" := JBool(false),
    "is_forwarding" := JBool(false),
    "forward_sets" := JList([]),
    "forward_expiry_timestamp" := JNull,
    "copy_expiry_timestamp" := JNull,
    "admin_temp_key_type" := JNull,
    "admin_temp_key_duration_s" := JNull,
    "admin_message_to_edit_id" := JNull,
    "temp_dual_link_data" := JObj(map[])
  ]

  type BotData = map<string, Json>

  /** The reference result of a save: every schema key, taken from the update if
      it has it, else from the stored data, else from the defaults; no other key. */
  function Reconciled(defaults: BotData, stored: BotData, update: BotData): BotData {
    map k | k in defaults.Keys ::
      if k in update then update[k] else if k in stored then stored[k] else defaults[k]
  }

  /** The schema repair both `save_user_data` and `load_user_data` run: every
      schema key the data lacks is added with its default, then every key the
      schema does not know is deleted. `changed` records whether either loop
      did anything (`made_changes`). */
  method Conform(defaults: BotData, data: BotData) returns (result: BotData, changed: bool)
    ensures result.Keys == defaults.Keys
    ensures forall k :: k in result ==> result[k] == if k in data then data[k] else defaults[k]
    ensures changed <==> data.Keys != defaults.Keys
  {
    var added, removed;
    result, added := AddMissing(defaults, data);
    result, removed := DropUnknown(defaults, data, result);
    changed := added || removed;
  }

  /** The first loop of the repair: every schema key the data lacks is added
      with its default. */
  method AddMissing(defaults: BotData, data: BotData) returns (result: BotData, added: bool)
    ensures result.Keys == data.Keys + defaults.Keys
    ensures forall k :: k in result ==> result[k] == if k in data then data[k] else defaults[k]
    ensures added <==> defaults.Keys - data.Keys != {}
  {
    result := data;
    added := false;
    var toAdd := defaults.Keys - data.Keys;
    while toAdd != {}
      invariant toAdd <= defaults.Keys - data.Keys
      invariant result.Keys == data.Keys + (defaults.Keys - data.Keys - toAdd)
      invariant forall k :: k in result ==> result[k] == if k in data then data[k] else defaults[k]
      invariant added <==> toAdd != defaults.Keys - data.Keys
      decreases toAdd
    {
      var k :| k in toAdd;
      result := result[k := defaults[k]];
      toAdd := toAdd - {k};
      added := true;
    }
    assert defaults.Keys - data.Keys - toAdd == defaults.Keys - data.Keys;
  }

  /** The second loop of the repair: every key the schema does not know is
      deleted from the data the first loop produced. */
  method DropUnknown(defaults: BotData, data: BotData, padded: BotData) returns (result: BotData, removed: bool)
    requires padded.Keys == data.Keys + defaults.Keys
    ensures result.Keys == defaults.Keys
    ensures forall k :: k in result ==> result[k] == padded[k]
    ensures removed <==> data.Keys - defaults.Keys != {}
  {
    result := padded;
    removed := false;
    var toRemove := data.Keys - defaults.Keys;
    while toRemove != {}
      invariant toRemove <= data.Keys - defaults.Keys
      invariant result.Keys == defaults.Keys + toRemove
      invariant forall k :: k in result ==> result[k] == padded[k]
      invariant removed <==> toRemove != data.Keys - defaults.Keys
      decreases toRemove
    {
      var k :| k in toRemove;
      result := result - {k};
      toRemove := toRemove - {k};
      removed := true;
    }
  }

  /** `save_user_data`'s merge: defaults, then the stored data, then the update,
      then the schema repair. */
  method SaveBotData(defaults: BotData, stored: BotData, update: Option<BotData>) returns (final: BotData)
    ensures final == Reconciled(defaults, stored, update.GetOr(map[]))
  {
    var merged := defaults + stored;
    if update.Some? {
      merged := merged + update.value;
    }
    var repaired;
    final, repaired := Conform(defaults, merged);
    ghost var want := Reconciled(defaults, stored, update.GetOr(map[]));
    assert final.Keys == want.Keys;
    assert forall k :: k in final ==> final[k] == want[k];
  }

  /** `load_user_data`'s merge for an existing row: start from the defaults and
      copy every schema key the stored data has, then run the schema repair,
      whose `made_changes` would trigger a re-save. The repair never fires: the
      merge already has exactly the schema keys. */
  method LoadBotData(defaults: BotData, stored: BotData) returns (current: BotData, madeChanges: bool)
    ensures current == Reconciled(defaults, stored, map[])
    ensures !madeChanges
  {
    current := defaults;
    var keys := defaults.Keys;
    while keys != {}
      invariant keys <= defaults.Keys
      invariant current.Keys == defaults.Keys
      invariant forall k :: k in current ==>
        current[k] == if k !in keys && k in stored then stored[k] else defaults[k]
      decreases keys
    {
      var k :| k in keys;
      if k in stored {
        current := current[k := stored[k]];
      }
      keys := keys - {k};
    }
    current, madeChanges := Conform(defaults, current);
    ghost var want := Reconciled(defaults, stored, map[]);
    assert current.Keys == want.Keys;
    assert forall k :: k in current ==> current[k] == want[k];
  }

  /** `update_user_data_db`'s in-memory step: every key of the update is copied
      over the current data, known to the schema or not. */
  method ApplyUpdate(current: BotData, update: BotData) returns (updated: BotData)
    ensures updated.Keys == current.Keys + update.Keys
    ensures forall k :: k in updated ==> updated[k] == if k in update then update[k] else current[k]
  {
    updated := current;
    var pending := update.Keys;
    while pending != {}
      invariant pending <= update.Keys
      invariant updated.Keys == current.Keys + (update.Keys - pending)
      invariant forall k :: k in updated ==>
        updated[k] == if k in update && k !in pending then update[k] else current[k]
      decreases pending
    {
      var k :| k in pending;
      updated := updated[k := update[k]];
      pending := pending - {k};
    }
  }

  /** A saved dictionary has exactly the schema keys, and each value comes from
      the update first, then the stored data, then the defaults. */
  lemma ReconciledShape(defaults: BotData, stored: BotData, update: BotData)
    ensures Reconciled(defaults, stored, update).Keys == defaults.Keys
    ensures forall k :: k in update && k in defaults ==> Reconciled(defaults, stored, update)[k] == update[k]
    ensures forall k :: k !in update && k in stored && k in defaults ==> Reconciled(defaults, stored, update)[k] == stored[k]
    ensures forall k :: k !in update && k !in stored && k in defaults ==> Reconciled(defaults, stored, update)[k] == defaults[k]
  {
  }

  /** Loading what was saved gives it back unchanged. */
  lemma LoadAfterSave(defaults: BotData, stored: BotData, update: BotData)
    ensures Reconciled(defaults, Reconciled(defaults, stored, update), map[]) == Reconciled(defaults, stored, update)
  {
  }

  /** Keys outside the schema in an update are kept by `update_user_data_db`
      but dropped by the save that follows: they have no effect. */
  lemma UnknownUpdateKeysDropped(defaults: BotData, stored: BotData, current: BotData, update: BotData)
    ensures Reconciled(defaults, stored, current + update)
            == Reconciled(defaults, stored, current + map k | k in update && k in defaults :: update[k])
  {
  }

  /** A full current dictionary (as the cached read returns) makes the stored
      row irrelevant to the save. */
  lemma FullCurrentOverridesStored(defaults: BotData, stored: BotData, stored': BotData, current: BotData, update: BotData)
    requires defaults.Keys <= current.Keys
    ensures Reconciled(defaults, stored, current + update) == Reconciled(defaults, stored', current + update)
  {
  }

  // ------------------------------------------------------------ user rows

  /** A `users` row: phone number, session string and `bot_data`. */
  datatype UserRow = UserRow(phone: Option<string>, session: Option<string>, botData: BotData)

  /** `save_user_data`: a column argument of None keeps what the row already
      holds (None for a new row); `bot_data` is reconciled. */
  function SaveRow(defaults: BotData, existing: Option<UserRow>, phone: Option<string>,
                   session: Option<string>, botData: Option<BotData>): UserRow
  {
    var dbPhone := if existing.Some? then existing.value.phone else None;
    var dbSession := if existing.Some? then existing.value.session else None;
    var dbData := if existing.Some? then existing.value.botData else map[];
    UserRow(if phone.Some? then phone else dbPhone,
            if session.Some? then session else dbSession,
            Reconciled(defaults, dbData, botData.GetOr(map[])))
  }

  const KeyExpiredReason := "KEY_EXPIRED"

  /** The schema holds the fields `logout_user` touches, but not `session_string`. */
  predicate SchemaKeysOk(defaults: BotData) {
    && KeyIsRegistered in defaults && KeyActiveKeyValue in defaults && KeyActiveKeyType in defaults
    && KeyKeyExpiry in defaults && KeyAssignedBasicWatermark in defaults && KeyHasValidKey in defaults
    && KeySessionString !in defaults
    && defaults[KeyHasValidKey] == JBool(false)
  }

  lemma DefaultSchemaKeysOk()
    ensures SchemaKeysOk(DefaultBotData)
  {
  }

  /** `logout_user`'s fresh dictionary: the defaults, not registered, and, unless
      the reason is an expired key, the key fields of the previous data kept. */
  function LogoutBotData(defaults: BotData, previous: BotData, reason: string): BotData {
    var reset := defaults[KeyIsRegistered := JBool(false)][KeySessionString := JNull];
    if reason != KeyExpiredReason then
      reset[KeyActiveKeyValue := Get(previous, KeyActiveKeyValue)]
           [KeyActiveKeyType := Get(previous, KeyActiveKeyType)]
           [KeyKeyExpiry := Get(previous, KeyKeyExpiry)]
           [KeyAssignedBasicWatermark := Get(previous, KeyAssignedBasicWatermark)]
           [KeyHasValidKey := if KeyHasValidKey in previous then previous[KeyHasValidKey] else JBool(false)]
    else
      reset[KeyHasValidKey := JBool(false)]
  }

  predicate IsKeyField(k: string) {
    k == KeyActiveKeyValue || k == KeyActiveKeyType || k == KeyKeyExpiry
    || k == KeyAssignedBasicWatermark || k == KeyHasValidKey
  }

  /** Logout as written: the row is saved with `session_string=None`, which
      `save_user_data` reads as "keep the stored session". */
  function LogoutRowAsWritten(defaults: BotData, existing: Option<UserRow>, previous: BotData, reason: string): UserRow {
    SaveRow(defaults, existing, None, None, Some(LogoutBotData(defaults, previous, reason)))
  }

  /** Logout as intended: the same `bot_data`, and the stored session cleared. */
  function LogoutRow(defaults: BotData, existing: Option<UserRow>, previous: BotData, reason: string): UserRow {
    var saved := SaveRow(defaults, existing, None, None, Some(LogoutBotData(defaults, previous, reason)));
    UserRow(saved.phone, None, saved.botData)
  }

  /** The saved logout dictionary: unless the key expired, the key fields are
      those of the previous data; registration is off; everything else is
      default; the `session_string` entry is dropped by the schema. */
  lemma LogoutRetention(defaults: BotData, existing: Option<UserRow>, previous: BotData, reason: string)
    requires SchemaKeysOk(defaults)
    requires reason != KeyExpiredReason
    ensures var d := LogoutRow(defaults, existing, previous, reason).botData;
      && d.Keys == defaults.Keys
      && KeySessionString !in d
      && d[KeyIsRegistered] == JBool(false)
      && d[KeyActiveKeyValue] == Get(previous, KeyActiveKeyValue)
      && d[KeyActiveKeyType] == Get(previous, KeyActiveKeyType)
      && d[KeyKeyExpiry] == Get(previous, KeyKeyExpiry)
      && d[KeyAssignedBasicWatermark] == Get(previous, KeyAssignedBasicWatermark)
      && d[KeyHasValidKey] == (if KeyHasValidKey in previous then previous[KeyHasValidKey] else JBool(false))
      && (forall k :: k in d && !IsKeyField(k) && k != KeyIsRegistered ==> d[k] == defaults[k])
  {
  }

  /** A logout for an expired key resets the dictionary to the defaults, apart
      from the registration flag. */
  lemma LogoutKeyExpiredResets(defaults: BotData, existing: Option<UserRow>, previous: BotData)
    requires SchemaKeysOk(defaults)
    ensures LogoutRow(defaults, existing, previous, KeyExpiredReason).botData
            == defaults[KeyIsRegistered := JBool(false)]
  {
    var d := LogoutRow(defaults, existing, previous, KeyExpiredReason).botData;
    var want := defaults[KeyIsRegistered := JBool(false)];
    assert d.Keys == want.Keys;
    assert forall k :: k in d ==> d[k] == want[k];
  }

  /** The defect: after a logout as written, a row that held a session still
      holds the same session. */
  lemma LogoutAsWrittenKeepsSession(defaults: BotData, row: UserRow, previous: BotData, reason: string)
    ensures LogoutRowAsWritten(defaults, Some(row), previous, reason).session == row.session
    ensures LogoutRowAsWritten(defaults, Some(row), previous, reason).botData
            == LogoutRow(defaults, Some(row), previous, reason).botData
  {
  }

  /** The intended logout clears the session and keeps the phone number. */
  lemma LogoutClearsSession(defaults: BotData, existing: Option<UserRow>, previous: BotData, reason: string)
    ensures LogoutRow(defaults, existing, previous, reason).session == None
    ensures LogoutRow(defaults, existing, previous, reason).phone
            == if existing.Some? then existing.value.phone else None
  {
  }
}
