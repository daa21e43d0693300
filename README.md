# Kelana userbot: verified model of the dispatch core

Kelana is a Telegram bot. Each registered user logs in a personal Telegram
session and then lets the bot repeatedly forward message links, or copy saved
messages, to a list of target groups. This project models the decision logic
behind that service in Dafny and proves properties of it. The Telegram and
database calls around that logic become abstract inputs.

- **Target validation** (`validate_entity`). Identifiers are normalised: an
  `@handle` stays text, and a digit string with an optional single `-` becomes
  an integer. A positive id that resolves to nothing is retried once as the
  channel id `-100<id>`. Entities live in a bounded entity cache with a
  time-to-live and oldest-first eviction. The group-only filter applies on
  both the hit path and the miss path. `EntityCache` is a class over the
  ordered entry list.
- **Fan-out sender** (`send_messages_in_batches`). Targets are split into
  valid peers and invalid identifiers, and invalid ones are pruned from the
  saved list. Valid peers are sent to in batches of 50, with a pause between
  batches. Each per-target outcome is classified: sent, flood wait with one
  retry, permission error, lost access, connection error, or other error.
  Successes, de-duplicated failures and pending removals are accumulated, and
  the removals are applied at the end. The loops are `while` loops proved
  against a flat specification function.
- **Worker iteration** (`forward_and_copy_task`):
  - mode expiry;
  - the stop rules;
  - the forward loop over single and dual link sets;
  - message-link parsing;
  - watermark selection and message composition for the copy;
  - the outer loop over a finite sequence of iterations, and the removal of
    the worker from the registry when it stops.
- **Supervisor** (`manage_forward_copy_task`). This is the `should_run`
  eligibility rule plus starting or cancelling the chat's worker in the
  `user_tasks` registry, a class.
- **Session guardian** (`verify_session`, `reconnect_client`). It keeps the
  per-chat warning counter with its threshold of 5, and bounded reconnect
  attempts with `min(2**attempt, 15)` second back-off.
- **Helpers**:
  - duration parsing and the duration label;
  - the `entity_to_dict`/`dict_to_entity` round trip;
  - reconciliation of the stored `bot_data` with the schema defaults (save,
    load, update);
  - the logout reset;
  - pagination;
  - delete-by-index;
  - duplicate checks for saved items and target groups.

Files: `common.dfy` (Option, JSON values, Python `int()`/`str()`/`strip()`/
`split()` on ASCII strings), `duration.dfy`, `entities.dfy`, `schema.dfy`,
`lists.dfy`, `resolver.dfy`, `guardian.dfy`, `sender.dfy`, `supervisor.dfy`,
`worker.dfy`.

Integers are unbounded, and `time.time()` is taken as an integer number of
seconds. For an integer `v`, the comparison `v > t` with the float `t` agrees
with `v > floor(t)`. This holds for every expiry the bot stores, because those
are `int(time.time()) + seconds`.

## Model

| member | source | states |
|---|---|---|
| Duration.ParseDurationOfDigits | Kelana.py:132-143 | a trimmed, lower-cased digit string followed by `d`, `h` or `m` parses to its value times 86400, 3600 or 60 |
| Duration.ParseDurationNeedsUnit | Kelana.py:132-143 | when the trimmed, lower-cased text is empty or does not end in a unit letter, there is no duration |
| Duration.ParseLabel | Kelana.py:132-143 | `str(q)` followed by a unit letter parses to `q` times that unit, for any integer `q` |
| Duration.DayLabel | Kelana.py:1141 | a whole number of days (at least one) is labelled in days, and that label parses back to exactly the duration |
| Duration.HourLabel | Kelana.py:1141 | a whole number of hours that is not a whole number of days is labelled in hours, and the label parses back exactly |
| Duration.MinuteLabel | Kelana.py:1141 | any other duration is labelled in minutes, and the label parses back to the duration rounded down to a minute |
| Duration.LabelRoundTrip | Kelana.py:1141 | parsing the label of any duration gives it back, truncated to whole minutes |
| Duration.MinutesParse | Kelana.py:1691 | the minute label `str(s // 60) + "m"` parses to `s - s % 60` |
| Common.PyIntOfIntToString | Kelana.py:1386 | `int(str(i)) == i` for every integer |
| Common.NatToStringDigits | Kelana.py:1386 | `str(n)` of a natural number is a non-empty digit string whose value is `n` |
| Common.IntToStringAlphabet | Kelana.py:1386 | `str(i)` holds only digits and a minus sign |
| Common.Split | Kelana.py:1386 | `split(sep)` gives at least one piece, no piece holds the separator, and text without the separator is its own single piece |
| Common.SplitJoin | Kelana.py:1963-1964 | joining the pieces of `split(sep)` with `sep` gives the text back |
| Common.SplitLast | Kelana.py:1963-1964 | splitting `x + sep + y` where `y` has no separator gives the pieces of `x`, with `y` last |
| Common.LastIndexOf | Kelana.py:1963-1964 | the index found holds the character, and no later position does |
| Common.StripUnchanged | Kelana.py:133 | text without surrounding whitespace is unchanged by `strip()` |
| Common.LowerUnchanged | Kelana.py:133 | text without upper-case letters is unchanged by `lower()` |
| Entities.EntityRoundTrip | Kelana.py:146-164 | a blockquote, spoiler, text-URL or custom-emoji annotation survives `dict_to_entity(entity_to_dict(e))`, and any other kind is refused on the way back |
| Entities.DictRoundTrip | Kelana.py:146-164 | a stored dictionary of a supported kind decodes, and encoding the result gives the same dictionary |
| Entities.AlreadyDictUnchanged | Kelana.py:148 | a value that is already a dictionary is passed through unchanged |
| Schema.Conform | Kelana.py:257-285 | the result has exactly the schema keys; stored values win over defaults; `made_changes` holds exactly when a key was added or removed |
| Schema.AddMissing | Kelana.py:271-276 | missing schema keys are filled from the defaults, stored ones are kept, and the flag says whether anything was added |
| Schema.DropUnknown | Kelana.py:277-285 | keys outside the schema are deleted, and the flag says whether anything was deleted |
| Schema.SaveBotData | Kelana.py:215-229 | the saved `bot_data` is the reconciliation defaults < stored < update, limited to the schema keys |
| Schema.LoadBotData | Kelana.py:252-285 | the loaded `bot_data` is the stored data reconciled with the defaults, and the repair pass finds nothing more to change |
| Schema.ApplyUpdate | Kelana.py:325-337 | the update overrides the current values and adds its keys, unknown keys included |
| Schema.ReconciledShape | Kelana.py:215-229 | the reconciled dictionary has exactly the schema keys; each value comes from the update, else the stored data, else the default |
| Schema.LoadAfterSave | Kelana.py:215-268 | loading what was saved gives it back unchanged |
| Schema.UnknownUpdateKeysDropped | Kelana.py:325-337 | keys an update adds outside the schema have no effect once saved |
| Schema.FullCurrentOverridesStored | Kelana.py:325-337 | an update written on top of a complete current dictionary does not depend on the stored row |
| Schema.LogoutRetention | Kelana.py:570-584 | apart from a key-expired logout, the key fields and the assigned watermark are kept, the user is unregistered, and everything else returns to its default |
| Schema.LogoutKeyExpiredResets | Kelana.py:570-584 | a key-expired logout resets everything to the defaults, apart from `is_registered = False` |
| Schema.LogoutAsWrittenKeepsSession | Kelana.py:573-584 | the logout as written leaves the stored session string in place, because a `None` session means "keep" to the save (line 216) |
| Schema.LogoutClearsSession | Kelana.py:558-589 | the intended logout clears the stored session and keeps the phone number |
| Schema.DefaultSchemaKeysOk | Kelana.py:84-110 | the schema holds every field the logout touches, and no `session_string` |
| Lists.PageBounds | Kelana.py:1617-1620 | each page starts inside the list and holds between 1 and `per` items |
| Lists.DivBounds | Kelana.py:1617 | `ceil(n/per)` is the least number of pages that hold `n` items, and it is 0 only for an empty list |
| Lists.PageViewShape | Kelana.py:1598-1620 | an empty list shows no page; otherwise the page is clamped into range and shows 1 to `per` items |
| Lists.ChunksCoverList | Kelana.py:1814-1818 | the slices `[i*per, min((i+1)*per, n))` concatenate to the whole list, each holding 1 to `per` items |
| Lists.ChunksPrefix | Kelana.py:1814-1818 | the first `k` slices concatenate to the first `min(k*per, n)` items |
| Lists.DeleteItemPartner | Kelana.py:1386-1389 | deletion happens exactly when the index is in range; it removes one item, and putting that item back restores the list |
| Lists.DeleteItemValue | Kelana.py:1386-1389 | the list after deletion is the list without position `i`, or "invalid index" when `i` is out of range |
| Lists.DeleteFieldsValue | Kelana.py:1386-1389 | a four-field request deletes the indexed item of the named list, or reports an invalid index |
| Lists.DeleteDataFields | Kelana.py:1386 | the delete request built for list `t`, page `pg` and index `i` splits back into its four fields |
| Lists.SaveItemIdempotent | Kelana.py:958-978 | a new item is appended once; saving the same text and media again reports a duplicate; distinct items stay distinct |
| Lists.IsDuplicateTarget | Kelana.py:1015-1024 | the scan reports a duplicate exactly when some stored target matches the group by id or by `@username` |
| Lists.PrintedIdAlwaysParses | Kelana.py:1015-1024 | a stored target that is not an integer can match only through the `@username` comparison |
| Lists.AddTargetIdempotent | Kelana.py:1008-1037 | adding a group keeps the old list as a prefix, adds at most one entry, makes the group present, and a second add changes nothing |
| Resolver.CacheKeyInjective | Kelana.py:455 | two cache keys are equal exactly when the identifiers print the same and the group-only flags agree |
| Resolver.NormalizeDigits | Kelana.py:470-476 | a digit string becomes the integer it denotes |
| Resolver.NormalizeNegativeDigits | Kelana.py:470-476 | `-` followed by digits becomes the negative integer |
| Resolver.NormalizeDashes | Kelana.py:470-476 | two or more dashes before digits make `int()` fail, and the text is kept |
| Resolver.NormalizeOtherText | Kelana.py:470-476 | an `@handle` or other text is passed on unchanged |
| Resolver.PyIntRefusesDashes | Kelana.py:474-476 | Python's `int()` refuses digits behind two dashes |
| Resolver.ChannelIdIsPrefixed | Kelana.py:485-486 | `int(f"-100{p}")` is the negation of the number written `100` followed by `p` |
| Resolver.Find | Kelana.py:456 | a cache hit is an entry of the cache under the requested key, and there is no hit exactly when no entry has that key |
| Resolver.PutKeepsBound | Kelana.py:491-495 | storing keeps at most 100 entries with distinct keys, and the new entry is then found under its key |
| Resolver.PutEvictsOldest | Kelana.py:491-495 | storing into a full cache drops exactly the oldest inserted key; every other key keeps its entry |
| Resolver.ValidateKeepsCacheOk | Kelana.py:450-524 | validation keeps the cache bounded, with distinct keys |
| Resolver.FreshHitSkipsLookup | Kelana.py:456-465 | an entry younger than 300 seconds answers without a lookup, filtered by group-only, and leaves the cache as it is |
| Resolver.ExpiredActsAsAbsent | Kelana.py:456-465 | an expired entry gives the same answer and the same lookups as when the entry is absent |
| Resolver.GroupOnlyYieldsGroups | Kelana.py:460-502 | with group-only set, every accepted entity is a basic group or a supergroup, on every path |
| Resolver.HitAgreesWithMiss | Kelana.py:456-502 | a fresh cached entity gives the same verdict as resolving it afresh |
| Resolver.RetryOnlyForPositiveIds | Kelana.py:481-489 | at most two lookups; the first is the normalised identifier; the second happens exactly when a positive id found nothing, and it uses the `-100` channel id |
| Resolver.ResolveQueries | Kelana.py:481-489 | the lookup sequence of the resolution step, in order, with the retry condition in both directions |
| Resolver.ValidComesFromLookup | Kelana.py:456-502 | every accepted entity comes from the cache or from one of the lookups made |
| Resolver.EntityCache.Store | Kelana.py:491-495 | the cache after storing is the bounded insertion with eviction, and the entry is found |
| Resolver.EntityCache.Validate | Kelana.py:450-524 | the verdict, the lookups and the new cache are those of the validation specification |
| Guardian.VerifyContract | Kelana.py:527-556 | success exactly on a healthy probe, which resets the counter; a fatal error or the fifth counted failure logs out and clears the counter; counters stay below 5; other chats are untouched |
| Guardian.FailuresCycle | Kelana.py:527-556 | `k` counted failures from zero leave the counter at `k mod 5` and log out `k div 5` times |
| Guardian.SessionGuardian.Verify | Kelana.py:527-556 | the counters and the logouts after a check are those of the verification specification |
| Guardian.SessionGuardian.Logout | Kelana.py:558-589 | a logout is recorded and the chat's counter is dropped |
| Guardian.Reconnect | Kelana.py:2111-2144 | without a client nothing is tried; otherwise the run is that of the reconnect specification |
| Guardian.ReconnectShape | Kelana.py:2111-2144 | fewer pauses than attempts; pause `i` is `min(2**i, 15)` seconds; every pause follows a retryable failure; success follows authorisation; deregistration follows an unauthorised or fatal session; never both |
| Guardian.DefaultAttempts | Kelana.py:2111-2138 | with the default two attempts both failing, there is one pause of 2 seconds and no success |
| Guardian.BackoffValues | Kelana.py:2138-2142 | the back-off is 2, 4 and 8 seconds, then 15 from the fourth attempt on |
| Sender.ResolveShape | Kelana.py:1782-1793 | every input target ends up as exactly one valid peer or one invalid identifier, and the cache stays bounded |
| Sender.ResolveTargets | Kelana.py:1782-1793 | the validation loop computes the valid peers, the invalid identifiers and the cache of the specification |
| Sender.Prune | Kelana.py:1795-1804 | the pruned list keeps exactly the entries not removed, shrinks exactly when one was removed, and is unchanged otherwise |
| Sender.PruneConcat | Kelana.py:1797 | pruning a concatenation prunes each part in place, so the result is the in-order filter of the saved list |
| Sender.PruneOne | Kelana.py:1797 | a single entry is kept exactly when it is not among the removed identifiers |
| Sender.FirstResolving | Kelana.py:1861-1871 | the entry found is stored and resolves to the peer, and no earlier stored entry does; none is found exactly when no stored entry resolves to it |
| Sender.FindStored | Kelana.py:1861-1871 | the search loop finds the first stored entry that resolves to the peer |
| Sender.RequeryAgreesWithNormalize | Kelana.py:1865 | whenever the re-resolution of a stored entry asks for it, it asks for the identifier validation normalises it to (lines 470-476), `@handle` entries included; only text with two or more dashes before digits is skipped there |
| Sender.SendOne | Kelana.py:1833-1884 | the progress after one target is that of the outcome classification |
| Sender.FloodWaitRetriesOnce | Kelana.py:1839-1849 | a flood wait records one wait and one retry: the retry either succeeds or adds the peer to the failures once |
| Sender.SendBatch | Kelana.py:1825-1884 | one batch sends to its targets in order, stopping early only when the session is lost |
| Sender.SendAll | Kelana.py:1814-1886 | the batch loop computes the specification's pass over all valid targets |
| Sender.AbortedMeans | Kelana.py:1826-1878 | the pass loses its session exactly when `verify_session` fails at a visited target, before a send on a disconnected client or after a connection error |
| Sender.AbortedStays | Kelana.py:1826-1878 | once the session is lost nothing more is sent or recorded |
| Sender.ProgressBounds | Kelana.py:1825-1884 | successes plus failures never exceed the targets sent to; each peer fails at most once; removals are distinct, non-empty, saved entries |
| Sender.AddOnceNoDup | Kelana.py:1849-1859 | adding a failure keeps the failures free of duplicates |
| Sender.BatchPauseCount | Kelana.py:1886 | after `k` targets sent there have been `(k-1) div 50` batch pauses, one after every batch except the last |
| Sender.BatchRange | Kelana.py:1814-1818 | every batch is a non-empty slice of the valid list of at most 50 targets |
| Sender.SendInBatches | Kelana.py:1768-1908 | the verdict, the saved list, the progress and the cache are those of the sender specification |
| Sender.SendContract | Kelana.py:1768-1908 | the result is False exactly when there is no client or `verify_session` fails at one of the valid targets; the saved list only shrinks; applied removals are gone; successes plus failures stay within the targets; the cache stays bounded |
| Sender.InvalidTargetsDropped | Kelana.py:1795-1804 | no invalid identifier remains in the saved list |
| Supervisor.ShouldRunAsWritten | Kelana.py:640-641 | the condition as written raises exactly when a mode and the key checks hold and the stored expiry is not a number |
| Supervisor.ShouldRunMeaning | Kelana.py:640-641 | a worker should run exactly when a mode is on, the user is registered with a valid key, and the user is an admin or the key expires after now |
| Supervisor.ShouldRunAgrees | Kelana.py:640-641 | wherever the condition as written decides, the intended rule decides the same way |
| Supervisor.AdminWithoutExpiryRaises | Kelana.py:640-641 | an admin with no expiry stored makes the condition as written raise, while the intended rule runs the worker |
| Supervisor.AdminStartLeavesNoExpiry | Kelana.py:640-641 | the default schema (lines 84-110) and an admin's `/start` leave the expiry None, so the condition as written raises |
| Supervisor.ManageContract | Kelana.py:638-649 | afterwards a worker is live exactly when one should run; one is started exactly when none was live, cancelled exactly when one was; other chats are untouched |
| Supervisor.ManageIdempotent | Kelana.py:638-649 | managing twice with the same state changes nothing the second time |
| Supervisor.Registry.Manage | Kelana.py:638-649 | the registry, the started list and the cancelled list follow the managing specification |
| Supervisor.Registry.WorkerExited | Kelana.py:2044-2045 | a stopped worker's entry is removed from the registry |
| Worker.ExpiryContract | Kelana.py:1928-1943 | a mode whose flag and expiry are set, with the expiry reached, is switched off and its expiry cleared; a mode that is off, has no expiry, or whose expiry lies after now keeps its flag and expiry; other keys are kept; "changed" holds exactly when something changed |
| Worker.ExpireInPlace | Kelana.py:1928-1943 | the in-place checks compute the expiry specification |
| Worker.StoredAfterExpiry | Kelana.py:1942-1943 | persisting only on change leaves the stored data equal to the updated data |
| Worker.ParseLinkRoundTrip | Kelana.py:1963-1977 | a link `<prefix>/<chat>/<id>` gives back the chat and the message id |
| Worker.ParseLinkNeedsSlash | Kelana.py:1963-1965 | text without a slash is not a link |
| Worker.WatermarkChoice | Kelana.py:1997-2005 | VIP with the watermark on uses the user's text; otherwise basic with an assigned text uses that text; otherwise an admin with the watermark on uses the user's text; otherwise none |
| Worker.ComposeContract | Kelana.py:2011-2026 | a watermark follows a blank line after non-empty text, or is the whole caption for media without text; without one the item goes unchanged; no text and no media sends nothing |
| Worker.StoredEntitiesRoundTrip | Kelana.py:2014-2015 | stored annotations of supported kinds decode back to the annotations |
| Worker.DecodeEntities | Kelana.py:2015 | decoding drops entries and never adds any |
| Worker.DecodeEntitiesConcat | Kelana.py:2015 | decoding a concatenation decodes each part in place, so the result is in the stored order |
| Worker.DecodeEntitiesOne | Kelana.py:2015 | one stored value yields its annotation exactly when it is truthy and `dict_to_entity` rebuilds it |
| Worker.ForwardFailureDisables | Kelana.py:1957-1985 | in the forward loop, a failed send is the last send, it ends the loop, and it switches forwarding off |
| Worker.ForwardStays | Kelana.py:1968-1983 | once the forward loop is broken, later link sets do nothing |
| Worker.ForwardAll | Kelana.py:1957-1985 | the forward loop computes the specification's pass over the link sets |
| Worker.RunCycle | Kelana.py:1915-2041 | one iteration computes the iteration specification |
| Worker.CycleContract | Kelana.py:1915-2041 | a lost session or a crash switches both modes off; the iteration stops with "no mode", sending nothing, exactly when no mode is left on after the expiry checks; it stops with "copy failed" exactly when its last event is a copy answered False, and copying is then off; the session is lost exactly when reconnection and verification both fail; a continuing iteration ends with a pause |
| Worker.CopyFailedMeans | Kelana.py:2028-2029 | after a forward phase that copied nothing, the iteration stops with "copy failed" exactly when its copy send answered False |
| Worker.CycleForwardFailure | Kelana.py:1968-1983 | after a failed forward, forwarding is off in the stored data |
| Worker.NoTargetsOnlyWaits | Kelana.py:1950-1954 | with no targets the iteration only pauses for the configured delay, and stores only the expiry change |
| Worker.RunCycles | Kelana.py:1914-2041 | the loop computes the run specification over the given iterations |
| Worker.RunWorker | Kelana.py:1910-2046 | the run is that of the specification, and a stopped worker removes itself from the registry |
| Worker.WriteIsSave | Kelana.py:325-337 | writing an update on top of the complete stored data is the same as saving it |

## Left out

- Telethon calls (`get_entity`, `forward_messages`, `send_file`, `send_message`, `connect`, `get_me`, `is_user_authorized`) are outside the model. They become oracles: a lookup function for `get_entity`, per-target outcome tags for sends, and boolean or tagged probes for connection and verification. `ensure_connected` is folded into those probe tags.
- asyncpg pooling, SQL, DB error retries and JSON decoding of the `bot_data` column are outside the model. Only the in-memory map merging is modelled.
- asyncio tasks, cancellation and interleaving are outside the model, including the race between a cancelled worker's cleanup and a restarted worker. Every `sleep` of the sender, the worker and the reconnect loop becomes a recorded pause, apart from the two listed next.
- Resolver.EntityCache.Validate: the 0.1-second pause before each lookup (479) is not recorded. The sender's pause after a flood wait on the progress edit (1822) is not recorded either, because progress messages are outside the model.
- Floating point is outside the model. The flood wait of `seconds * 1.5` is recorded by its `seconds`, and `time.time()` is an integer.
- The regex-based markdown inference is an abstract predicate `linkMarkup`.
- User-facing messages, progress edits, failure reason strings, menus, logging, key generation, `login_user`, `check_user_keys_and_sessions`, admin broadcast, `main()` and `clean_cache` are outside the model.
- The time-to-live cache of `get_user_data` is outside the model.
- Sender.ResolveTargets: the branch where `get_peer_id` raises on a validated entity (1788-1790) is not modelled. A valid entity's id is taken as its peer id.
- Sender.SendInBatches: `verify_session` inside the sender, and inside the worker, is a boolean per call site, not a call of `Guardian.SessionGuardian.Verify`.
- Sender.SendBatch visits the positions `valid[start..end]` directly, not a sliced copy, which is equivalent.
- Worker.ForwardAll: the pause inside a dual forward is recorded on the call, not slept.
- Worker.CycleSpec, Worker.RunSpec: the worker does not see the sender's writes. Pruned `target_groups` (1803, 1894) and the logout that a failed `verify_session` performs are not fed back into the worker's `db`, because each sender call is a free True/False answer. So the next iteration keeps the previous target list, and the "all targets pruned, so only wait" path (1950-1954) is not reached through Worker.RunSpec. Worker.NoTargetsOnlyWaits states that path for one iteration.
- Worker.RunCycles: the endless `while True` loop is modelled over a finite sequence of iteration inputs. Without a stop, the run ends when the inputs end.
- Worker.StoredEntities: a truthy stored `entities` value that is not a list decodes to no annotations, where iterating it at 2015 would iterate it or raise. Saving a message writes only lists there (964).
- Common: strings are ASCII only. `Worker.Str` of a list or a dictionary gives the empty string, instead of Python's printed form.
- The `session_string` written by `reconnect_client` and by `logout_user` is not a schema key, so the save drops it. The model keeps this behaviour as written; see Findings for logout.
- A copy failure ends the whole worker even while forwarding is still on (2028-2029). A forward failure breaks only the forward loop, and the copy still runs. Both are kept as written.

## Findings

| source | as written | input that shows it | evidently intended | confidence | as-written member | corrected member |
|---|---|---|---|---|---|---|
| Kelana.py:640-641 | `should_run` compares `key_expiry_timestamp` with `time.time()` before testing for an admin | an admin after `/start` has `key_expiry_timestamp = None` (84-110); switching forwarding on makes `None > float` raise `TypeError`, so the worker never starts | an admin runs without an expiry, and a missing or non-numeric expiry means "not valid" | high, not executed | Supervisor.ShouldRunAsWritten, Supervisor.AdminWithoutExpiryRaises, Supervisor.AdminStartLeavesNoExpiry | Supervisor.ShouldRun, Supervisor.ShouldRunMeaning, Supervisor.Registry.Manage |
| Kelana.py:584 | `logout_user` passes `session_string=None`, which `save_user_data` reads as "keep the stored value" | any logged-in user who logs out or is logged out keeps the old session string in the database row | logout clears the stored session | medium, not executed | Schema.LogoutRowAsWritten, Schema.LogoutAsWrittenKeepsSession | Schema.LogoutRow, Schema.LogoutClearsSession |
