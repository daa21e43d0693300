/** `send_messages_in_batches`: validate every stored target through the
    entity cache, drop the invalid ones from the saved list, send to the
    valid ones fifty at a time, and drop the targets that turned out to be
    inaccessible. What each send produces, whether the client is connected
    and what `verify_session` answers are given per target position as a
    script; Telegram's `get_entity` is the same parameter the resolver
    takes. */
module Sender {
  import opened Common
  import opened Resolver
  import opened Lists

  // ------------------------------------------------------- target validation

  datatype ResolveRun = ResolveRun(valid: seq<int>, invalid: seq<string>, cache: seq<CacheEntry>)

  /** Validating the first `k` targets as groups, in order, each validation
      seeing the cache the previous one left. */
  function ResolvePrefix(es: seq<CacheEntry>, targets: seq<string>, k: nat, now: int,
                         getEntity: PyId -> Lookup): ResolveRun
    requires k <= |targets|
  {
    if k == 0 then ResolveRun([], [], es)
    else
      var before := ResolvePrefix(es, targets, k - 1, now, getEntity);
      Extend(before, targets[k - 1], ValidateSpec(before.cache, true, IdStr(targets[k - 1]), true, now, getEntity))
  }

  /** Recording the validation `run` of `target`. */
  function Extend(before: ResolveRun, target: string, run: ValidationRun): ResolveRun {
    if run.result.Valid? then ResolveRun(before.valid + [run.result.entity.peerId], before.invalid, run.cache)
    else ResolveRun(before.valid, before.invalid + [target], run.cache)
  }

  /** Every target ends up valid or invalid, never both; an invalid entry is
      one of the targets; the cache stays bounded with distinct keys. */
  lemma {:induction false} ResolveShape(es: seq<CacheEntry>, targets: seq<string>, k: nat, now: int,
                                        getEntity: PyId -> Lookup)
    requires k <= |targets| && CacheOk(es)
    ensures var r := ResolvePrefix(es, targets, k, now, getEntity);
      && |r.valid| + |r.invalid| == k
      && (forall x :: x in r.invalid ==> x in targets[..k])
      && CacheOk(r.cache)
  {
    if k > 0 {
      ResolveShape(es, targets, k - 1, now, getEntity);
      var before := ResolvePrefix(es, targets, k - 1, now, getEntity);
      var run := ValidateSpec(before.cache, true, IdStr(targets[k - 1]), true, now, getEntity);
      ValidateKeepsCacheOk(before.cache, true, IdStr(targets[k - 1]), true, now, getEntity);
      TakeOneMore(targets, k);
      ExtendShape(before, targets[k - 1], run, targets[..k - 1]);
      assert ResolvePrefix(es, targets, k, now, getEntity) == Extend(before, targets[k - 1], run);
    }
  }

  lemma TakeOneMore<T>(s: seq<T>, k: nat)
    requires 0 < k <= |s|
    ensures s[..k] == s[..k - 1] + [s[k - 1]]
  {
  }

  lemma ExtendShape(before: ResolveRun, target: string, run: ValidationRun, seen: seq<string>)
    requires forall x :: x in before.invalid ==> x in seen
    ensures var r := Extend(before, target, run);
      && |r.valid| + |r.invalid| == |before.valid| + |before.invalid| + 1
      && (forall x :: x in r.invalid ==> x in seen + [target])
      && r.cache == run.cache
  {
  }

  /** The validation loop of `send_messages_in_batches`. */
  method ResolveTargets(cache: EntityCache, targets: seq<string>, now: int, getEntity: PyId -> Lookup)
    returns (valid: seq<int>, invalid: seq<string>)
    requires cache.Valid()
    modifies cache
    ensures cache.Valid()
    ensures ResolveRun(valid, invalid, cache.entries) == ResolvePrefix(old(cache.entries), targets, |targets|, now, getEntity)
  {
    ghost var es0 := cache.entries;
    valid, invalid := [], [];
    var i := 0;
    while i < |targets|
      invariant 0 <= i <= |targets|
      invariant cache.Valid()
      invariant ResolveRun(valid, invalid, cache.entries) == ResolvePrefix(es0, targets, i, now, getEntity)
    {
      ghost var before := ResolveRun(valid, invalid, cache.entries);
      var r, queried := cache.Validate(true, IdStr(targets[i]), true, now, getEntity);
      if r.Valid? {
        valid := valid + [r.entity.peerId];
      } else {
        invalid := invalid + [targets[i]];
      }
      ResolveStep(es0, targets, i, now, getEntity, before, ValidationRun(r, cache.entries, queried));
      i := i + 1;
    }
  }

  lemma ResolveStep(es: seq<CacheEntry>, targets: seq<string>, i: nat, now: int, getEntity: PyId -> Lookup,
                    before: ResolveRun, run: ValidationRun)
    requires i < |targets| && before == ResolvePrefix(es, targets, i, now, getEntity)
    requires run == ValidateSpec(before.cache, true, IdStr(targets[i]), true, now, getEntity)
    ensures ResolvePrefix(es, targets, i + 1, now, getEntity) == Extend(before, targets[i], run)
  {
  }

  /** `[tg for tg in list if tg not in removed]`: it keeps exactly the
      entries that are not removed, in order, and it is shorter exactly when
      some entry is removed (the condition for writing it back). */
  function Prune(list: seq<string>, removed: seq<string>): (r: seq<string>)
    ensures |r| <= |list|
    ensures forall x :: x in r <==> x in list && x !in removed
    ensures |r| < |list| <==> exists x :: x in list && x in removed
    ensures |r| == |list| ==> r == list
  {
    if list == [] then []
    else
      var rest := Prune(list[1..], removed);
      assert forall x :: x in list <==> x == list[0] || x in list[1..];
      if list[0] in removed then rest else [list[0]] + rest
  }

  /** `Prune` is the in-order filter: pruning a concatenation prunes each
      part in place, so order and repetitions of the kept entries stay as
      they were. */
  lemma {:induction false} PruneConcat(a: seq<string>, b: seq<string>, removed: seq<string>)
    ensures Prune(a + b, removed) == Prune(a, removed) + Prune(b, removed)
  {
    if a != [] {
      assert (a + b)[1..] == a[1..] + b;
      assert (a + b)[0] == a[0];
      PruneConcat(a[1..], b, removed);
    } else {
      assert a + b == b;
    }
  }

  /** A single entry is kept exactly when it is not removed. */
  lemma PruneOne(x: string, removed: seq<string>)
    ensures Prune([x], removed) == if x in removed then [] else [x]
  {
    assert [x][1..] == [];
  }

  // -------------------------------------------------- finding the stored entry

  /** What the inaccessible-target branch passes to `get_entity` for a stored
      entry: an int when `lstrip('-')` leaves digits (None when `int()`
      then refuses it, which the branch skips), the text otherwise. */
  function Requery(tg: string): Option<PyId> {
    if IsDigits(LStripDash(tg)) then
      if IsDigits(tg) then Some(IdInt(DigitsValue(tg)))
      else if |tg| > 1 && tg[0] == '-' && IsDigits(tg[1..]) then Some(IdInt(-(DigitsValue(tg[1..]) as int)))
      else None
    else Some(IdStr(tg))
  }

  predicate ResolvesTo(tg: string, peer: int, getEntity: PyId -> Lookup) {
    var q := Requery(tg);
    q.Some? && getEntity(q.value).Found? && getEntity(q.value).entity.peerId == peer
  }

  /** The first stored entry that resolves to `peer`, if any. */
  function FirstResolving(list: seq<string>, peer: int, getEntity: PyId -> Lookup): (r: Option<string>)
    ensures r.Some? ==> r.value in list && ResolvesTo(r.value, peer, getEntity)
    ensures r.Some? ==> exists i :: 0 <= i < |list| && list[i] == r.value
                          && forall j :: 0 <= j < i ==> !ResolvesTo(list[j], peer, getEntity)
    ensures r.None? <==> forall t :: t in list ==> !ResolvesTo(t, peer, getEntity)
  {
    if list == [] then None
    else if ResolvesTo(list[0], peer, getEntity) then Some(list[0])
    else
      assert forall x :: x in list <==> x == list[0] || x in list[1..];
      var r := FirstResolving(list[1..], peer, getEntity);
      if r.Some? then
        var i :| 0 <= i < |list[1..]| && list[1..][i] == r.value
                 && forall j :: 0 <= j < i ==> !ResolvesTo(list[1..][j], peer, getEntity);
        assert list[i + 1] == r.value;
        assert forall j :: 0 <= j < i + 1 ==> !ResolvesTo(list[j], peer, getEntity) by {
          forall j | 0 <= j < i + 1 ensures !ResolvesTo(list[j], peer, getEntity) {
            if j > 0 { assert list[j] == list[1..][j - 1]; }
          }
        }
        r
      else r
  }

  /** Wherever the inaccessible-target branch asks for a stored entry at all,
      it asks for the same identifier as the resolver does: the number a
      digit string denotes, or the text itself, `@handle` entries included. */
  lemma RequeryAgreesWithNormalize(tg: string)
    requires Requery(tg).Some?
    ensures Requery(tg) == Some(Normalize(IdStr(tg)))
  {
    if IsDigits(tg) {
      RequeryDigits(tg);
    } else if |tg| > 1 && tg[0] == '-' && IsDigits(tg[1..]) {
      RequeryDash(tg);
    } else {
      RequeryText(tg);
    }
  }

  lemma RequeryDigits(tg: string)
    requires IsDigits(tg)
    ensures Requery(tg) == Some(IdInt(DigitsValue(tg))) == Some(Normalize(IdStr(tg)))
  {
    assert tg[0] != '-' && tg[0] != '@';
    assert LStripDash(tg) == tg;
  }

  lemma RequeryDash(tg: string)
    requires !IsDigits(tg) && |tg| > 1 && tg[0] == '-' && IsDigits(tg[1..])
    ensures Requery(tg) == Some(IdInt(-(DigitsValue(tg[1..]) as int))) == Some(Normalize(IdStr(tg)))
  {
    assert tg[1..][0] != '-';
    assert LStripDash(tg[1..]) == tg[1..];
    assert LStripDash(tg) == tg[1..];
  }

  /** A stored entry that is neither digits nor a dash followed by digits,
      `@handle` entries among them, is passed on as text by both. */
  lemma RequeryText(tg: string)
    requires !IsDigits(tg) && !(|tg| > 1 && tg[0] == '-' && IsDigits(tg[1..]))
    requires Requery(tg).Some?
    ensures Requery(tg) == Some(IdStr(tg)) && Normalize(IdStr(tg)) == IdStr(tg)
  {
  }

  /** The search loop of the inaccessible-target branch. */
  method FindStored(list: seq<string>, peer: int, getEntity: PyId -> Lookup) returns (found: Option<string>)
    ensures found == FirstResolving(list, peer, getEntity)
  {
    var i := 0;
    while i < |list|
      invariant 0 <= i <= |list|
      invariant FirstResolving(list, peer, getEntity) == FirstResolving(list[i..], peer, getEntity)
    {
      var q := Requery(list[i]);
      if q.Some? {
        var answer := getEntity(q.value);
        if answer.Found? && answer.entity.peerId == peer {
          return Some(list[i]);
        }
      }
      assert list[i..][1..] == list[i + 1..];
      i := i + 1;
    }
    return None;
  }

  // ----------------------------------------------------------------- sending

  /** What one attempt to send produced: success; a flood wait of `seconds`
      followed by one retry; a write-permission refusal; a lost access to the
      chat (private, admin required, blocked, privacy); a connection error;
      a ValueError; any other error. */
  datatype SendOutcome =
    | Sent
    | FloodWait(seconds: nat, retryOk: bool)
    | PermissionDenied
    | AccessLost
    | ConnectionLost
    | BadValue
    | OtherError

  /** What happens at one target position: whether the client is connected
      before it, what `verify_session` answers when it is not, what sending
      produces, and what `verify_session` answers after a connection
      error. */
  datatype TargetScript = TargetScript(connected: bool, verifyBefore: bool, outcome: SendOutcome, verifyAfter: bool)

  /** The pauses taken: 2.5 s after a plain success, `1.5 * seconds` for a
      flood wait, `BATCH_DELAY` between batches. */
  datatype Pause = ItemPause | FloodPause(seconds: nat) | BatchPause

  const BatchDelay := 5

  /** The lists the send loop keeps: peers sent to, peers that failed (each
      once), stored entries to drop, pauses, and whether the session was
      lost. */
  datatype Progress = Progress(successes: seq<int>, failures: seq<int>, removals: seq<string>,
                               pauses: seq<Pause>, aborted: bool)

  const Start := Progress([], [], [], [], false)

  function AddOnce<T(==)>(s: seq<T>, x: T): seq<T> {
    if x in s then s else s + [x]
  }

  /** One target: `current` is the saved target list at that moment. */
  function Item(p: Progress, peer: int, s: TargetScript, current: seq<string>, getEntity: PyId -> Lookup): Progress {
    if p.aborted then p
    else if !s.connected && !s.verifyBefore then p.(aborted := true)
    else match s.outcome
      case Sent => p.(successes := p.successes + [peer], pauses := p.pauses + [ItemPause])
      case FloodWait(sec, retryOk) =>
        var q := p.(pauses := p.pauses + [FloodPause(sec)]);
        if retryOk then q.(successes := q.successes + [peer]) else q.(failures := AddOnce(q.failures, peer))
      case AccessLost =>
        var q := p.(failures := AddOnce(p.failures, peer));
        var tg := FirstResolving(current, peer, getEntity);
        if tg.Some? && tg.value != "" && tg.value !in q.removals then q.(removals := q.removals + [tg.value]) else q
      case ConnectionLost => if s.verifyAfter then p else p.(aborted := true)
      case _ => p.(failures := AddOnce(p.failures, peer))
  }

  /** The pause between batches: before position `k` when it starts a batch
      other than the first. The remainder is written with the literal 50,
      the value of `BatchSize`, so that it stays linear arithmetic. */
  function Gap(p: Progress, k: nat, n: nat): Progress {
    if k > 0 && k % 50 == 0 && k < n && !p.aborted then p.(pauses := p.pauses + [BatchPause]) else p
  }

  /** The send loop over the first `k` valid targets, as one flat pass. */
  function Prefix(valid: seq<int>, k: nat, script: nat -> TargetScript, current: seq<string>,
                  getEntity: PyId -> Lookup): Progress
    requires k <= |valid|
  {
    if k == 0 then Start
    else Item(Gap(Prefix(valid, k - 1, script, current, getEntity), k - 1, |valid|),
              valid[k - 1], script(k - 1), current, getEntity)
  }

  /** Where `verify_session` fails: before a send on a disconnected client,
      or after a connection error. */
  predicate VerifyFails(s: TargetScript) {
    (!s.connected && !s.verifyBefore) || (s.outcome.ConnectionLost? && !s.verifyAfter)
  }

  /** The pass loses its session exactly when `verify_session` fails at one
      of the targets visited; no other outcome ends it. */
  lemma {:induction false} AbortedMeans(valid: seq<int>, k: nat, script: nat -> TargetScript,
                                        current: seq<string>, getEntity: PyId -> Lookup)
    requires k <= |valid|
    ensures Prefix(valid, k, script, current, getEntity).aborted <==> exists j :: 0 <= j < k && VerifyFails(script(j))
  {
    if k > 0 {
      AbortedMeans(valid, k - 1, script, current, getEntity);
      var g := Gap(Prefix(valid, k - 1, script, current, getEntity), k - 1, |valid|);
      assert g.aborted == Prefix(valid, k - 1, script, current, getEntity).aborted;
      assert Item(g, valid[k - 1], script(k - 1), current, getEntity).aborted <==> g.aborted || VerifyFails(script(k - 1));
    }
  }

  /** Once the session is lost nothing more happens. */
  lemma {:induction false} AbortedStays(valid: seq<int>, k: nat, m: nat, script: nat -> TargetScript,
                                        current: seq<string>, getEntity: PyId -> Lookup)
    requires k <= m <= |valid|
    requires Prefix(valid, k, script, current, getEntity).aborted
    ensures Prefix(valid, m, script, current, getEntity) == Prefix(valid, k, script, current, getEntity)
  {
    if m > k {
      AbortedStays(valid, k, m - 1, script, current, getEntity);
    }
  }

  /** The send of one target in the loop body. */
  method SendOne(p: Progress, peer: int, s: TargetScript, current: seq<string>, getEntity: PyId -> Lookup)
    returns (q: Progress)
    requires !p.aborted
    ensures q == Item(p, peer, s, current, getEntity)
  {
    q := p;
    if !s.connected && !s.verifyBefore {
      q := q.(aborted := true);
      return;
    }
    match s.outcome {
      case Sent =>
        q := q.(successes := q.successes + [peer], pauses := q.pauses + [ItemPause]);
      case FloodWait(sec, retryOk) =>
        q := q.(pauses := q.pauses + [FloodPause(sec)]);
        if retryOk {
          q := q.(successes := q.successes + [peer]);
        } else if peer !in q.failures {
          q := q.(failures := q.failures + [peer]);
        }
      case AccessLost =>
        if peer !in q.failures {
          q := q.(failures := q.failures + [peer]);
        }
        var tg := FindStored(current, peer, getEntity);
        if tg.Some? && tg.value != "" && tg.value !in q.removals {
          q := q.(removals := q.removals + [tg.value]);
        }
      case ConnectionLost =>
        if !s.verifyAfter {
          q := q.(aborted := true);
        }
      case _ =>
        if peer !in q.failures {
          q := q.(failures := q.failures + [peer]);
        }
    }
  }

  lemma InsideBatch(start: nat, k: nat)
    requires start % 50 == 0 && start < k < start + BatchSize
    ensures k % 50 != 0
  {
  }

  lemma BatchStart(b: nat)
    ensures (b * BatchSize) % 50 == 0
  {
  }

  /** Batch `b` starts at a multiple of 50 inside the list and holds
      between one and 50 targets. */
  lemma BatchRange(n: nat, b: nat)
    requires b < PageCount(n, BatchSize)
    ensures 0 <= b * BatchSize < Min((b + 1) * BatchSize, n) <= n
    ensures Min((b + 1) * BatchSize, n) - b * BatchSize <= BatchSize
    ensures (b * BatchSize) % 50 == 0
  {
    PageBounds(n, BatchSize, b);
    BatchStart(b);
  }

  /** The targets `valid[start..end]` of one batch, sent one by one; the
      send stops at `k`, the end of the batch or the target after which the
      session was lost. */
  method SendBatch(valid: seq<int>, start: nat, end: nat, p0: Progress, script: nat -> TargetScript,
                   current: seq<string>, getEntity: PyId -> Lookup) returns (p: Progress, k: nat)
    requires start < end <= |valid| && end - start <= BatchSize && start % 50 == 0
    requires !p0.aborted
    requires p0 == Gap(Prefix(valid, start, script, current, getEntity), start, |valid|)
    ensures start < k <= end
    ensures p == Prefix(valid, k, script, current, getEntity)
    ensures !p.aborted ==> k == end
  {
    p, k := p0, start;
    while k < end && (k == start || !p.aborted)
      invariant start <= k <= end
      invariant k == start ==> p == p0
      invariant k > start ==> p == Prefix(valid, k, script, current, getEntity)
    {
      if k == start {
        p := SendStep(valid, k, p, script, current, getEntity);
      } else {
        p := SendNext(valid, start, k, p, script, current, getEntity);
      }
      k := k + 1;
    }
  }

  /** The loop body for a target `k` inside the batch starting at `start`. */
  method SendNext(valid: seq<int>, start: nat, k: nat, p: Progress, script: nat -> TargetScript,
                  current: seq<string>, getEntity: PyId -> Lookup) returns (q: Progress)
    requires start % 50 == 0 && start < k < start + BatchSize && k < |valid| && !p.aborted
    requires p == Prefix(valid, k, script, current, getEntity)
    ensures q == Prefix(valid, k + 1, script, current, getEntity)
  {
    InBatch(valid, start, k, p, script, current, getEntity);
    q := SendStep(valid, k, p, script, current, getEntity);
  }

  /** Inside a batch the pass goes straight on to the next target. */
  lemma InBatch(valid: seq<int>, start: nat, k: nat, p: Progress, script: nat -> TargetScript,
                current: seq<string>, getEntity: PyId -> Lookup)
    requires start % 50 == 0 && start < k < start + BatchSize && k <= |valid|
    requires p == Prefix(valid, k, script, current, getEntity)
    ensures p == Gap(Prefix(valid, k, script, current, getEntity), k, |valid|)
  {
    InsideBatch(start, k);
    NoGap(p, k, |valid|);
  }

  /** The loop body for target `k`. */
  method SendStep(valid: seq<int>, k: nat, p: Progress, script: nat -> TargetScript, current: seq<string>,
                  getEntity: PyId -> Lookup) returns (q: Progress)
    requires k < |valid| && !p.aborted
    requires p == Gap(Prefix(valid, k, script, current, getEntity), k, |valid|)
    ensures q == Prefix(valid, k + 1, script, current, getEntity)
  {
    q := SendOne(p, valid[k], script(k), current, getEntity);
  }

  /** Inside a batch there is no pause. */
  lemma NoGap(p: Progress, k: nat, n: nat)
    requires k % 50 != 0
    ensures Gap(p, k, n) == p
  {
  }

  /** The batch loop: `PageCount(n, 50)` batches of `Chunk(valid, 50, b)`,
      with `BATCH_DELAY` after every batch but the last, and an early return
      when the session is lost. */
  method SendAll(valid: seq<int>, script: nat -> TargetScript, current: seq<string>, getEntity: PyId -> Lookup)
    returns (p: Progress)
    ensures p == Prefix(valid, |valid|, script, current, getEntity)
  {
    var n := |valid|;
    p := Start;
    var total := PageCount(n, BatchSize);
    DivBounds(n, BatchSize);
    var b := 0;
    while b < total
      invariant 0 <= b <= total
      invariant b < total ==> p == Gap(Prefix(valid, b * BatchSize, script, current, getEntity), b * BatchSize, n)
      invariant b < total ==> !p.aborted
      invariant b == total ==> p == Prefix(valid, n, script, current, getEntity)
    {
      BatchRange(n, b);
      var k;
      p, k := SendBatch(valid, b * BatchSize, Min((b + 1) * BatchSize, n), p, script, current, getEntity);
      if p.aborted {
        AbortedStays(valid, k, n, script, current, getEntity);
        return;
      }
      if b < total - 1 {
        NextBatch(n, b, total);
        p := p.(pauses := p.pauses + [BatchPause]);
      } else {
        LastBatch(n, b, total);
      }
      b := b + 1;
    }
  }

  /** Batch `b` is not the last: it is full, and the next one starts before
      the end. */
  lemma NextBatch(n: nat, b: nat, total: nat)
    requires total == PageCount(n, BatchSize) && b + 1 < total
    ensures Min((b + 1) * BatchSize, n) == (b + 1) * BatchSize < n
    ensures ((b + 1) * BatchSize) % 50 == 0
  {
    DivBounds(n, BatchSize);
    MulMono(b + 1, total - 1, BatchSize);
    BatchStart(b + 1);
  }

  /** Batch `b` is the last: it ends at the end. */
  lemma LastBatch(n: nat, b: nat, total: nat)
    requires total == PageCount(n, BatchSize) && b + 1 == total
    ensures Min((b + 1) * BatchSize, n) == n
  {
    DivBounds(n, BatchSize);
  }

  predicate NoDup<T(==)>(s: seq<T>) {
    forall i, j :: 0 <= i < j < |s| ==> s[i] != s[j]
  }

  lemma AddOnceNoDup<T>(s: seq<T>, x: T)
    requires NoDup(s)
    ensures NoDup(AddOnce(s, x)) && x in AddOnce(s, x)
    ensures forall y :: y in AddOnce(s, x) <==> y in s || y == x
  {
  }

  /** A peer counts as sent or failed at most once per attempt; a failed
      peer is listed once; every listed peer is a valid target; an entry to
      drop is a stored entry, listed once and never empty. */
  lemma {:induction false} ProgressBounds(valid: seq<int>, k: nat, script: nat -> TargetScript,
                                          current: seq<string>, getEntity: PyId -> Lookup)
    requires k <= |valid|
    ensures Bounded(Prefix(valid, k, script, current, getEntity), k, valid, current)
  {
    if k > 0 {
      ProgressBounds(valid, k - 1, script, current, getEntity);
      var g := Gap(Prefix(valid, k - 1, script, current, getEntity), k - 1, |valid|);
      assert valid[k - 1] in valid;
      ItemBounded(g, k - 1, valid, valid[k - 1], script(k - 1), current, getEntity);
    }
  }

  /** The bounds `ProgressBounds` states about a pass over `k` targets. */
  predicate Bounded(p: Progress, k: nat, valid: seq<int>, current: seq<string>) {
    && |p.successes| + |p.failures| <= k
    && NoDup(p.failures) && NoDup(p.removals)
    && (forall x :: x in p.successes ==> x in valid)
    && (forall x :: x in p.failures ==> x in valid)
    && (forall x :: x in p.removals ==> x in current && x != "")
  }

  lemma ItemBounded(p: Progress, k: nat, valid: seq<int>, peer: int, s: TargetScript, current: seq<string>,
                    getEntity: PyId -> Lookup)
    requires Bounded(p, k, valid, current) && peer in valid
    ensures Bounded(Item(p, peer, s, current, getEntity), k + 1, valid, current)
  {
    var q := Item(p, peer, s, current, getEntity);
    if p.aborted || (!s.connected && !s.verifyBefore) {
      assert q.(aborted := p.aborted) == p;
    } else if s.outcome.Sent? || (s.outcome.FloodWait? && s.outcome.retryOk) {
      assert q.failures == p.failures && q.removals == p.removals && q.successes == p.successes + [peer];
    } else if s.outcome.ConnectionLost? {
      assert q.(aborted := p.aborted) == p;
    } else {
      AddOnceNoDup(p.failures, peer);
      assert q.successes == p.successes && q.failures == AddOnce(p.failures, peer);
      if s.outcome.AccessLost? {
        AppendRemoval(p.removals, FirstResolving(current, peer, getEntity), current, q.removals);
      } else {
        assert q.removals == p.removals;
      }
    }
  }

  /** The entry the inaccessible-target branch adds to the removals. */
  lemma AppendRemoval(removals: seq<string>, tg: Option<string>, current: seq<string>, r: seq<string>)
    requires NoDup(removals) && forall x :: x in removals ==> x in current && x != ""
    requires tg.Some? ==> tg.value in current
    requires r == if tg.Some? && tg.value != "" && tg.value !in removals then removals + [tg.value] else removals
    ensures NoDup(r) && forall x :: x in r ==> x in current && x != ""
  {
  }

  function CountBatchPauses(s: seq<Pause>): nat {
    if s == [] then 0 else CountBatchPauses(s[..|s| - 1]) + (if s[|s| - 1] == BatchPause then 1 else 0)
  }

  lemma BatchCountStep(k: nat)
    requires k >= 1
    ensures k / BatchSize == (k - 1) / BatchSize + (if k % 50 == 0 then 1 else 0)
  {
  }

  /** Sending to one target never takes a batch pause, and a session kept
      after it was kept before it. */
  lemma ItemPauses(p: Progress, peer: int, s: TargetScript, current: seq<string>, getEntity: PyId -> Lookup)
    ensures CountBatchPauses(Item(p, peer, s, current, getEntity).pauses) == CountBatchPauses(p.pauses)
    ensures !Item(p, peer, s, current, getEntity).aborted ==> !p.aborted
  {
    var q := Item(p, peer, s, current, getEntity);
    assert q.pauses == p.pauses || q.pauses == p.pauses + [ItemPause]
           || (s.outcome.FloodWait? && q.pauses == p.pauses + [FloodPause(s.outcome.seconds)]);
  }

  /** A rate-limited send is retried exactly once: one pause of the flood
      wait, then the peer counts as sent when the retry succeeds and as
      failed (once) when it does not. */
  lemma FloodWaitRetriesOnce(p: Progress, peer: int, s: TargetScript, current: seq<string>,
                             getEntity: PyId -> Lookup)
    requires !p.aborted && (s.connected || s.verifyBefore) && s.outcome.FloodWait?
    ensures var q := Item(p, peer, s, current, getEntity);
      && !q.aborted && q.removals == p.removals
      && q.pauses == p.pauses + [FloodPause(s.outcome.seconds)]
      && (s.outcome.retryOk ==> q.successes == p.successes + [peer] && q.failures == p.failures)
      && (!s.outcome.retryOk ==> q.successes == p.successes && q.failures == AddOnce(p.failures, peer))
  {
  }

  /** A pass over `k` targets that keeps its session takes `(k - 1) / 50`
      batch pauses: one between consecutive batches. */
  lemma {:induction false} BatchPauseCount(valid: seq<int>, k: nat, script: nat -> TargetScript,
                                           current: seq<string>, getEntity: PyId -> Lookup)
    requires 1 <= k <= |valid|
    requires !Prefix(valid, k, script, current, getEntity).aborted
    ensures CountBatchPauses(Prefix(valid, k, script, current, getEntity).pauses) == (k - 1) / BatchSize
  {
    var before := Prefix(valid, k - 1, script, current, getEntity);
    var g := Gap(before, k - 1, |valid|);
    ItemPauses(g, valid[k - 1], script(k - 1), current, getEntity);
    if k > 1 {
      BatchPauseCount(valid, k - 1, script, current, getEntity);
      GapCount(before, k - 1, |valid|);
    }
  }

  /** The pause before position `k` raises the count from `(k - 1) / 50` to
      `k / 50`. */
  lemma GapCount(p: Progress, k: nat, n: nat)
    requires 1 <= k < n && !p.aborted
    requires CountBatchPauses(p.pauses) == (k - 1) / BatchSize
    ensures CountBatchPauses(Gap(p, k, n).pauses) == k / BatchSize
  {
    BatchCountStep(k);
    if k % 50 == 0 {
      assert (p.pauses + [BatchPause])[..|p.pauses|] == p.pauses;
    }
  }

  // ------------------------------------------------------------ the whole call

  datatype SendRun = SendRun(ok: bool, stored: seq<string>, progress: Progress, cache: seq<CacheEntry>)

  /** `send_messages_in_batches` as a function of the cache and the saved
      target list before it. */
  function SendSpec(es: seq<CacheEntry>, hasClient: bool, targets: seq<string>, stored: seq<string>, now: int,
                    script: nat -> TargetScript, getEntity: PyId -> Lookup): SendRun
  {
    if !hasClient then SendRun(false, stored, Start, es)
    else if targets == [] then SendRun(true, stored, Start, es)
    else
      var res := ResolvePrefix(es, targets, |targets|, now, getEntity);
      var mid := Prune(stored, res.invalid);
      if res.valid == [] then SendRun(true, mid, Start, res.cache)
      else
        var p := Prefix(res.valid, |res.valid|, script, mid, getEntity);
        if p.aborted then SendRun(false, mid, p, res.cache)
        else SendRun(true, Prune(mid, p.removals), p, res.cache)
  }

  /** `send_messages_in_batches`; `stored` is the saved target list. */
  method SendInBatches(cache: EntityCache, hasClient: bool, targets: seq<string>, stored: seq<string>, now: int,
                       script: nat -> TargetScript, getEntity: PyId -> Lookup)
    returns (ok: bool, storedAfter: seq<string>, progress: Progress)
    requires cache.Valid()
    modifies cache
    ensures cache.Valid()
    ensures SendRun(ok, storedAfter, progress, cache.entries)
            == SendSpec(old(cache.entries), hasClient, targets, stored, now, script, getEntity)
  {
    storedAfter, progress := stored, Start;
    if !hasClient {
      return false, storedAfter, progress;
    }
    if targets == [] {
      return true, storedAfter, progress;
    }
    var valid, invalid := ResolveTargets(cache, targets, now, getEntity);
    if invalid != [] {
      var pruned := Prune(storedAfter, invalid);
      if |pruned| < |storedAfter| {
        storedAfter := pruned;
      }
    }
    if valid == [] {
      return true, storedAfter, progress;
    }
    progress := SendAll(valid, script, storedAfter, getEntity);
    if progress.aborted {
      return false, storedAfter, progress;
    }
    if progress.removals != [] {
      var pruned := Prune(storedAfter, progress.removals);
      if |pruned| < |storedAfter| {
        storedAfter := pruned;
      }
    }
    ok := true;
  }

  /** The call reports failure only without a client or after a session
      that could not be recovered; the saved list only loses entries, loses
      every invalid target, and, unless the session was lost, every entry
      found inaccessible; and no more attempts are counted than there are
      targets. */
  lemma SendContract(es: seq<CacheEntry>, hasClient: bool, targets: seq<string>, stored: seq<string>, now: int,
                     script: nat -> TargetScript, getEntity: PyId -> Lookup)
    requires CacheOk(es)
    ensures var r := SendSpec(es, hasClient, targets, stored, now, script, getEntity);
      var valid := ResolvePrefix(es, targets, |targets|, now, getEntity).valid;
      && (!r.ok <==> !hasClient || r.progress.aborted)
      && (!r.ok <==> !hasClient || exists j :: 0 <= j < |valid| && VerifyFails(script(j)))
      && |r.stored| <= |stored|
      && (forall x :: x in r.stored ==> x in stored)
      && (forall x :: x in r.progress.removals && !r.progress.aborted ==> x !in r.stored)
      && |r.progress.successes| + |r.progress.failures| <= |targets|
      && CacheOk(r.cache)
  {
    if hasClient && targets != [] {
      ResolveShape(es, targets, |targets|, now, getEntity);
      var res := ResolvePrefix(es, targets, |targets|, now, getEntity);
      var mid := Prune(stored, res.invalid);
      if res.valid != [] {
        ProgressBounds(res.valid, |res.valid|, script, mid, getEntity);
        AbortedMeans(res.valid, |res.valid|, script, mid, getEntity);
      }
    }
  }

  /** Every stored entry that failed validation is gone from the saved
      list afterwards. */
  lemma InvalidTargetsDropped(es: seq<CacheEntry>, targets: seq<string>, stored: seq<string>, now: int,
                              script: nat -> TargetScript, getEntity: PyId -> Lookup)
    requires targets != []
    ensures var res := ResolvePrefix(es, targets, |targets|, now, getEntity);
            var r := SendSpec(es, true, targets, stored, now, script, getEntity);
            forall x :: x in res.invalid ==> x !in r.stored
  {
  }
}
