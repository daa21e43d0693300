/** The list operations behind the menus: page arithmetic (shared with the
    batching of sends), deleting an item by its index, and the duplicate
    checks made before a saved message or a target group is added. */
module Lists {
  import opened Common
  import opened Resolver

  const ItemsPerPage := 5
  const AdminItemsPerPage := 7
  const BatchSize := 50

  function Min(a: int, b: int): int { if a <= b then a else b }
  function Max(a: int, b: int): int { if a >= b then a else b }

  // -------------------------------------------------------------- paging

  /** `(n + per - 1) // per`: the number of pages of `per` items. */
  function PageCount(n: nat, per: nat): nat
    requires per > 0
  {
    (n + per - 1) / per
  }

  /** Items `[i*per, min((i+1)*per, n))`: page `i`, or batch `i`. */
  function Chunk<T>(items: seq<T>, per: nat, i: nat): seq<T>
    requires per > 0 && i < PageCount(|items|, per)
  {
    PageBounds(|items|, per, i);
    items[i * per..Min((i + 1) * per, |items|)]
  }

  /** Every page starts inside the list and holds between one and `per` items. */
  lemma PageBounds(n: nat, per: nat, i: nat)
    requires per > 0 && i < PageCount(n, per)
    ensures 0 <= i * per < Min((i + 1) * per, n) <= n
    ensures Min((i + 1) * per, n) - i * per <= per
  {
    var q := PageCount(n, per);
    DivBounds(n, per);
    MulMono(i, q - 1, per);
    assert (i + 1) * per == i * per + per;
  }

  /** The page count is the least number of pages that hold `n` items. */
  lemma DivBounds(n: nat, per: nat)
    requires per > 0
    ensures PageCount(n, per) * per >= n
    ensures n > 0 ==> (PageCount(n, per) - 1) * per < n
    ensures n == 0 <==> PageCount(n, per) == 0
  {
    var m := n + per - 1;
    var q, r := m / per, m % per;
    assert m == q * per + r && 0 <= r < per;
    assert (q - 1) * per == q * per - per;
  }

  lemma MulMono(a: nat, b: nat, per: nat)
    requires a <= b
    ensures a * per <= b * per
  {
  }

  /** `max(0, min(page, total_pages - 1))`. */
  function ClampPage(page: int, pages: nat): int {
    Max(0, Min(page, pages - 1))
  }

  /** What the paginated list shows: nothing for an empty list (the "empty
      list" message is sent instead), otherwise the clamped page number and
      its items. */
  function PageView<T>(items: seq<T>, per: nat, page: int): Option<(nat, seq<T>)>
    requires per > 0
  {
    if |items| == 0 then None
    else
      DivBounds(|items|, per);
      var p := ClampPage(page, PageCount(|items|, per));
      Some((p, Chunk(items, per, p)))
  }

  /** A non-empty list always shows an existing page with one to `per` items;
      a page number in range is shown as asked, one below is shown as the
      first page and one above as the last. */
  lemma PageViewShape<T>(items: seq<T>, per: nat, page: int)
    requires per > 0
    ensures PageView(items, per, page).None? <==> |items| == 0
    ensures PageView(items, per, page).Some? ==>
      var (p, slice) := PageView(items, per, page).value;
      && p < PageCount(|items|, per)
      && 0 < |slice| <= per
      && (0 <= page < PageCount(|items|, per) ==> p == page)
      && (page < 0 ==> p == 0)
      && (page >= PageCount(|items|, per) ==> p == PageCount(|items|, per) - 1)
  {
    if |items| > 0 {
      DivBounds(|items|, per);
      var p := ClampPage(page, PageCount(|items|, per));
      PageBounds(|items|, per, p);
    }
  }

  /** The first `k` chunks. */
  function Chunks<T>(items: seq<T>, per: nat, k: nat): seq<seq<T>>
    requires per > 0 && k <= PageCount(|items|, per)
  {
    if k == 0 then [] else Chunks(items, per, k - 1) + [Chunk(items, per, k - 1)]
  }

  function Flatten<T>(xss: seq<seq<T>>): seq<T> {
    if xss == [] then [] else Flatten(xss[..|xss| - 1]) + xss[|xss| - 1]
  }

  lemma {:induction false} ChunksPrefix<T>(items: seq<T>, per: nat, k: nat)
    requires per > 0 && k <= PageCount(|items|, per)
    ensures Flatten(Chunks(items, per, k)) == items[..Min(k * per, |items|)]
  {
    if k > 0 {
      ChunksPrefix(items, per, k - 1);
      PageBounds(|items|, per, k - 1);
      var cs := Chunks(items, per, k);
      assert cs[..|cs| - 1] == Chunks(items, per, k - 1);
      assert (k - 1) * per + per == k * per;
      assert Min((k - 1) * per, |items|) == (k - 1) * per;
      assert items[..(k - 1) * per] + items[(k - 1) * per..Min(k * per, |items|)] == items[..Min(k * per, |items|)];
    }
  }

  /** Cutting a list into pages (or batches) loses nothing, duplicates nothing
      and keeps the order: the pages, joined, are the list. */
  lemma ChunksCoverList<T>(items: seq<T>, per: nat)
    requires per > 0
    ensures Flatten(Chunks(items, per, PageCount(|items|, per))) == items
    ensures forall i :: 0 <= i < PageCount(|items|, per) ==> 0 < |Chunk(items, per, i)| <= per
  {
    DivBounds(|items|, per);
    ChunksPrefix(items, per, PageCount(|items|, per));
    forall i | 0 <= i < PageCount(|items|, per) ensures 0 < |Chunk(items, per, i)| <= per {
      PageBounds(|items|, per, i);
    }
  }

  // ----------------------------------------------------- delete by index

  /** `len()` of a stored value, or None where `len()` raises. */
  function PyLen(j: Json): Option<nat> {
    match j
    case JStr(s) => Some(|s|)
    case JList(xs) => Some(|xs|)
    case JObj(m) => Some(|m|)
    case _ => None
  }

  datatype DeleteResult = Deleted(listType: string, items: seq<Json>) | InvalidIndex | DeleteFailed

  /** The `delete:<list>:<page>:<index>` button: the data must split into four
      fields and the last must be an int; the named list must have an index
      in range, which is removed. A value that is not a list fails when it is
      indexed, a value without a length fails before. */
  function DeleteItem(botData: map<string, Json>, data: string): DeleteResult {
    DeleteFields(botData, Split(data, ':'))
  }

  /** `DeleteItem` once the data is split. */
  function DeleteFields(botData: map<string, Json>, fields: seq<string>): DeleteResult {
    if |fields| != 4 then DeleteFailed
    else
      match PyInt(fields[3])
      case None => DeleteFailed
      case Some(idx) =>
        var stored := if fields[1] in botData then botData[fields[1]] else JList([]);
        match PyLen(stored)
        case None => DeleteFailed
        case Some(n) =>
          if !(0 <= idx < n) then InvalidIndex
          else if stored.JList? then Deleted(fields[1], stored.items[..idx] + stored.items[idx + 1..])
          else DeleteFailed
  }

  /** The delete data for list `t`, page `pg`, index `i`. */
  function DeleteData(t: string, pg: string, i: int): string {
    "delete:" + t + ":" + pg + ":" + IntToString(i)
  }

  /** A button for a list item removes exactly that item, and putting it back
      at its index restores the list; an index out of range changes nothing. */
  lemma DeleteItemPartner(botData: map<string, Json>, t: string, pg: string, i: int)
    requires ':' !in t && ':' !in pg
    requires t in botData && botData[t].JList?
    ensures var items := botData[t].items;
      var r := DeleteItem(botData, DeleteData(t, pg, i));
      && (0 <= i < |items| <==> r.Deleted?)
      && (!(0 <= i < |items|) <==> r == InvalidIndex)
      && (r.Deleted? ==> r.listType == t && |r.items| == |items| - 1
                         && r.items[..i] + [items[i]] + r.items[i..] == items)
  {
    var items := botData[t].items;
    DeleteItemValue(botData, t, pg, i);
    if 0 <= i < |items| {
      RemoveAtRestores(items, i);
    }
  }

  /** Putting an element back at the index it was removed from restores
      the sequence. */
  lemma RemoveAtRestores<T>(xs: seq<T>, i: int)
    requires 0 <= i < |xs|
    ensures var rest := xs[..i] + xs[i + 1..];
      |rest| == |xs| - 1 && rest[..i] + [xs[i]] + rest[i..] == xs
  {
    var rest := xs[..i] + xs[i + 1..];
    assert rest[..i] == xs[..i];
    assert rest[i..] == xs[i + 1..];
    assert xs[..i] + [xs[i]] + xs[i + 1..] == xs;
  }

  lemma DeleteItemValue(botData: map<string, Json>, t: string, pg: string, i: int)
    requires ':' !in t && ':' !in pg
    requires t in botData && botData[t].JList?
    ensures var items := botData[t].items;
      DeleteItem(botData, DeleteData(t, pg, i))
      == if 0 <= i < |items| then Deleted(t, items[..i] + items[i + 1..]) else InvalidIndex
  {
    DeleteDataFields(t, pg, i);
    PyIntOfIntToString(i);
    DeleteFieldsValue(botData, Split(DeleteData(t, pg, i), ':'), t, i);
  }

  lemma DeleteFieldsValue(botData: map<string, Json>, fields: seq<string>, t: string, i: int)
    requires |fields| == 4 && fields[1] == t && PyInt(fields[3]) == Some(i)
    requires t in botData && botData[t].JList?
    ensures var items := botData[t].items;
      DeleteFields(botData, fields)
      == if 0 <= i < |items| then Deleted(t, items[..i] + items[i + 1..]) else InvalidIndex
  {
  }

  lemma SplitFour(a: string, b: string, c: string, d: string)
    requires ':' !in a && ':' !in b && ':' !in c && ':' !in d
    ensures Split(a + [':'] + b + [':'] + c + [':'] + d, ':') == [a, b, c, d]
  {
    SplitLast(a + [':'] + b + [':'] + c, ':', d);
    SplitLast(a + [':'] + b, ':', c);
    SplitLast(a, ':', b);
  }

  lemma DeleteDataFields(t: string, pg: string, i: int)
    requires ':' !in t && ':' !in pg
    ensures Split(DeleteData(t, pg, i), ':') == ["delete", t, pg, IntToString(i)]
  {
    IntToStringHasNoColon(i);
    assert DeleteData(t, pg, i) == "delete" + [':'] + t + [':'] + pg + [':'] + IntToString(i);
    SplitFour("delete", t, pg, IntToString(i));
  }

  lemma IntToStringHasNoColon(i: int)
    ensures ':' !in IntToString(i)
  {
    IntToStringAlphabet(i);
  }

  // ------------------------------------------------- saved-item duplicates

  type Item = map<string, Json>

  /** An item with the same text and the same media id is already saved. */
  predicate IsSavedDuplicate(items: seq<Item>, text: string, mediaId: Json) {
    exists i :: 0 <= i < |items| && Get(items[i], "text") == JStr(text) && Get(items[i], "media_file_id") == mediaId
  }

  /** The saved item: its generated fields (`id`, `entities`, media type,
      timestamp) come in `extra`. */
  function NewItem(text: string, mediaId: Json, extra: Item): Item {
    extra["text" := JStr(text)]["media_file_id" := mediaId]
  }

  datatype SaveItemResult = NothingToSave | AlreadySaved | SavedItem(items: seq<Item>)

  /** Saving a message: nothing when it has neither text nor media; the list
      unchanged when an equal item is saved; else the new item appended. */
  function SaveItem(items: seq<Item>, text: string, hasMedia: bool, mediaId: Json, extra: Item): SaveItemResult {
    if text == "" && !hasMedia then NothingToSave
    else if IsSavedDuplicate(items, text, mediaId) then AlreadySaved
    else SavedItem(items + [NewItem(text, mediaId, extra)])
  }

  /** No two saved items have the same text and media id. */
  predicate DistinctItems(items: seq<Item>) {
    forall i, j :: 0 <= i < j < |items| ==>
      !(Get(items[i], "text") == Get(items[j], "text") && Get(items[i], "media_file_id") == Get(items[j], "media_file_id"))
  }

  /** Saving the same message twice adds it once: the second save finds it,
      and the list never gains two equal items. */
  lemma SaveItemIdempotent(items: seq<Item>, text: string, hasMedia: bool, mediaId: Json, extra: Item, extra': Item)
    requires SaveItem(items, text, hasMedia, mediaId, extra).SavedItem?
    ensures var saved := SaveItem(items, text, hasMedia, mediaId, extra).items;
      && |saved| == |items| + 1 && saved[..|items|] == items
      && SaveItem(saved, text, hasMedia, mediaId, extra') == AlreadySaved
      && (DistinctItems(items) ==> DistinctItems(saved))
  {
    var saved := items + [NewItem(text, mediaId, extra)];
    assert Get(saved[|items|], "text") == JStr(text);
    assert Get(saved[|items|], "media_file_id") == mediaId;
    if DistinctItems(items) {
      forall i, j | 0 <= i < j < |saved|
        ensures !(Get(saved[i], "text") == Get(saved[j], "text")
                  && Get(saved[i], "media_file_id") == Get(saved[j], "media_file_id"))
      {
        if j == |items| {
          assert saved[i] == items[i];
        }
      }
    }
  }

  // --------------------------------------------------- target duplicates

  /** How the bot prints `@{username}`, where a missing value prints `None`. */
  function Handle(name: Option<string>): string {
    "@" + (match name case Some(n) => n case None => "None")
  }

  /** A stored target names the entity: when `int()` reads it, as the same
      peer id; otherwise as the printed peer id or, when the entity has a
      `username` attribute, as its handle. */
  predicate TargetMatches(stored: string, e: Entity) {
    match PyInt(stored)
    case Some(v) => v == e.peerId
    case None => stored == IntToString(e.peerId) || (e.username.UsernameAttr? && stored == Handle(e.username.name))
  }

  /** The duplicate scan before a target group is added. */
  method IsDuplicateTarget(targets: seq<string>, e: Entity) returns (dup: bool)
    ensures dup <==> exists i :: 0 <= i < |targets| && TargetMatches(targets[i], e)
  {
    dup := false;
    var i := 0;
    while i < |targets|
      invariant 0 <= i <= |targets|
      invariant !dup && forall k :: 0 <= k < i ==> !TargetMatches(targets[k], e)
    {
      if TargetMatches(targets[i], e) {
        dup := true;
        break;
      }
      i := i + 1;
    }
  }

  /** In the branch where `int()` refuses the stored text, comparing it with
      the printed peer id can never succeed, since `int()` reads every printed
      id; only the handle comparison is live there. */
  lemma PrintedIdAlwaysParses(stored: string, e: Entity)
    requires PyInt(stored).None?
    ensures TargetMatches(stored, e) <==> e.username.UsernameAttr? && stored == Handle(e.username.name)
  {
    if stored == IntToString(e.peerId) {
      PyIntOfIntToString(e.peerId);
    }
  }

  /** Adding a target: the printed peer id is appended unless a stored target
      already names the entity. */
  function AddTarget(targets: seq<string>, e: Entity): seq<string> {
    if exists i :: 0 <= i < |targets| && TargetMatches(targets[i], e) then targets
    else targets + [IntToString(e.peerId)]
  }

  /** After an add the entity is always found, so adding it again changes
      nothing; nothing stored before is lost. */
  lemma AddTargetIdempotent(targets: seq<string>, e: Entity)
    ensures var added := AddTarget(targets, e);
      && added[..|targets|] == targets
      && |added| <= |targets| + 1
      && (exists i :: 0 <= i < |added| && TargetMatches(added[i], e))
      && AddTarget(added, e) == added
  {
    var added := AddTarget(targets, e);
    if added != targets {
      PyIntOfIntToString(e.peerId);
      assert TargetMatches(added[|targets|], e);
    }
  }
}
