/** Rich-text annotations of a saved message and the dictionaries they are
    stored as inside `saved_texts[*].entities`. Only four annotation kinds
    survive the round trip; any other kind is stored but not rebuilt. */
module Entities {
  import opened Common

  const BlockquoteName := "MessageEntityBlockquote"
  const SpoilerName := "MessageEntitySpoiler"
  const TextUrlName := "MessageEntityTextUrl"
  const CustomEmojiName := "MessageEntityCustomEmoji"

  predicate IsSupportedName(n: string) {
    n == BlockquoteName || n == SpoilerName || n == TextUrlName || n == CustomEmojiName
  }

  /** A message annotation. Field values are kept as the JSON they are stored
      as, since the constructors accept whatever `dict.get` returns. */
  datatype MessageEntity =
    | Blockquote(offset: Json, length: Json)
    | Spoiler(offset: Json, length: Json)
    | TextUrl(offset: Json, length: Json, url: Json)
    | CustomEmoji(offset: Json, length: Json, documentId: Json)
    | OtherEntity(typeName: string, offset: Json, length: Json)

  /** A kind of annotation has one class name; the fifth alternative stands for
      every other class, so its name is none of the four. */
  predicate WellNamed(e: MessageEntity) {
    e.OtherEntity? ==> !IsSupportedName(e.typeName)
  }

  function TypeName(e: MessageEntity): string {
    match e
    case Blockquote(_, _) => BlockquoteName
    case Spoiler(_, _) => SpoilerName
    case TextUrl(_, _, _) => TextUrlName
    case CustomEmoji(_, _, _) => CustomEmojiName
    case OtherEntity(n, _, _) => n
  }

  /** What `entity_to_dict` is given: nothing, an already converted dict, or an
      annotation object. */
  datatype EntityInput = NoEntity | AlreadyDict(d: map<string, Json>) | Annotation(e: MessageEntity)

  /** `entity_to_dict`. */
  function EntityToDict(x: EntityInput): Option<map<string, Json>> {
    match x
    case NoEntity => None
    case AlreadyDict(d) => Some(d)
    case Annotation(e) =>
      var base := map["type" := JStr(TypeName(e)), "offset" := e.offset, "length" := e.length];
      Some(match e
           case TextUrl(_, _, u) => base["url" := u]
           case CustomEmoji(_, _, doc) => base["document_id" := doc]
           case _ => base)
  }

  /** `dict_to_entity`: anything but a dict gives None; otherwise the `type`
      entry selects one of the four rebuilt kinds, missing fields read as None
      (and a missing `document_id` as 0); any other type gives None. */
  function DictToEntity(j: Json): Option<MessageEntity> {
    match j
    case JObj(d) =>
      var t := Get(d, "type");
      var off := Get(d, "offset");
      var len := Get(d, "length");
      if t == JStr(BlockquoteName) then Some(Blockquote(off, len))
      else if t == JStr(SpoilerName) then Some(Spoiler(off, len))
      else if t == JStr(TextUrlName) then Some(TextUrl(off, len, Get(d, "url")))
      else if t == JStr(CustomEmojiName) then
        Some(CustomEmoji(off, len, if "document_id" in d then d["document_id"] else JInt(0)))
      else None
    case _ => None
  }

  /** Storing an annotation and reading it back gives the same annotation for
      the four supported kinds and nothing for every other kind. */
  lemma EntityRoundTrip(e: MessageEntity)
    requires WellNamed(e)
    ensures EntityToDict(Annotation(e)).Some?
    ensures DictToEntity(JObj(EntityToDict(Annotation(e)).value))
            == if e.OtherEntity? then None else Some(e)
  {
    var d := EntityToDict(Annotation(e)).value;
    assert Get(d, "type") == JStr(TypeName(e));
    assert Get(d, "offset") == e.offset && Get(d, "length") == e.length;
    match e {
      case TextUrl(_, _, u) => assert Get(d, "url") == u;
      case CustomEmoji(_, _, doc) => assert d["document_id"] == doc;
      case _ =>
    }
  }

  /** The keys a stored annotation of a supported kind has. */
  predicate CanonicalDict(d: map<string, Json>) {
    && "type" in d && d["type"].JStr? && IsSupportedName(d["type"].s)
    && d.Keys == {"type", "offset", "length"}
                 + (if d["type"].s == TextUrlName then {"url"} else {})
                 + (if d["type"].s == CustomEmojiName then {"document_id"} else {})
  }

  /** Reading a stored dict of a supported kind and storing it again gives the
      same dict back. */
  lemma DictRoundTrip(d: map<string, Json>)
    requires CanonicalDict(d)
    ensures DictToEntity(JObj(d)).Some?
    ensures EntityToDict(Annotation(DictToEntity(JObj(d)).value)) == Some(d)
  {
    var e := DictToEntity(JObj(d)).value;
    var back := EntityToDict(Annotation(e)).value;
    var n := d["type"].s;
    assert d["type"] == JStr(n);
    assert "offset" in d && "length" in d;
    if n == TextUrlName {
      assert d.Keys == {"type", "offset", "length", "url"};
      assert back == map["type" := d["type"], "offset" := d["offset"], "length" := d["length"], "url" := d["url"]];
      assert d == back;
    } else if n == CustomEmojiName {
      assert d.Keys == {"type", "offset", "length", "document_id"};
      assert back == map["type" := d["type"], "offset" := d["offset"], "length" := d["length"], "document_id" := d["document_id"]];
      assert d == back;
    } else {
      assert d.Keys == {"type", "offset", "length"};
      assert back == map["type" := d["type"], "offset" := d["offset"], "length" := d["length"]];
      assert d == back;
    }
  }

  /** A dict that is already converted passes through unchanged. */
  lemma AlreadyDictUnchanged(d: map<string, Json>)
    ensures EntityToDict(AlreadyDict(d)) == Some(d)
  {
  }
}
