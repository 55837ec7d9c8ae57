/** The opaque page cursor of the project list. */
module Cursor {
  import opened Wrappers
  import opened Values
  import Base64Url
  import Json
  import Utf8

  datatype Key = Key(createdAt: Timestamp, id: Uuid)

  function Members(k: Key): seq<Json.Member> {
    [Json.Member("created_at", PrintTimestamp(k.createdAt)), Json.Member("id", PrintUuid(k.id))]
  }

  function EncodeCursor(k: Key): string {
    Base64Url.StripPad(Base64Url.Encode(Utf8.Encode(Json.PrintObject(Members(k)))))
  }

  function ReadPayload(text: string): Option<Key> {
    match Json.ReadObject(text)
    case None => None
    case Some(ms) =>
      match (Json.Lookup(ms, "created_at"), Json.Lookup(ms, "id"))
      case (Some(created), Some(id)) =>
        (match (ParseTimestamp(created), ParseUuid(id))
         case (Some(t), Some(u)) => Some(Key(t, u))
         case _ => None)
      case _ => None
  }

  /** The key a cursor stands for, or None when the request is refused as invalid. */
  function DecodeCursor(value: string): Option<Key> {
    match Base64Url.Decode(Base64Url.Repad(value))
    case None => None
    case Some(bytes) =>
      match Utf8.Decode(bytes) case None => None case Some(text) => ReadPayload(text)
  }

  lemma Fields(k: Key)
    ensures Json.Lookup(Members(k), "created_at") == Some(PrintTimestamp(k.createdAt))
    ensures Json.Lookup(Members(k), "id") == Some(PrintUuid(k.id))
  {
    FieldPair(PrintTimestamp(k.createdAt), PrintUuid(k.id));
  }

  lemma FieldPair(created: string, id: string)
    ensures var ms := [Json.Member("created_at", created), Json.Member("id", id)];
      Json.Lookup(ms, "created_at") == Some(created) && Json.Lookup(ms, "id") == Some(id)
  {
    var ms := [Json.Member("created_at", created), Json.Member("id", id)];
    assert ms[..1] == [ms[0]];
    assert Json.Lookup(ms[..1], "created_at") == Some(created);
  }

  lemma PayloadRoundTrip(k: Key)
    ensures ReadPayload(Json.PrintObject(Members(k))) == Some(k)
  {
    Json.ObjectRoundTrip(Members(k));
    Fields(k);
    TimestampRoundTrip(k.createdAt);
    UuidRoundTrip(k.id);
  }

  /** Reading a cursor gives back exactly the creation time and id it was made from .. */
  lemma CursorRoundTrip(k: Key)
    ensures DecodeCursor(EncodeCursor(k)) == Some(k)
  {
    var text := Json.PrintObject(Members(k));
    Base64Url.RoundTrip(Utf8.Encode(text));
    Utf8.RoundTrip(text);
    PayloadRoundTrip(k);
  }

  /** .. so distinct keys have distinct cursors. */
  lemma CursorInjective(k: Key, l: Key)
    ensures EncodeCursor(k) == EncodeCursor(l) <==> k == l
  {
    CursorRoundTrip(k);
    CursorRoundTrip(l);
  }

  /** What a cursor spells, without padding: the creation time and the id, in this order, as one JSON object. */
  lemma CursorText(k: Key)
    ensures EncodeCursor(k) == Base64Url.StripPad(Base64Url.Encode(Utf8.Encode(
      "{" + (Json.Quote("created_at") + (":" + (Json.Quote(PrintTimestamp(k.createdAt)) + ("," + (Json.Quote("id") + (":" + (
      Json.Quote(PrintUuid(k.id)) + "}"))))))))))
  {
    Json.PrintedPair("created_at", PrintTimestamp(k.createdAt), "id", PrintUuid(k.id));
  }
}
