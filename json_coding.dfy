/** How `JSONEncoder` and `JSONDecoder` handle the two game-action structs. The text layer
    (turning a JSON object into bytes and back) belongs to Foundation and stays abstract. The
    keyed containers that Swift synthesizes for `Codable` structs are modelled: one key per
    stored property, named after it. A synthesized decoder reads the keys it needs and ignores
    any others. */
module JsonCoding {
  import opened Wrappers
  import opened FoundationData
  import opened GameActions

  datatype JsonValue = JsonString(text: string) | JsonNumber(bits: Float32)

  /** A JSON object: keys to values. */
  type JsonObject = map<string, JsonValue>

  /** Foundation's JSON text layer. `serialize` can fail: JSONEncoder refuses a NaN or an
      infinite float by default. `parse` fails on bytes that are not a JSON object. */
  datatype JsonCoder = JsonCoder(serialize: JsonObject -> Option<Bytes>, parse: Bytes -> Option<JsonObject>)

  /** What any correct JSON implementation provides: text it wrote parses back to the object
      it was written from. */
  ghost predicate Lawful(coder: JsonCoder) {
    forall o :: coder.serialize(o).Some? ==> coder.parse(coder.serialize(o).value) == Some(o)
  }

  // ---- Synthesized keyed containers ----

  function GameActionObject(g: GameAction): JsonObject {
    map["identifier" := JsonString(g.identifier)]
  }

  function PositionObject(p: PositionGameAction): JsonObject {
    map["identifier" := JsonString(p.identifier), "x" := JsonNumber(p.x),
        "y" := JsonNumber(p.y), "z" := JsonNumber(p.z)]
  }

  function StringField(o: JsonObject, key: string): Option<string> {
    if key in o && o[key].JsonString? then Some(o[key].text) else None
  }

  function FloatField(o: JsonObject, key: string): Option<Float32> {
    if key in o && o[key].JsonNumber? then Some(o[key].bits) else None
  }

  function GameActionFromObject(o: JsonObject): Option<GameAction> {
    var identifier :- StringField(o, "identifier");
    Some(GameAction(identifier))
  }

  function PositionFromObject(o: JsonObject): Option<PositionGameAction> {
    var identifier :- StringField(o, "identifier");
    var x :- FloatField(o, "x");
    var y :- FloatField(o, "y");
    var z :- FloatField(o, "z");
    Some(PositionGameAction(identifier, x, y, z))
  }

  // ---- `JSONEncoder().encode` and `JSONDecoder().decode` for each struct ----

  /** The text written for a trigger holds the one-key object `{"identifier": ...}`. */
  function EncodeGameAction(coder: JsonCoder, g: GameAction): (r: Option<Bytes>)
    ensures Lawful(coder) && r.Some? ==>
              && coder.parse(r.value) == Some(GameActionObject(g))
              && coder.parse(r.value).value.Keys == {"identifier"}
  {
    coder.serialize(GameActionObject(g))
  }

  /** The text written for a position holds the identifier and the three coordinates. */
  function EncodePosition(coder: JsonCoder, p: PositionGameAction): (r: Option<Bytes>)
    ensures Lawful(coder) && r.Some? ==>
              && coder.parse(r.value) == Some(PositionObject(p))
              && coder.parse(r.value).value.Keys == {"identifier", "x", "y", "z"}
  {
    coder.serialize(PositionObject(p))
  }

  /** Decoding a trigger succeeds exactly when the text parses to an object with a string
      under "identifier", whatever other keys it has, and yields that string. */
  function DecodeGameAction(coder: JsonCoder, data: Bytes): (r: Option<GameAction>)
    ensures r.Some? <==> coder.parse(data).Some? && StringField(coder.parse(data).value, "identifier").Some?
    ensures r.Some? ==> Some(r.value.identifier) == StringField(coder.parse(data).value, "identifier")
  {
    var o :- coder.parse(data);
    GameActionFromObject(o)
  }

  /** Decoding a position succeeds exactly when the text parses to an object with a string
      under "identifier" and numbers under "x", "y" and "z", and yields those fields. */
  function DecodePosition(coder: JsonCoder, data: Bytes): (r: Option<PositionGameAction>)
    ensures r.Some? <==>
              && coder.parse(data).Some?
              && StringField(coder.parse(data).value, "identifier").Some?
              && FloatField(coder.parse(data).value, "x").Some?
              && FloatField(coder.parse(data).value, "y").Some?
              && FloatField(coder.parse(data).value, "z").Some?
    ensures r.Some? ==>
              && Some(r.value.identifier) == StringField(coder.parse(data).value, "identifier")
              && Some(r.value.x) == FloatField(coder.parse(data).value, "x")
              && Some(r.value.y) == FloatField(coder.parse(data).value, "y")
              && Some(r.value.z) == FloatField(coder.parse(data).value, "z")
  {
    var o :- coder.parse(data);
    PositionFromObject(o)
  }

  /** Round trip for a trigger: the bytes of an encoded GameAction decode to it. */
  lemma GameActionRoundTrip(coder: JsonCoder, g: GameAction)
    requires Lawful(coder) && EncodeGameAction(coder, g).Some?
    ensures DecodeGameAction(coder, EncodeGameAction(coder, g).value) == Some(g)
  {
  }

  /** Round trip for a position: the bytes of an encoded PositionGameAction decode to it. */
  lemma PositionRoundTrip(coder: JsonCoder, p: PositionGameAction)
    requires Lawful(coder) && EncodePosition(coder, p).Some?
    ensures DecodePosition(coder, EncodePosition(coder, p).value) == Some(p)
  {
  }

  /** A trigger's JSON has no coordinates, so it never decodes as a position. */
  lemma GameActionIsNoPosition(coder: JsonCoder, g: GameAction)
    requires Lawful(coder) && EncodeGameAction(coder, g).Some?
    ensures DecodePosition(coder, EncodeGameAction(coder, g).value).None?
  {
    assert "x" !in GameActionObject(g);
  }

  /** A position's JSON holds an `identifier` key, and the GameAction decoder ignores the
      others, so the bytes also decode as the trigger of the same name. */
  lemma PositionIsAlsoGameAction(coder: JsonCoder, p: PositionGameAction)
    requires Lawful(coder) && EncodePosition(coder, p).Some?
    ensures DecodeGameAction(coder, EncodePosition(coder, p).value) == Some(GameAction(p.identifier))
  {
    assert StringField(PositionObject(p), "identifier") == Some(p.identifier);
  }
}
