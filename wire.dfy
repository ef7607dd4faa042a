/**
 * The message shapes of the game protocol: the outbound `CreateSession` and
 * `LeaderboardUpdate` commands with their envelope tags, the inbound `Event`
 * with its two optional variants, and how each travels as JSON. Field names
 * on the wire follow the struct tags: a leaderboard entry's player is `alias`,
 * and an event's leaderboard update is read from key `LeaderboardUpdated`.
 */
module Wire {
  import opened Wrappers
  import opened Json
  import Decimal

  /** Go's `int`, taken to be 64 bits wide. */
  newtype GoInt = i: int | -0x8000_0000_0000_0000 <= i < 0x8000_0000_0000_0000

  datatype CreateSession = CreateSession(gameId: string)

  /** `session_id` and `player_id` are `json.Number`: the number's text. */
  datatype SessionCreated = SessionCreated(arenaId: GoInt, serverId: GoInt, sessionId: string, playerId: string)

  datatype LeaderboardEntry = LeaderboardEntry(player: string, score: GoInt)

  /** An open string type: the three constants below are named, any other string is a period too. */
  type LeaderboardPeriod = string

  const AllTimeLeaderboard: LeaderboardPeriod := "AllTime"
  const WeeklyTimeLeaderboard: LeaderboardPeriod := "Weekly"
  const DailyTimeLeaderboard: LeaderboardPeriod := "Daily"

  datatype LeaderboardUpdate = LeaderboardUpdate(leaderboard: seq<LeaderboardEntry>, period: LeaderboardPeriod)

  /** The values that can be sent: the types with a `Name()` method. */
  datatype Message =
    | CreateSessionMessage(createSession: CreateSession)
    | LeaderboardUpdateMessage(update: LeaderboardUpdate)
  {
    /** The envelope tag. */
    function Name(): string {
      match this
      case CreateSessionMessage(_) => "CreateSession"
      case LeaderboardUpdateMessage(_) => "LeaderboardUpdate"
    }
  }

  /** An inbound frame: each variant is set when its key is present and not `null`. */
  datatype Event = Event(sessionCreated: Option<SessionCreated>, leaderboardUpdate: Option<LeaderboardUpdate>)

  /** Inbound key of each `Event` variant. */
  const SessionCreatedKey := "SessionCreated"
  const LeaderboardUpdatedKey := "LeaderboardUpdated"

  datatype DecodeError =
    | TypeMismatch(key: string)    // the member's JSON type does not fit the Go field
    | InvalidNumber(text: string)  // a string given for a `json.Number` that is not a number

  // ---------------------------------------------------------------- encoding

  function EncodeCreateSession(cs: CreateSession): Value {
    JObject([Member("game_id", JString(cs.gameId))])
  }

  function EncodeEntry(e: LeaderboardEntry): Value {
    JObject([Member("alias", JString(e.player)), Member("score", JNumber(Decimal.FormatInt(e.score as int)))])
  }

  function EncodeUpdate(u: LeaderboardUpdate): Value {
    var entries := u.leaderboard;
    JObject([
      Member("leaderboard", JArray(seq(|entries|, i requires 0 <= i < |entries| => EncodeEntry(entries[i])))),
      Member("period", JString(u.period))
    ])
  }

  /** A message's own encoding: its field set. */
  function Encode(m: Message): Value {
    match m
    case CreateSessionMessage(cs) => EncodeCreateSession(cs)
    case LeaderboardUpdateMessage(u) => EncodeUpdate(u)
  }

  /** The one-entry map `{m.Name(): m}` that `send` marshals. */
  function Envelope(m: Message): Value {
    JObject([Member(m.Name(), Encode(m))])
  }

  // ---------------------------------------------------------------- decoding
  // A field whose key is absent, or whose value is `null`, keeps Go's zero value.

  function DecodeString(v: Option<Value>, key: string): (r: Result<string, DecodeError>)
    ensures r.Ok? <==> v.None? || v.value.JNull? || v.value.JString?
    ensures r.Ok? && v.Some? && v.value.JString? ==> r.value == v.value.s
    ensures r.Ok? && (v.None? || v.value.JNull?) ==> r.value == ""
  {
    match v
    case None => Ok("")
    case Some(JNull) => Ok("")
    case Some(JString(s)) => Ok(s)
    case Some(_) => Err(TypeMismatch(key))
  }

  predicate InGoIntRange(n: int) {
    -0x8000_0000_0000_0000 <= n < 0x8000_0000_0000_0000
  }

  /** An `int` field: a number literal that `strconv.ParseInt` reads and that fits in 64 bits. */
  function DecodeInt(v: Option<Value>, key: string): (r: Result<GoInt, DecodeError>)
    ensures r.Ok? <==> (v.None? || v.value.JNull?
      || (v.value.JNumber? && Decimal.ParseInt(v.value.literal).Some? && InGoIntRange(Decimal.ParseInt(v.value.literal).value)))
    ensures r.Ok? && v.Some? && v.value.JNumber? ==> Decimal.ParseInt(v.value.literal) == Some(r.value as int)
    ensures (v.None? || v.value.JNull?) ==> r == Ok(0)
  {
    match v
    case None => Ok(0)
    case Some(JNull) => Ok(0)
    case Some(JNumber(lit)) =>
      (match Decimal.ParseInt(lit)
       case Some(n) => if InGoIntRange(n) then Ok(n as GoInt) else Err(TypeMismatch(key))
       case None => Err(TypeMismatch(key)))
    case Some(_) => Err(TypeMismatch(key))
  }

  /** A `json.Number` field: a number's text, or a string holding a valid number. */
  function DecodeNumber(v: Option<Value>, key: string): (r: Result<string, DecodeError>)
    ensures r.Ok? <==> (v.None? || v.value.JNull? || v.value.JNumber? || (v.value.JString? && IsNumberLiteral(v.value.s)))
    ensures (v.None? || v.value.JNull?) ==> r == Ok("")
    ensures v.Some? && v.value.JNumber? ==> r == Ok(v.value.literal)
    ensures v.Some? && v.value.JString? ==> (r.Ok? <==> IsNumberLiteral(v.value.s))
    ensures r.Ok? && v.Some? && v.value.JString? ==> r.value == v.value.s
  {
    match v
    case None => Ok("")
    case Some(JNull) => Ok("")
    case Some(JNumber(lit)) => Ok(lit)
    case Some(JString(s)) => if IsNumberLiteral(s) then Ok(s) else Err(InvalidNumber(s))
    case Some(_) => Err(TypeMismatch(key))
  }

  function DecodeSessionCreated(ms: seq<Member>): Result<SessionCreated, DecodeError> {
    DecodeSessionCreatedFields(Get(ms, "arena_id"), Get(ms, "server_id"), Get(ms, "session_id"), Get(ms, "player_id"))
  }

  /** A `SessionCreated` from the values under its four keys, reporting the first field that fails. */
  function DecodeSessionCreatedFields(arenaId: Option<Value>, serverId: Option<Value>, sessionId: Option<Value>, playerId: Option<Value>)
    : Result<SessionCreated, DecodeError>
  {
    var arena := DecodeInt(arenaId, "arena_id");
    var server := DecodeInt(serverId, "server_id");
    var session := DecodeNumber(sessionId, "session_id");
    var player := DecodeNumber(playerId, "player_id");
    if arena.Err? then Err(arena.error)
    else if server.Err? then Err(server.error)
    else if session.Err? then Err(session.error)
    else if player.Err? then Err(player.error)
    else Ok(SessionCreated(arena.value, server.value, session.value, player.value))
  }

  /** One array element: an object, or `null` for a zero entry. */
  function DecodeEntry(v: Value): Result<LeaderboardEntry, DecodeError> {
    match v
    case JNull => Ok(LeaderboardEntry("", 0))
    case JObject(ms) =>
      var player := DecodeString(Get(ms, "alias"), "alias");
      var score := DecodeInt(Get(ms, "score"), "score");
      if player.Err? then Err(player.error)
      else if score.Err? then Err(score.error)
      else Ok(LeaderboardEntry(player.value, score.value))
    case _ => Err(TypeMismatch("leaderboard"))
  }

  /** The elements of a `leaderboard` array, decoded one by one, in order. */
  function DecodeEntries(items: seq<Value>): (r: Result<seq<LeaderboardEntry>, DecodeError>)
    ensures r.Ok? <==> forall i | 0 <= i < |items| :: DecodeEntry(items[i]).Ok?
    ensures r.Ok? ==> |r.value| == |items| && forall i | 0 <= i < |items| :: DecodeEntry(items[i]) == Ok(r.value[i])
    decreases |items|
  {
    if |items| == 0 then Ok([])
    else
      var first := DecodeEntry(items[0]);
      var rest := DecodeEntries(items[1..]);
      if first.Err? then Err(first.error)
      else if rest.Err? then Err(rest.error)
      else Ok([first.value] + rest.value)
  }

  function DecodeUpdate(ms: seq<Member>): Result<LeaderboardUpdate, DecodeError> {
    var entries :=
      match Get(ms, "leaderboard")
      case None => Ok([])
      case Some(JNull) => Ok([])
      case Some(JArray(items)) => DecodeEntries(items)
      case Some(_) => Err(TypeMismatch("leaderboard"));
    var period := DecodeString(Get(ms, "period"), "period");
    if entries.Err? then Err(entries.error)
    else if period.Err? then Err(period.error)
    else Ok(LeaderboardUpdate(entries.value, period.value))
  }

  /** A pointer field of `Event`: absent or `null` leaves it nil, an object fills it. */
  function DecodeSessionCreatedField(v: Option<Value>): Result<Option<SessionCreated>, DecodeError> {
    match v
    case None => Ok(None)
    case Some(JNull) => Ok(None)
    case Some(JObject(ms)) =>
      (match DecodeSessionCreated(ms)
       case Ok(sc) => Ok(Some(sc))
       case Err(e) => Err(e))
    case Some(_) => Err(TypeMismatch(SessionCreatedKey))
  }

  function DecodeUpdateField(v: Option<Value>): Result<Option<LeaderboardUpdate>, DecodeError> {
    match v
    case None => Ok(None)
    case Some(JNull) => Ok(None)
    case Some(JObject(ms)) =>
      (match DecodeUpdate(ms)
       case Ok(u) => Ok(Some(u))
       case Err(e) => Err(e))
    case Some(_) => Err(TypeMismatch(LeaderboardUpdatedKey))
  }

  /**
   * Unmarshalling a frame into a nil `*Event`: `null` leaves the pointer nil,
   * an object allocates an `Event` and fills the variants whose keys it has,
   * any other value is a type error.
   */
  function DecodeEvent(v: Value): Result<Option<Event>, DecodeError> {
    match v
    case JNull => Ok(None)
    case JObject(ms) => DecodeEventFields(Get(ms, SessionCreatedKey), Get(ms, LeaderboardUpdatedKey))
    case _ => Err(TypeMismatch(""))
  }

  /** The event an object makes from the values under its two variant keys. */
  function DecodeEventFields(sessionCreated: Option<Value>, leaderboardUpdated: Option<Value>): Result<Option<Event>, DecodeError> {
    var sc := DecodeSessionCreatedField(sessionCreated);
    var lu := DecodeUpdateField(leaderboardUpdated);
    if sc.Err? then Err(sc.error)
    else if lu.Err? then Err(lu.error)
    else Ok(Some(Event(sc.value, lu.value)))
  }

  // ---------------------------------------------------------------- properties

  /** A leaderboard entry read back from its own encoding: `alias` is the player, `score` the score. */
  lemma EntryRoundTrip(e: LeaderboardEntry)
    ensures DecodeEntry(EncodeEntry(e)) == Ok(e)
  {
    var ms := EncodeEntry(e).members;
    assert ms[..1] == [ms[0]];
    assert Get(ms, "alias") == Some(JString(e.player));
    assert Get(ms, "score") == Some(JNumber(Decimal.FormatInt(e.score as int)));
    Decimal.ParseFormat(e.score as int);
  }

  /** An update's payload decodes to the same entries, in the same order, and the same period. */
  lemma UpdateRoundTrip(u: LeaderboardUpdate)
    ensures EncodeUpdate(u).JObject?
    ensures DecodeUpdate(EncodeUpdate(u).members) == Ok(u)
  {
    var entries := u.leaderboard;
    var items := seq(|entries|, i requires 0 <= i < |entries| => EncodeEntry(entries[i]));
    forall i | 0 <= i < |items|
      ensures DecodeEntry(items[i]) == Ok(entries[i])
    {
      EntryRoundTrip(entries[i]);
    }
    var r := DecodeEntries(items);
    assert r.Ok?;
    assert r.value == entries;
    var ms := EncodeUpdate(u).members;
    assert ms[..1] == [ms[0]];
    assert Get(ms, "leaderboard") == Some(JArray(items));
    assert Get(ms, "period") == Some(JString(u.period));
  }

  /**
   * An object holding an update payload under key `k` fills `Event.LeaderboardUpdate`
   * exactly when `k` is the inbound key `LeaderboardUpdated`.
   */
  lemma UpdateVariantByKey(k: string, u: LeaderboardUpdate)
    ensures DecodeEvent(JObject([Member(k, EncodeUpdate(u))])).Ok?
    ensures var r := DecodeEvent(JObject([Member(k, EncodeUpdate(u))]));
      r.value.Some? && (r.value.value.leaderboardUpdate == Some(u) <==> k == LeaderboardUpdatedKey)
      && (r.value.value.leaderboardUpdate.None? <==> k != LeaderboardUpdatedKey)
  {
    if k == LeaderboardUpdatedKey {
      UpdateUnderItsKey(u);
    } else if k == SessionCreatedKey {
      UpdateUnderSessionKey(u);
    } else {
      EmptyEvents(k, EncodeUpdate(u));
    }
  }

  /** Under `LeaderboardUpdated` an update's payload fills the leaderboard variant with itself. */
  lemma UpdateUnderItsKey(u: LeaderboardUpdate)
    ensures DecodeEvent(JObject([Member(LeaderboardUpdatedKey, EncodeUpdate(u))])) == Ok(Some(Event(None, Some(u))))
  {
    var ms := [Member(LeaderboardUpdatedKey, EncodeUpdate(u))];
    assert Get(ms, SessionCreatedKey) == None;
    assert Get(ms, LeaderboardUpdatedKey) == Some(EncodeUpdate(u));
    UpdateRoundTrip(u);
  }

  /** Under `SessionCreated` the same payload has none of the session's keys: a zero session, no update. */
  lemma UpdateUnderSessionKey(u: LeaderboardUpdate)
    ensures DecodeEvent(JObject([Member(SessionCreatedKey, EncodeUpdate(u))]))
         == Ok(Some(Event(Some(SessionCreated(0, 0, "", "")), None)))
  {
    var ms := [Member(SessionCreatedKey, EncodeUpdate(u))];
    assert Get(ms, SessionCreatedKey) == Some(EncodeUpdate(u));
    assert Get(ms, LeaderboardUpdatedKey) == None;
    var fields := EncodeUpdate(u).members;
    assert Get(fields, "arena_id") == None;
    assert Get(fields, "server_id") == None;
    assert Get(fields, "session_id") == None;
    assert Get(fields, "player_id") == None;
  }

  /**
   * `send` tags an update `LeaderboardUpdate` while events carry it under
   * `LeaderboardUpdated`, so an envelope sent by this side and decoded as an
   * `Event` has no leaderboard variant: there is no round trip.
   */
  lemma SentUpdateIsNotAnEvent(u: LeaderboardUpdate)
    ensures DecodeEvent(Envelope(LeaderboardUpdateMessage(u))) == Ok(Some(Event(None, None)))
  {
    assert Envelope(LeaderboardUpdateMessage(u)) == JObject([Member("LeaderboardUpdate", EncodeUpdate(u))]);
  }

  /** The envelope is an object with the single key `m.Name()`, holding the message's encoding. */
  lemma EnvelopeShape(m: Message)
    ensures Envelope(m).JObject? && |Envelope(m).members| == 1
    ensures Get(Envelope(m).members, m.Name()) == Some(Encode(m))
    ensures forall k | k != m.Name() :: Get(Envelope(m).members, k).None?
  {
  }

  /** Both envelope tags are written without escapes. */
  lemma EnvelopeText(m: Message)
    ensures Serialize(Envelope(m)) == "{\"" + m.Name() + "\":" + Serialize(Encode(m)) + "}"
  {
    NamePlain(m);
    SerializePlainMember(m.Name(), Encode(m));
  }

  lemma NamePlain(m: Message)
    ensures forall i | 0 <= i < |m.Name()| :: IsPlain(m.Name()[i])
  {
    var n := m.Name();
    forall i | 0 <= i < |n| ensures IsPlain(n[i]) {
      assert 'A' <= n[i] <= 'z';
    }
  }

  /** Members under keys other than the two variant keys are ignored. */
  lemma UnknownKeyIgnored(ms: seq<Member>, m: Member)
    requires m.key != SessionCreatedKey && m.key != LeaderboardUpdatedKey
    ensures DecodeEvent(JObject(ms + [m])) == DecodeEvent(JObject(ms))
  {
    GetOtherKey(ms, m, SessionCreatedKey);
    GetOtherKey(ms, m, LeaderboardUpdatedKey);
  }

  /** An object with neither key is an empty event, not an error; `null` is no event at all. */
  lemma EmptyEvents(k: string, v: Value)
    requires k != SessionCreatedKey && k != LeaderboardUpdatedKey
    ensures DecodeEvent(JObject([])) == Ok(Some(Event(None, None)))
    ensures DecodeEvent(JObject([Member(k, v)])) == Ok(Some(Event(None, None)))
    ensures DecodeEvent(JNull) == Ok(None)
  {
    UnknownKeyIgnored([], Member(k, v));
  }

  /** Nothing makes the variants exclusive: one frame can fill both. */
  lemma BothVariants()
    ensures DecodeEvent(JObject([Member(SessionCreatedKey, JObject([])), Member(LeaderboardUpdatedKey, JObject([]))]))
         == Ok(Some(Event(Some(SessionCreated(0, 0, "", "")), Some(LeaderboardUpdate([], "")))))
  {
    var ms := [Member(SessionCreatedKey, JObject([])), Member(LeaderboardUpdatedKey, JObject([]))];
    assert ms[..1] == [ms[0]];
    assert Get(ms, SessionCreatedKey) == Some(JObject([]));
  }

  /** A frame that is neither an object nor `null`, or an entry whose score is a string, fails to decode. */
  lemma DecodeErrors(v: Value, player: string, score: string)
    requires !v.JObject? && !v.JNull?
    ensures DecodeEvent(v).Err?
    ensures DecodeEntry(JObject([Member("alias", JString(player)), Member("score", JString(score))])).Err?
  {
  }

  /** The four keys of a `SessionCreated` object, in order, each look up their own member. */
  lemma SessionCreatedGets(ms: seq<Member>)
    requires |ms| == 4
    requires ms[0].key == "arena_id" && ms[1].key == "server_id" && ms[2].key == "session_id" && ms[3].key == "player_id"
    ensures Get(ms, "arena_id") == Some(ms[0].value)
    ensures Get(ms, "server_id") == Some(ms[1].value)
    ensures Get(ms, "session_id") == Some(ms[2].value)
    ensures Get(ms, "player_id") == Some(ms[3].value)
  {
    assert ms[..3][..2][..1] == [ms[0]];
    assert ms[..3][..2] == ms[..2];
  }

  /** `arena_id` and `server_id` are read as integers, `session_id` and `player_id` as numeric text. */
  lemma SessionCreatedFields(arena: GoInt, server: GoInt, session: string, player: string)
    ensures DecodeSessionCreated([
        Member("arena_id", JNumber(Decimal.FormatInt(arena as int))),
        Member("server_id", JNumber(Decimal.FormatInt(server as int))),
        Member("session_id", JNumber(session)),
        Member("player_id", JString(player))])
      == if IsNumberLiteral(player) then Ok(SessionCreated(arena, server, session, player))
         else Err(InvalidNumber(player))
  {
    var ms := [
        Member("arena_id", JNumber(Decimal.FormatInt(arena as int))),
        Member("server_id", JNumber(Decimal.FormatInt(server as int))),
        Member("session_id", JNumber(session)),
        Member("player_id", JString(player))];
    SessionCreatedGets(ms);
    SessionCreatedValues(arena, server, session, player);
  }

  /** The field decoding behind `SessionCreatedFields`, once the four values are looked up. */
  lemma SessionCreatedValues(arena: GoInt, server: GoInt, session: string, player: string)
    ensures DecodeSessionCreatedFields(
        Some(JNumber(Decimal.FormatInt(arena as int))), Some(JNumber(Decimal.FormatInt(server as int))),
        Some(JNumber(session)), Some(JString(player)))
      == if IsNumberLiteral(player) then Ok(SessionCreated(arena, server, session, player))
         else Err(InvalidNumber(player))
  {
    IntFieldRoundTrip(arena, "arena_id");
    IntFieldRoundTrip(server, "server_id");
  }

  /** An `int` written in decimal reads back as itself. */
  lemma IntFieldRoundTrip(n: GoInt, key: string)
    ensures DecodeInt(Some(JNumber(Decimal.FormatInt(n as int))), key) == Ok(n)
  {
    Decimal.ParseFormat(n as int);
  }
}
