/**
 * The part of a Redis server and of the php-redis client that the stream transport
 * relies on: streams of entries, consumer groups with a delivery cursor and a list of
 * pending (delivered, unacknowledged) entries per consumer, and the five commands the
 * connection issues (XGROUP CREATE, XREADGROUP, XACK, XDEL, XADD).
 *
 * Entry ids are natural numbers allocated in increasing order ("*" in XADD); a Redis
 * "ms-seq" id is abstracted to its position in that order.  JSON text is represented by
 * the document it encodes.
 */
module RedisStreams {
  import opened Wrappers

  /** A field value of a stream entry: JSON text encoding {body, headers}, or any other text. */
  datatype FieldValue = JsonDocument(body: string, headers: map<string, string>) | Text(text: string)

  type Fields = map<string, FieldValue>

  datatype Entry = Entry(id: nat, fields: Fields)

  /** An entry delivered to a consumer of a group and not yet acknowledged. */
  datatype Claim = Claim(id: nat, consumer: string)

  /** A consumer group: the id of the last entry delivered to it and its pending entries list. */
  datatype Group = Group(lastDelivered: nat, pending: seq<Claim>)

  datatype Stream = Stream(entries: seq<Entry>, lastId: nat, groups: map<string, Group>)

  datatype Server = Server(streams: map<string, Stream>)

  /** The id argument of XREADGROUP: ">" (entries never delivered to the group) or "0" (this consumer's pending entries). */
  datatype Cursor = NewEntries | OwnPending {
    function Text(): string {
      match this
      case NewEntries => ">"
      case OwnPending => "0"
    }
  }

  /** A command as the client sends it. */
  datatype Command =
    | XGroupCreate(key: string, group: string, from: nat, mkStream: bool)
    | XReadGroup(group: string, consumer: string, key: string, cursor: Cursor, count: nat)
    | XAck(key: string, group: string, id: nat)
    | XDel(key: string, id: nat)
    | XAdd(key: string, fields: Fields)

  /** What the server answers: a value, or an error reply. */
  datatype Reply<T> = Value(value: T) | ErrorReply(message: string)

  /** `json_encode(['body' => $body, 'headers' => $headers])`. */
  function JsonEncode(body: string, headers: map<string, string>): FieldValue {
    JsonDocument(body, headers)
  }

  /** `json_decode($text, true)` read as {body, headers}: null for text that is not such a document. */
  function JsonDecode(v: FieldValue): Option<(string, map<string, string>)> {
    match v
    case JsonDocument(b, h) => Some((b, h))
    case Text(_) => None
  }

  lemma JsonRoundTrip(body: string, headers: map<string, string>)
    ensures JsonDecode(JsonEncode(body, headers)) == Some((body, headers))
  {
  }

  const BUSYGROUP_ERROR: string := "BUSYGROUP Consumer Group name already exists"

  function NoGroupError(key: string, group: string): string {
    "NOGROUP No such key '" + key + "' or consumer group '" + group + "' in XREADGROUP with GROUP option"
  }

  function StreamAt(srv: Server, key: string): Stream {
    if key in srv.streams then srv.streams[key] else Stream([], 0, map[])
  }

  /** Position of the first entry whose id is greater than `after`. */
  function FirstAfter(entries: seq<Entry>, after: nat): (r: Option<nat>)
    ensures r.Some? ==> r.value < |entries| && entries[r.value].id > after
    ensures r.Some? ==> forall j :: 0 <= j < r.value ==> entries[j].id <= after
    ensures r.None? ==> forall j :: 0 <= j < |entries| ==> entries[j].id <= after
  {
    if entries == [] then None
    else if entries[0].id > after then Some(0)
    else match FirstAfter(entries[1..], after)
      case None => None
      case Some(i) => Some(i + 1)
  }

  /** Position of the first claim held by `consumer`. */
  function FirstClaimOf(pending: seq<Claim>, consumer: string): (r: Option<nat>)
    ensures r.Some? ==> r.value < |pending| && pending[r.value].consumer == consumer
    ensures r.None? ==> forall j :: 0 <= j < |pending| ==> pending[j].consumer != consumer
  {
    if pending == [] then None
    else if pending[0].consumer == consumer then Some(0)
    else match FirstClaimOf(pending[1..], consumer)
      case None => None
      case Some(i) => Some(i + 1)
  }

  /** The fields of the entry with this id; a deleted entry reads as one without fields. */
  function FieldsOf(entries: seq<Entry>, id: nat): Fields {
    if entries == [] then map[]
    else if entries[0].id == id then entries[0].fields
    else FieldsOf(entries[1..], id)
  }

  /** The records whose id is not `id`, in their order; `idOf` reads a record's id. */
  function WithoutId<T(==)>(records: seq<T>, idOf: T -> nat, id: nat): (r: seq<T>)
    ensures forall j :: 0 <= j < |r| ==> idOf(r[j]) != id && r[j] in records
    ensures |r| <= |records|
    ensures (forall j :: 0 <= j < |records| ==> idOf(records[j]) != id) ==> r == records
  {
    if records == [] then []
    else if idOf(records[0]) == id then WithoutId(records[1..], idOf, id)
    else [records[0]] + WithoutId(records[1..], idOf, id)
  }

  function ClaimId(c: Claim): nat {
    c.id
  }

  function EntryId(e: Entry): nat {
    e.id
  }

  predicate HasClaim(pending: seq<Claim>, id: nat) {
    exists j :: 0 <= j < |pending| && pending[j].id == id
  }

  predicate HasEntry(entries: seq<Entry>, id: nat) {
    exists j :: 0 <= j < |entries| && entries[j].id == id
  }

  /** XGROUP CREATE key group 0 MKSTREAM. */
  function ServerXGroupCreate(srv: Server, key: string, group: string): (Server, Reply<bool>) {
    var s := StreamAt(srv, key);
    if group in s.groups then (srv, ErrorReply(BUSYGROUP_ERROR))
    else (Server(srv.streams[key := s.(groups := s.groups[group := Group(0, [])])]), Value(true))
  }

  /** XREADGROUP GROUP group consumer COUNT 1 STREAMS key cursor, answered as php-redis returns it. */
  function ServerXReadGroup(srv: Server, group: string, consumer: string, key: string, cursor: Cursor)
    : (Server, Reply<map<string, seq<Entry>>>)
  {
    if key !in srv.streams || group !in srv.streams[key].groups then (srv, ErrorReply(NoGroupError(key, group)))
    else
      var s := srv.streams[key];
      var g := s.groups[group];
      match cursor
      case OwnPending =>
        (match FirstClaimOf(g.pending, consumer)
         case None => (srv, Value(map[key := []]))
         case Some(i) =>
           var id := g.pending[i].id;
           (srv, Value(map[key := [Entry(id, FieldsOf(s.entries, id))]])))
      case NewEntries =>
        (match FirstAfter(s.entries, g.lastDelivered)
         case None => (srv, Value(map[]))
         case Some(i) =>
           var e := s.entries[i];
           var g' := Group(e.id, g.pending + [Claim(e.id, consumer)]);
           (Server(srv.streams[key := s.(groups := s.groups[group := g'])]), Value(map[key := [e]])))
  }

  /** XACK key group id: the number of entries acknowledged. */
  function ServerXAck(srv: Server, key: string, group: string, id: nat): (Server, Reply<nat>) {
    if key in srv.streams && group in srv.streams[key].groups && HasClaim(srv.streams[key].groups[group].pending, id) then
      var s := srv.streams[key];
      var g := s.groups[group];
      (Server(srv.streams[key := s.(groups := s.groups[group := g.(pending := WithoutId(g.pending, ClaimId, id))])]), Value(1))
    else (srv, Value(0))
  }

  /** XDEL key id: the number of entries deleted. */
  function ServerXDel(srv: Server, key: string, id: nat): (Server, Reply<nat>) {
    if key in srv.streams && HasEntry(srv.streams[key].entries, id) then
      var s := srv.streams[key];
      (Server(srv.streams[key := s.(entries := WithoutId(s.entries, EntryId, id))]), Value(1))
    else (srv, Value(0))
  }

  /** XADD key * fields: the id of the new entry. */
  function ServerXAdd(srv: Server, key: string, fields: Fields): (Server, Reply<nat>) {
    var s := StreamAt(srv, key);
    var id := s.lastId + 1;
    (Server(srv.streams[key := s.(entries := s.entries + [Entry(id, fields)], lastId := id)]), Value(id))
  }

  /**
   * The observable state of a php-redis client: the server it talks to, the text of the
   * last error reply (php-redis keeps it until it is cleared, which the connection never
   * does), `broken` -- when set, every command throws a RedisException with that text --
   * and the commands issued so far.
   */
  datatype ClientState = ClientState(server: Server, lastError: Option<string>, broken: Option<string>, log: seq<Command>)

  /** A client call returns a value, `false` (None) after an error reply, or throws. */
  datatype Call<T> = Returned(value: Option<T>) | Threw(message: string)

  function Issue<T>(c: ClientState, cmd: Command, answer: (Server, Reply<T>)): (r: (ClientState, Call<T>))
    ensures r.0.log == c.log + [cmd]
    ensures r.0.broken == c.broken
    ensures c.broken.Some? ==> r == (c.(log := c.log + [cmd]), Threw(c.broken.value))
  {
    var logged := c.(log := c.log + [cmd]);
    if c.broken.Some? then (logged, Threw(c.broken.value))
    else match answer.1
      case Value(v) => (logged.(server := answer.0), Returned(Some(v)))
      case ErrorReply(m) => (logged.(lastError := Some(m)), Returned(None))
  }

  /** A Redis client object, as the connection holds it. */
  class RedisClient {
    var state: ClientState

    constructor(state: ClientState)
      ensures this.state == state
    {
      this.state := state;
    }

    /** `xgroup('CREATE', $key, $group, 0, true)`. */
    method XGroupCreate(key: string, group: string) returns (r: Call<bool>)
      modifies this
      ensures (state, r) == Issue(old(state), Command.XGroupCreate(key, group, 0, true), ServerXGroupCreate(old(state).server, key, group))
    {
      var step := Issue(state, Command.XGroupCreate(key, group, 0, true), ServerXGroupCreate(state.server, key, group));
      state, r := step.0, step.1;
    }

    /** `xreadgroup($group, $consumer, [$key => $cursor], 1)`. */
    method XReadGroup(group: string, consumer: string, key: string, cursor: Cursor)
      returns (r: Call<map<string, seq<Entry>>>)
      modifies this
      ensures (state, r) == Issue(old(state), Command.XReadGroup(group, consumer, key, cursor, 1),
                                  ServerXReadGroup(old(state).server, group, consumer, key, cursor))
    {
      var step := Issue(state, Command.XReadGroup(group, consumer, key, cursor, 1),
                        ServerXReadGroup(state.server, group, consumer, key, cursor));
      state, r := step.0, step.1;
    }

    /** `xack($key, $group, [$id])`. */
    method XAck(key: string, group: string, id: nat) returns (r: Call<nat>)
      modifies this
      ensures (state, r) == Issue(old(state), Command.XAck(key, group, id), ServerXAck(old(state).server, key, group, id))
    {
      var step := Issue(state, Command.XAck(key, group, id), ServerXAck(state.server, key, group, id));
      state, r := step.0, step.1;
    }

    /** `xdel($key, [$id])`. */
    method XDel(key: string, id: nat) returns (r: Call<nat>)
      modifies this
      ensures (state, r) == Issue(old(state), Command.XDel(key, id), ServerXDel(old(state).server, key, id))
    {
      var step := Issue(state, Command.XDel(key, id), ServerXDel(state.server, key, id));
      state, r := step.0, step.1;
    }

    /** `xadd($key, '*', $fields)`. */
    method XAdd(key: string, fields: Fields) returns (r: Call<nat>)
      modifies this
      ensures (state, r) == Issue(old(state), Command.XAdd(key, fields), ServerXAdd(old(state).server, key, fields))
    {
      var step := Issue(state, Command.XAdd(key, fields), ServerXAdd(state.server, key, fields));
      state, r := step.0, step.1;
    }
  }

  /**
   * An entry that is gone for a group: its id was allocated, and it is neither in the
   * stream nor pending for anyone in the group.
   */
  ghost predicate Gone(srv: Server, key: string, group: string, id: nat) {
    key in srv.streams
    && id <= srv.streams[key].lastId
    && !HasEntry(srv.streams[key].entries, id)
    && (group in srv.streams[key].groups ==> !HasClaim(srv.streams[key].groups[group].pending, id))
  }

  /** No command brings a gone entry back, and no read returns it. */
  lemma GoneStaysGone(srv: Server, key: string, group: string, id: nat, cmd: Command)
    requires Gone(srv, key, group, id)
    ensures Gone(Apply(srv, cmd), key, group, id)
    ensures cmd.XReadGroup? && cmd.key == key && cmd.group == group ==>
      var a := ServerXReadGroup(srv, cmd.group, cmd.consumer, cmd.key, cmd.cursor).1;
      a.Value? && key in a.value ==> forall j :: 0 <= j < |a.value[key]| ==> a.value[key][j].id != id
  {
    match cmd
    case XGroupCreate(k, g, _, _) =>
    case XReadGroup(g, c, k, cur, _) =>
      if k == key && k in srv.streams && g in srv.streams[k].groups {
        var s := srv.streams[k];
        match cur
        case OwnPending =>
          match FirstClaimOf(s.groups[g].pending, c) {
            case None =>
            case Some(i) =>
              if g == group {
                assert s.groups[g].pending[i].id != id;
              }
          }
        case NewEntries =>
          match FirstAfter(s.entries, s.groups[g].lastDelivered)
          case None =>
          case Some(i) =>
            assert s.entries[i].id != id;
            var s' := Apply(srv, cmd).streams[key];
            if g == group {
              assert forall j :: 0 <= j < |s'.groups[g].pending| ==>
                s'.groups[g].pending[j] in s.groups[g].pending || s'.groups[g].pending[j].id == s.entries[i].id;
            }
      }
    case XAck(k, g, i) =>
      if k == key && k in srv.streams && g in srv.streams[k].groups && HasClaim(srv.streams[k].groups[g].pending, i) && g == group {
        var p := WithoutId(srv.streams[k].groups[g].pending, ClaimId, i);
        assert forall j :: 0 <= j < |p| ==> p[j] in srv.streams[k].groups[g].pending;
      }
    case XDel(k, i) =>
      if k == key && k in srv.streams && HasEntry(srv.streams[k].entries, i) {
        var es := WithoutId(srv.streams[k].entries, EntryId, i);
        assert forall j :: 0 <= j < |es| ==> es[j] in srv.streams[k].entries;
      }
    case XAdd(k, f) =>
      if k == key {
        var s := srv.streams[k];
        assert forall j :: 0 <= j < |s.entries| ==> (s.entries + [Entry(s.lastId + 1, f)])[j] == s.entries[j];
      }
  }

  /** The server state after a command. */
  function Apply(srv: Server, cmd: Command): Server {
    match cmd
    case XGroupCreate(k, g, _, _) => ServerXGroupCreate(srv, k, g).0
    case XReadGroup(g, c, k, cur, _) => ServerXReadGroup(srv, g, c, k, cur).0
    case XAck(k, g, i) => ServerXAck(srv, k, g, i).0
    case XDel(k, i) => ServerXDel(srv, k, i).0
    case XAdd(k, f) => ServerXAdd(srv, k, f).0
  }

  /** Two consumers of one group never both receive the same entry as new: a ">" read moves the group past what it delivers. */
  lemma NewReadsDeliverOnce(srv: Server, group: string, c1: string, c2: string, key: string)
    ensures
      var (srv1, a1) := ServerXReadGroup(srv, group, c1, key, NewEntries);
      var (_, a2) := ServerXReadGroup(srv1, group, c2, key, NewEntries);
      a1.Value? && key in a1.value && a2.Value? && key in a2.value ==>
        forall i, j :: 0 <= i < |a1.value[key]| && 0 <= j < |a2.value[key]| ==> a1.value[key][i].id < a2.value[key][j].id
  {
    var (srv1, a1) := ServerXReadGroup(srv, group, c1, key, NewEntries);
    if a1.Value? && key in a1.value && key in srv.streams && group in srv.streams[key].groups {
      var s := srv.streams[key];
      match FirstAfter(s.entries, s.groups[group].lastDelivered)
      case None =>
      case Some(i) =>
        assert srv1.streams[key].groups[group].lastDelivered == s.entries[i].id;
        assert srv1.streams[key].entries == s.entries;
    }
  }
}
