/**
 * The Redis stream connection of the messenger transport: where it connects and which
 * stream, group and consumer it uses (built from a DSN), and its five operations
 * -- setup, get, ack, reject, add -- on a php-redis client.
 *
 * Each operation is specified by a step function on the connection's observable state
 * (the client's state plus the two flags), returning the new state and the outcome;
 * the `Connection` class performs the same operation in place and is proved equal to
 * its step function.  A thrown TransportException is the `Failure`/`Fail` outcome.
 */
module RedisConnection {
  import opened Wrappers
  import opened RedisStreams
  import Php
  import OrderedMaps

  datatype TransportException = TransportException(message: string)

  datatype InvalidArgumentException = InvalidArgumentException(message: string)

  const DEFAULT_STREAM: string := "messages"
  const DEFAULT_GROUP: string := "symfony"
  const DEFAULT_CONSUMER: string := "consumer"
  const DEFAULT_AUTO_SETUP: bool := true
  const DEFAULT_HOST: string := "127.0.0.1"
  const DEFAULT_PORT: int := 6379

  const READ_ERROR: string := "Could not read messages from the redis stream."
  const ADD_ERROR: string := "Could not add a message to the redis stream."

  /** Redis stream ids as the connection prints them. */
  function IdText(id: nat): string {
    Php.NatToString(id)
  }

  function AckError(id: nat): string {
    "Could not acknowledge redis message \"" + IdText(id) + "\"."
  }

  function RejectError(id: nat): string {
    "Could not delete message \"" + IdText(id) + "\" from the redis stream."
  }

  /** The `$configuration` array; an absent key and a null value are both None. */
  datatype Configuration = Configuration(
    stream: Option<string>, group: Option<string>, consumer: Option<string>, autoSetup: Option<bool>)

  /** The `$connectionCredentials` array. */
  datatype Credentials = Credentials(host: Option<string>, port: Option<int>)

  /** The serializer the client is configured with: php's own unless `serializer` is among the options. */
  datatype Serializer = PhpSerializer | ConfiguredSerializer(value: string)

  /** The fixed names the connection works on. */
  datatype StreamNames = StreamNames(stream: string, group: string, consumer: string)

  /** The observable state: the client's, `autoSetup` and `couldHavePendingMessages`. */
  datatype ConnState = ConnState(client: ClientState, autoSetup: bool, couldHavePendingMessages: bool)

  /** What `get` returns for a message: its id and the decoded body and headers (null when the entry does not decode). */
  datatype ReceivedMessage = ReceivedMessage(id: nat, body: Option<string>, headers: Option<map<string, string>>)

  /** The exception text: the RedisException's message if one was thrown, else the client's last error, else the default. */
  function ErrorText<T>(call: Call<T>, client: ClientState, default: string): string {
    if call.Threw? then call.message else client.lastError.GetOr(default)
  }

  /** `setup()`: create the group (and the stream); only a thrown RedisException stops `autoSetup` from being cleared. */
  function SetupStep(n: StreamNames, st: ConnState): (r: (ConnState, Outcome<TransportException>))
    ensures r.0.couldHavePendingMessages == st.couldHavePendingMessages
    ensures r.0.client.broken == st.client.broken
    ensures r.0.client.log == st.client.log + [Command.XGroupCreate(n.stream, n.group, 0, true)]
    ensures r.1.Fail? <==> st.client.broken.Some?
    ensures r.1.Fail? ==> r.0 == st.(client := r.0.client) && r.1.error.message == st.client.broken.value
    ensures r.1.Pass? ==> !r.0.autoSetup
  {
    var (c, call) := Issue(st.client, Command.XGroupCreate(n.stream, n.group, 0, true), ServerXGroupCreate(st.client.server, n.stream, n.group));
    if call.Threw? then (st.(client := c), Fail(TransportException(call.message)))
    else (st.(client := c, autoSetup := false), Pass)
  }

  /** `setup()` when `autoSetup` is set, else nothing. */
  function AutoSetupStep(n: StreamNames, st: ConnState): (ConnState, Outcome<TransportException>) {
    if st.autoSetup then SetupStep(n, st) else (st, Pass)
  }

  /** Decoding the first entry of a read: `json_decode($message['message'], true)`. */
  function Decode(e: Entry): (m: ReceivedMessage)
    ensures m.id == e.id
  {
    var doc := if "message" in e.fields then JsonDecode(e.fields["message"]) else None;
    match doc
    case Some((b, h)) => ReceivedMessage(e.id, Some(b), Some(h))
    case None => ReceivedMessage(e.id, None, None)
  }

  /** `empty($messages[$stream])`. */
  predicate NoneFor(messages: map<string, seq<Entry>>, key: string) {
    key !in messages || messages[key] == []
  }

  /** The cursor `get` reads with. */
  function CursorFor(couldHavePendingMessages: bool): Cursor {
    if couldHavePendingMessages then OwnPending else NewEntries
  }

  function ReadCommand(n: StreamNames, cursor: Cursor): Command {
    Command.XReadGroup(n.group, n.consumer, n.stream, cursor, 1)
  }

  /**
   * `get()`: auto-setup, read one entry with cursor "0" while pending messages may exist,
   * else ">", and when the pending read is empty, clear the flag and read again.
   */
  function GetStep(n: StreamNames, st: ConnState): (r: (ConnState, Result<Option<ReceivedMessage>, TransportException>))
    ensures r.0.client.broken == st.client.broken
    ensures r.0.couldHavePendingMessages ==> st.couldHavePendingMessages
    decreases if st.couldHavePendingMessages then 1 else 0
  {
    var (st1, setup) := AutoSetupStep(n, st);
    if setup.Fail? then (st1, Failure(setup.error))
    else
      var (c, call) := Issue(st1.client, ReadCommand(n, CursorFor(st1.couldHavePendingMessages)),
                             ServerXReadGroup(st1.client.server, n.group, n.consumer, n.stream, CursorFor(st1.couldHavePendingMessages)));
      var st2 := st1.(client := c);
      if call.Threw? || call.value.None? then (st2, Failure(TransportException(ErrorText(call, c, READ_ERROR))))
      else
        var messages := call.value.value;
        if st2.couldHavePendingMessages && NoneFor(messages, n.stream) then
          GetStep(n, st2.(couldHavePendingMessages := false))
        else if !NoneFor(messages, n.stream) then (st2, Success(Some(Decode(messages[n.stream][0]))))
        else (st2, Success(None))
  }

  /** `ack($id)`: fails unless the server acknowledged an entry. */
  function AckStep(n: StreamNames, st: ConnState, id: nat): (ConnState, Outcome<TransportException>) {
    var (c, call) := Issue(st.client, Command.XAck(n.stream, n.group, id), ServerXAck(st.client.server, n.stream, n.group, id));
    var st1 := st.(client := c);
    if call.Threw? || call.value.None? || call.value.value == 0 then (st1, Fail(TransportException(ErrorText(call, c, AckError(id)))))
    else (st1, Pass)
  }

  /** `reject($id)`: acknowledge and delete; fails unless both did something. */
  function RejectStep(n: StreamNames, st: ConnState, id: nat): (ConnState, Outcome<TransportException>) {
    var (c1, acked) := Issue(st.client, Command.XAck(n.stream, n.group, id), ServerXAck(st.client.server, n.stream, n.group, id));
    if acked.Threw? then (st.(client := c1), Fail(TransportException(acked.message)))
    else
      var (c2, deleted) := Issue(c1, Command.XDel(n.stream, id), ServerXDel(c1.server, n.stream, id));
      var st2 := st.(client := c2);
      if deleted.Threw? || !(Truthy(deleted) && Truthy(acked)) then (st2, Fail(TransportException(ErrorText(deleted, c2, RejectError(id)))))
      else (st2, Pass)
  }

  /** A client result in a PHP condition: `false` and 0 are false. */
  predicate Truthy(call: Call<nat>) {
    call.Returned? && call.value.Some? && call.value.value != 0
  }

  /** `add($body, $headers)`: auto-setup, then append `{"message": json}` to the stream. */
  function AddStep(n: StreamNames, st: ConnState, body: string, headers: map<string, string>): (ConnState, Outcome<TransportException>) {
    var (st1, setup) := AutoSetupStep(n, st);
    if setup.Fail? then (st1, setup)
    else
      var fields := map["message" := JsonEncode(body, headers)];
      var (c, call) := Issue(st1.client, Command.XAdd(n.stream, fields), ServerXAdd(st1.client.server, n.stream, fields));
      var st2 := st1.(client := c);
      if call.Threw? || call.value.None? then (st2, Fail(TransportException(ErrorText(call, c, ADD_ERROR))))
      else (st2, Pass)
  }

  /** What `parse_url` returns; None stands for `false`. */
  datatype Url = Url(host: Option<string>, port: Option<int>, path: Option<string>, query: Option<string>)

  /** The arguments `fromDsn` passes to the constructor. */
  datatype DsnSettings = DsnSettings(configuration: Configuration, credentials: Credentials, redisOptions: OrderedMaps.OrderedMap<string>)

  /** `$parts[$i] ?? null`. */
  function Segment(parts: seq<string>, i: nat): Option<string> {
    if i < |parts| then Some(parts[i]) else None
  }

  /**
   * `fromDsn`: the stream, group and consumer are the first three path segments, host and
   * port default to 127.0.0.1:6379, a query string replaces the given options, and an
   * `auto_setup` option is read as a boolean and removed from the options.
   */
  function ParseDsn(dsn: string, redisOptions: OrderedMaps.OrderedMap<string>,
                    parseUrl: string -> Option<Url>, parseStr: string -> OrderedMaps.OrderedMap<string>)
    : (r: Result<DsnSettings, InvalidArgumentException>)
    ensures r.Failure? <==> parseUrl(dsn).None?
    ensures r.Failure? ==> r.error.message == "The given Redis DSN \"" + dsn + "\" is invalid."
    ensures r.Success? ==> r.value.credentials.host.Some? && r.value.credentials.port.Some?
    ensures r.Success? ==> !OrderedMaps.HasKey(r.value.redisOptions, "auto_setup")
  {
    match parseUrl(dsn)
    case None => Failure(InvalidArgumentException("The given Redis DSN \"" + dsn + "\" is invalid."))
    case Some(url) =>
      var parts := Php.Explode('/', url.path.GetOr(""));
      var credentials := Credentials(Some(url.host.GetOr(DEFAULT_HOST)), Some(url.port.GetOr(DEFAULT_PORT)));
      var options := if url.query.Some? then parseStr(url.query.value) else redisOptions;
      var autoSetup := match OrderedMaps.Get(options, "auto_setup")
        case Some(v) => Some(Php.FilterBoolean(v))
        case None => None;
      var remaining := OrderedMaps.Remove(options, "auto_setup");
      Success(DsnSettings(Configuration(Segment(parts, 1), Segment(parts, 2), Segment(parts, 3), autoSetup), credentials, remaining))
  }

  /** The names the constructor settles on from a configuration. */
  function NamesOf(c: Configuration): StreamNames {
    StreamNames(c.stream.GetOr(DEFAULT_STREAM), c.group.GetOr(DEFAULT_GROUP), c.consumer.GetOr(DEFAULT_CONSUMER))
  }

  /** A Redis stream connection. */
  class Connection {
    const redis: RedisClient
    const host: string
    const port: int
    const serializer: Serializer
    const stream: string
    const group: string
    const consumer: string
    var autoSetup: bool
    var couldHavePendingMessages: bool

    function Names(): StreamNames {
      StreamNames(stream, group, consumer)
    }

    function State(): ConnState
      reads this, redis
    {
      ConnState(redis.state, autoSetup, couldHavePendingMessages)
    }

    /** `new Connection($configuration, $connectionCredentials, $redisOptions, $redis)`, the client given. */
    constructor(configuration: Configuration, credentials: Credentials, redisOptions: OrderedMaps.OrderedMap<string>, redis: RedisClient)
      ensures this.redis == redis
      ensures host == credentials.host.GetOr(DEFAULT_HOST) && port == credentials.port.GetOr(DEFAULT_PORT)
      ensures serializer == match OrderedMaps.Get(redisOptions, "serializer")
                            case Some(v) => ConfiguredSerializer(v)
                            case None => PhpSerializer
      ensures Names() == NamesOf(configuration)
      ensures autoSetup == configuration.autoSetup.GetOr(DEFAULT_AUTO_SETUP)
      ensures couldHavePendingMessages
    {
      this.redis := redis;
      host := credentials.host.GetOr(DEFAULT_HOST);
      port := credentials.port.GetOr(DEFAULT_PORT);
      serializer := match OrderedMaps.Get(redisOptions, "serializer")
                    case Some(v) => ConfiguredSerializer(v)
                    case None => PhpSerializer;
      stream := configuration.stream.GetOr(DEFAULT_STREAM);
      group := configuration.group.GetOr(DEFAULT_GROUP);
      consumer := configuration.consumer.GetOr(DEFAULT_CONSUMER);
      autoSetup := configuration.autoSetup.GetOr(DEFAULT_AUTO_SETUP);
      couldHavePendingMessages := true;
    }

    /** `Connection::fromDsn($dsn, $redisOptions, $redis)`. */
    static method FromDsn(dsn: string, redisOptions: OrderedMaps.OrderedMap<string>, redis: RedisClient,
                          parseUrl: string -> Option<Url>, parseStr: string -> OrderedMaps.OrderedMap<string>)
      returns (r: Result<Connection, InvalidArgumentException>)
      ensures ParseDsn(dsn, redisOptions, parseUrl, parseStr).Failure? ==>
        r == Failure(ParseDsn(dsn, redisOptions, parseUrl, parseStr).error)
      ensures ParseDsn(dsn, redisOptions, parseUrl, parseStr).Success? ==>
        var s := ParseDsn(dsn, redisOptions, parseUrl, parseStr).value;
        && r.Success? && fresh(r.value) && r.value.redis == redis
        && r.value.Names() == NamesOf(s.configuration)
        && r.value.autoSetup == s.configuration.autoSetup.GetOr(DEFAULT_AUTO_SETUP)
        && r.value.host == s.credentials.host.value && r.value.port == s.credentials.port.value
        && r.value.serializer == (match OrderedMaps.Get(s.redisOptions, "serializer")
                                  case Some(v) => ConfiguredSerializer(v)
                                  case None => PhpSerializer)
        && r.value.couldHavePendingMessages
    {
      var parsed := ParseDsn(dsn, redisOptions, parseUrl, parseStr);
      if parsed.Failure? {
        return Failure(parsed.error);
      }
      var s := parsed.value;
      var c := new Connection(s.configuration, s.credentials, s.redisOptions, redis);
      return Success(c);
    }

    method Setup() returns (r: Outcome<TransportException>)
      modifies this, redis
      ensures (State(), r) == SetupStep(Names(), old(State()))
    {
      var created := redis.XGroupCreate(stream, group);
      if created.Threw? {
        return Fail(TransportException(created.message));
      }
      autoSetup := false;
      r := Pass;
    }

    method Get() returns (r: Result<Option<ReceivedMessage>, TransportException>)
      modifies this, redis
      ensures (State(), r) == GetStep(Names(), old(State()))
      decreases if couldHavePendingMessages then 1 else 0
    {
      if autoSetup {
        var setup := Setup();
        if setup.Fail? {
          return Failure(setup.error);
        }
      }
      var cursor := CursorFor(couldHavePendingMessages);
      var messages := redis.XReadGroup(group, consumer, stream, cursor);
      if messages.Threw? || messages.value.None? {
        return Failure(TransportException(ErrorText(messages, redis.state, READ_ERROR)));
      }
      var found := messages.value.value;
      if couldHavePendingMessages && NoneFor(found, stream) {
        couldHavePendingMessages := false;
        r := Get();
        return;
      }
      if !NoneFor(found, stream) {
        return Success(Some(Decode(found[stream][0])));
      }
      return Success(None);
    }

    method Ack(id: nat) returns (r: Outcome<TransportException>)
      modifies redis
      ensures (State(), r) == AckStep(Names(), old(State()), id)
    {
      var acknowledged := redis.XAck(stream, group, id);
      if acknowledged.Threw? || acknowledged.value.None? || acknowledged.value.value == 0 {
        return Fail(TransportException(ErrorText(acknowledged, redis.state, AckError(id))));
      }
      return Pass;
    }

    method Reject(id: nat) returns (r: Outcome<TransportException>)
      modifies redis
      ensures (State(), r) == RejectStep(Names(), old(State()), id)
    {
      var acked := redis.XAck(stream, group, id);
      if acked.Threw? {
        return Fail(TransportException(acked.message));
      }
      var deleted := redis.XDel(stream, id);
      if deleted.Threw? || !(Truthy(deleted) && Truthy(acked)) {
        return Fail(TransportException(ErrorText(deleted, redis.state, RejectError(id))));
      }
      return Pass;
    }

    method Add(body: string, headers: map<string, string>) returns (r: Outcome<TransportException>)
      modifies this, redis
      ensures (State(), r) == AddStep(Names(), old(State()), body, headers)
    {
      if autoSetup {
        var setup := Setup();
        if setup.Fail? {
          return setup;
        }
      }
      var added := redis.XAdd(stream, map["message" := JsonEncode(body, headers)]);
      if added.Threw? || added.value.None? {
        return Fail(TransportException(ErrorText(added, redis.state, ADD_ERROR)));
      }
      return Pass;
    }
  }
}
