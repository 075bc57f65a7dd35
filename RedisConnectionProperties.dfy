/**
 * What the Redis connection's operations guarantee, stated on their step functions:
 * the commands each one issues, how the two flags evolve, when each one fails and with
 * which message, the add-then-get round trip, and that a rejected message never comes
 * back; and what `fromDsn` reads from a DSN.
 */
module RedisConnectionProperties {
  import opened Wrappers
  import opened RedisStreams
  import opened RedisConnection
  import Php
  import OrderedMaps

  /** The connection's operations, for statements about all of them. */
  datatype Op = SetupOp | GetOp | AckOp(id: nat) | RejectOp(id: nat) | AddOp(body: string, headers: map<string, string>)

  function Run(n: StreamNames, st: ConnState, op: Op): ConnState {
    match op
    case SetupOp => SetupStep(n, st).0
    case GetOp => GetStep(n, st).0
    case AckOp(id) => AckStep(n, st, id).0
    case RejectOp(id) => RejectStep(n, st, id).0
    case AddOp(b, h) => AddStep(n, st, b, h).0
  }

  function SetupCommands(n: StreamNames, st: ConnState): seq<Command> {
    if st.autoSetup then [Command.XGroupCreate(n.stream, n.group, 0, true)] else []
  }

  /** `get` without pending messages and without auto-setup: one ">" read, and the flags stay down. */
  lemma GetStepNewOnly(n: StreamNames, st: ConnState)
    requires !st.couldHavePendingMessages && !st.autoSetup
    ensures GetStep(n, st).0.client.log == st.client.log + [ReadCommand(n, NewEntries)]
    ensures !GetStep(n, st).0.couldHavePendingMessages && !GetStep(n, st).0.autoSetup
  {
  }

  /** The server state after an auto-setup that did not throw. */
  function ServerAfterSetup(n: StreamNames, st: ConnState): Server {
    if st.autoSetup then ServerXGroupCreate(st.client.server, n.stream, n.group).0 else st.client.server
  }

  /**
   * `get` issues the setup command when `autoSetup` is set and, unless that threw, one
   * read of COUNT 1 with cursor "0" while `couldHavePendingMessages` holds and ">"
   * otherwise; a second read, with ">", follows exactly when the pending read succeeded
   * and found nothing, and that is exactly when the flag is cleared.  So `get` recurses at
   * most once.
   */
  lemma {:induction false} GetCommands(n: StreamNames, st: ConnState)
    ensures var r := GetStep(n, st);
      st.autoSetup && st.client.broken.Some? ==>
        r.0.client.log == st.client.log + SetupCommands(n, st) && r.1.Failure? &&
        r.0.couldHavePendingMessages == st.couldHavePendingMessages
    ensures var r := GetStep(n, st);
      !(st.autoSetup && st.client.broken.Some?) ==>
        var first := st.client.log + SetupCommands(n, st) + [ReadCommand(n, CursorFor(st.couldHavePendingMessages))];
        var pendingEmpty := st.couldHavePendingMessages && st.client.broken.None? &&
          var a := ServerXReadGroup(ServerAfterSetup(n, st), n.group, n.consumer, n.stream, OwnPending).1;
          a.Value? && NoneFor(a.value, n.stream);
        && (pendingEmpty ==> r.0.client.log == first + [ReadCommand(n, NewEntries)] && !r.0.couldHavePendingMessages)
        && (!pendingEmpty ==> r.0.client.log == first && r.0.couldHavePendingMessages == st.couldHavePendingMessages)
  {
    var (st1, setup) := AutoSetupStep(n, st);
    if setup.Pass? {
      assert st1.client.server == ServerAfterSetup(n, st);
      assert !st1.autoSetup;
      var cursor := CursorFor(st1.couldHavePendingMessages);
      var (c, call) := Issue(st1.client, ReadCommand(n, cursor), ServerXReadGroup(st1.client.server, n.group, n.consumer, n.stream, cursor));
      if call.Returned? && call.value.Some? && st1.couldHavePendingMessages && NoneFor(call.value.value, n.stream) {
        GetStepNewOnly(n, st1.(client := c, couldHavePendingMessages := false));
      }
    }
  }

  /**
   * What `get` returns for the server's answer to a read on a client that does not throw:
   * an error reply becomes a TransportException carrying that reply's text (php-redis has
   * just made it the last error), a read with nothing for the stream is null, and otherwise
   * the message is the first entry read for the stream.
   */
  function ReadOutcome(n: StreamNames, answer: Reply<map<string, seq<Entry>>>): Result<Option<ReceivedMessage>, TransportException> {
    match answer
    case ErrorReply(m) => Failure(TransportException(m))
    case Value(messages) =>
      if NoneFor(messages, n.stream) then Success(None) else Success(Some(Decode(messages[n.stream][0])))
  }

  /**
   * What `get` returns: on a client that throws, the TransportException carries the
   * RedisException's text (from the setup when auto-setup is on, else from the read);
   * otherwise it is what the server answers to the read after the setup, except that an
   * empty pending read gives way to the answer of the ">" read that follows it.
   */
  lemma {:induction false} GetOutcome(n: StreamNames, st: ConnState)
    ensures st.client.broken.Some? ==> GetStep(n, st).1 == Failure(TransportException(st.client.broken.value))
    ensures st.client.broken.None? ==>
      var (srv1, a) := ServerXReadGroup(ServerAfterSetup(n, st), n.group, n.consumer, n.stream, CursorFor(st.couldHavePendingMessages));
      GetStep(n, st).1 ==
        if st.couldHavePendingMessages && a.Value? && NoneFor(a.value, n.stream)
        then ReadOutcome(n, ServerXReadGroup(srv1, n.group, n.consumer, n.stream, NewEntries).1)
        else ReadOutcome(n, a)
    decreases if st.couldHavePendingMessages then 1 else 0
  {
    var (st1, setup) := AutoSetupStep(n, st);
    if setup.Pass? {
      assert st1.client.server == ServerAfterSetup(n, st);
      assert !st1.autoSetup;
      if st.autoSetup {
        GetAfterSetup(n, st);
      }
      var cursor := CursorFor(st1.couldHavePendingMessages);
      var (c, call) := Issue(st1.client, ReadCommand(n, cursor), ServerXReadGroup(st1.client.server, n.group, n.consumer, n.stream, cursor));
      if call.Returned? && call.value.Some? && st1.couldHavePendingMessages && NoneFor(call.value.value, n.stream) {
        GetOutcome(n, st1.(client := c, couldHavePendingMessages := false));
      }
    }
  }

  /** Without auto-setup, `get` on a stream or group that does not exist fails with Redis's NOGROUP text. */
  lemma GetWithoutGroup(n: StreamNames, st: ConnState)
    requires st.client.broken.None? && !st.autoSetup
    requires n.stream !in st.client.server.streams || n.group !in st.client.server.streams[n.stream].groups
    ensures GetStep(n, st).1 == Failure(TransportException(NoGroupError(n.stream, n.group)))
  {
    GetOutcome(n, st);
  }

  /** `autoSetup` ends up cleared by `get`, `add` and `setup` unless the client threw; `ack` and `reject` leave it. */
  lemma AutoSetupCleared(n: StreamNames, st: ConnState, op: Op)
    ensures Run(n, st, op).autoSetup ==
      if op.AckOp? || op.RejectOp? then st.autoSetup
      else if op.SetupOp? then st.client.broken.Some? && st.autoSetup
      else st.autoSetup && st.client.broken.Some?
  {
    match op
    case GetOp =>
      GetCommands(n, st);
      var (st1, setup) := AutoSetupStep(n, st);
      if setup.Pass? && st1.couldHavePendingMessages {
        var (c, call) := Issue(st1.client, ReadCommand(n, OwnPending), ServerXReadGroup(st1.client.server, n.group, n.consumer, n.stream, OwnPending));
        if call.Returned? && call.value.Some? && NoneFor(call.value.value, n.stream) {
          GetStepNewOnly(n, st1.(client := c, couldHavePendingMessages := false));
        }
      }
    case _ =>
  }

  /**
   * `couldHavePendingMessages` is never raised again: no operation sets it, and only
   * `get` clears it.
   */
  lemma PendingFlagMonotone(n: StreamNames, st: ConnState, op: Op)
    ensures Run(n, st, op).couldHavePendingMessages ==> st.couldHavePendingMessages
    ensures !op.GetOp? ==> Run(n, st, op).couldHavePendingMessages == st.couldHavePendingMessages
  {
  }

  /** The flag over a series of operations: once down it stays down. */
  function RunAll(n: StreamNames, st: ConnState, ops: seq<Op>): ConnState
    decreases |ops|
  {
    if ops == [] then st else Run(n, RunAll(n, st, ops[..|ops| - 1]), ops[|ops| - 1])
  }

  lemma {:induction false} PendingFlagStaysDown(n: StreamNames, st: ConnState, ops: seq<Op>)
    requires !st.couldHavePendingMessages
    ensures !RunAll(n, st, ops).couldHavePendingMessages
    decreases |ops|
  {
    if ops != [] {
      PendingFlagStaysDown(n, st, ops[..|ops| - 1]);
      PendingFlagMonotone(n, RunAll(n, st, ops[..|ops| - 1]), ops[|ops| - 1]);
    }
  }

  /** Whether the group holds a pending claim for the id. */
  predicate Pending(srv: Server, n: StreamNames, id: nat) {
    n.stream in srv.streams && n.group in srv.streams[n.stream].groups && HasClaim(srv.streams[n.stream].groups[n.group].pending, id)
  }

  /**
   * `ack` issues one XACK and succeeds exactly when the entry was pending for the group;
   * it fails with the RedisException's text, or else with the client's last error, which
   * may be left over from an earlier command, or else the default text.
   */
  lemma AckOutcome(n: StreamNames, st: ConnState, id: nat)
    ensures AckStep(n, st, id).0.client.log == st.client.log + [Command.XAck(n.stream, n.group, id)]
    ensures AckStep(n, st, id).1.Pass? <==> st.client.broken.None? && Pending(st.client.server, n, id)
    ensures AckStep(n, st, id).1.Fail? ==> (AckStep(n, st, id).1.error.message ==
      if st.client.broken.Some? then st.client.broken.value else st.client.lastError.GetOr(AckError(id)))
  {
  }

  /**
   * `reject` issues XACK and then, unless that threw, XDEL; it succeeds exactly when the
   * entry was pending and present, and its failure text is chosen like `ack`'s.
   */
  lemma RejectOutcome(n: StreamNames, st: ConnState, id: nat)
    ensures RejectStep(n, st, id).0.client.log == st.client.log + [Command.XAck(n.stream, n.group, id)] +
      (if st.client.broken.Some? then [] else [Command.XDel(n.stream, id)])
    ensures RejectStep(n, st, id).1.Pass? <==>
      st.client.broken.None? && Pending(st.client.server, n, id) && HasEntry(st.client.server.streams[n.stream].entries, id)
    ensures RejectStep(n, st, id).1.Fail? ==> (RejectStep(n, st, id).1.error.message ==
      if st.client.broken.Some? then st.client.broken.value else st.client.lastError.GetOr(RejectError(id)))
  {
  }

  /** After a `reject` that reached the server, the entry is gone for the group, whatever the outcome. */
  lemma RejectMakesGone(n: StreamNames, st: ConnState, id: nat)
    requires st.client.broken.None?
    requires n.stream in st.client.server.streams && id <= st.client.server.streams[n.stream].lastId
    ensures Gone(RejectStep(n, st, id).0.client.server, n.stream, n.group, id)
  {
    var srv := st.client.server;
    var srv1 := ServerXAck(srv, n.stream, n.group, id).0;
    assert n.stream in srv1.streams && srv1.streams[n.stream].lastId == srv.streams[n.stream].lastId;
    assert n.group in srv1.streams[n.stream].groups ==> !HasClaim(srv1.streams[n.stream].groups[n.group].pending, id);
    var srv2 := ServerXDel(srv1, n.stream, id).0;
    assert srv2.streams[n.stream].groups == srv1.streams[n.stream].groups;
  }

  /** A command that goes through the client leaves a gone entry gone. */
  lemma IssueKeepsGone<T>(c: ClientState, cmd: Command, reply: Reply<T>, key: string, group: string, id: nat)
    requires Gone(c.server, key, group, id)
    ensures Gone(Issue(c, cmd, (Apply(c.server, cmd), reply)).0.server, key, group, id)
  {
    GoneStaysGone(c.server, key, group, id, cmd);
  }

  /** No operation brings back a gone entry, and no `get` returns it. */
  lemma GoneForever(n: StreamNames, st: ConnState, op: Op, id: nat)
    requires Gone(st.client.server, n.stream, n.group, id)
    ensures Gone(Run(n, st, op).client.server, n.stream, n.group, id)
    ensures op.GetOp? && GetStep(n, st).1.Success? && GetStep(n, st).1.value.Some? ==> GetStep(n, st).1.value.value.id != id
  {
    match op
    case SetupOp =>
      IssueKeepsGone(st.client, Command.XGroupCreate(n.stream, n.group, 0, true), ServerXGroupCreate(st.client.server, n.stream, n.group).1, n.stream, n.group, id);
    case GetOp =>
      GetKeepsGone(n, st, id);
    case AckOp(i) =>
      IssueKeepsGone(st.client, Command.XAck(n.stream, n.group, i), ServerXAck(st.client.server, n.stream, n.group, i).1, n.stream, n.group, id);
    case RejectOp(i) =>
      RejectKeepsGone(n, st, i, id);
    case AddOp(b, h) =>
      AddKeepsGone(n, st, b, h, id);
  }

  lemma RejectKeepsGone(n: StreamNames, st: ConnState, i: nat, id: nat)
    requires Gone(st.client.server, n.stream, n.group, id)
    ensures Gone(RejectStep(n, st, i).0.client.server, n.stream, n.group, id)
  {
    var c1 := Issue(st.client, Command.XAck(n.stream, n.group, i), ServerXAck(st.client.server, n.stream, n.group, i)).0;
    IssueKeepsGone(st.client, Command.XAck(n.stream, n.group, i), ServerXAck(st.client.server, n.stream, n.group, i).1, n.stream, n.group, id);
    IssueKeepsGone(c1, Command.XDel(n.stream, i), ServerXDel(c1.server, n.stream, i).1, n.stream, n.group, id);
  }

  lemma AddKeepsGone(n: StreamNames, st: ConnState, b: string, h: map<string, string>, id: nat)
    requires Gone(st.client.server, n.stream, n.group, id)
    ensures Gone(AddStep(n, st, b, h).0.client.server, n.stream, n.group, id)
  {
    var st1 := AutoSetupStep(n, st).0;
    if st.autoSetup {
      IssueKeepsGone(st.client, Command.XGroupCreate(n.stream, n.group, 0, true), ServerXGroupCreate(st.client.server, n.stream, n.group).1, n.stream, n.group, id);
    }
    var fields := map["message" := JsonEncode(b, h)];
    IssueKeepsGone(st1.client, Command.XAdd(n.stream, fields), ServerXAdd(st1.client.server, n.stream, fields).1, n.stream, n.group, id);
  }

  lemma GetKeepsGone(n: StreamNames, st: ConnState, id: nat)
    requires Gone(st.client.server, n.stream, n.group, id)
    ensures Gone(GetStep(n, st).0.client.server, n.stream, n.group, id)
    ensures GetStep(n, st).1.Success? && GetStep(n, st).1.value.Some? ==> GetStep(n, st).1.value.value.id != id
  {
    if st.autoSetup {
      IssueKeepsGone(st.client, Command.XGroupCreate(n.stream, n.group, 0, true), ServerXGroupCreate(st.client.server, n.stream, n.group).1, n.stream, n.group, id);
      var (st1, setup) := SetupStep(n, st);
      if setup.Pass? {
        GetAfterSetup(n, st);
        ReadKeepsGone(n, st1, id);
      }
    } else {
      ReadKeepsGone(n, st, id);
    }
  }

  /** Once the auto-setup went through, `get` goes on as it would with auto-setup off. */
  lemma GetAfterSetup(n: StreamNames, st: ConnState)
    requires st.autoSetup && SetupStep(n, st).1.Pass?
    ensures GetStep(n, st) == GetStep(n, SetupStep(n, st).0)
  {
  }

  /** The reads of a `get` without auto-setup keep a gone entry gone and never return it. */
  lemma {:induction false} ReadKeepsGone(n: StreamNames, st: ConnState, id: nat)
    requires !st.autoSetup && Gone(st.client.server, n.stream, n.group, id)
    ensures Gone(GetStep(n, st).0.client.server, n.stream, n.group, id)
    ensures GetStep(n, st).1.Success? && GetStep(n, st).1.value.Some? ==> GetStep(n, st).1.value.value.id != id
    decreases if st.couldHavePendingMessages then 1 else 0
  {
    var cursor := CursorFor(st.couldHavePendingMessages);
    var cmd := ReadCommand(n, cursor);
    var answer := ServerXReadGroup(st.client.server, n.group, n.consumer, n.stream, cursor);
    var (c, call) := Issue(st.client, cmd, answer);
    IssueKeepsGone(st.client, cmd, answer.1, n.stream, n.group, id);
    GoneStaysGone(st.client.server, n.stream, n.group, id, cmd);
    if call.Returned? && call.value.Some? {
      if st.couldHavePendingMessages && NoneFor(call.value.value, n.stream) {
        ReadKeepsGone(n, st.(client := c, couldHavePendingMessages := false), id);
      }
    }
  }

  /** The group is ready for a round trip: no message waits for this consumer and none is undelivered. */
  predicate Quiet(srv: Server, n: StreamNames) {
    && n.stream in srv.streams
    && n.group in srv.streams[n.stream].groups
    && var s := srv.streams[n.stream];
       var g := s.groups[n.group];
       && FirstClaimOf(g.pending, n.consumer).None?
       && g.lastDelivered <= s.lastId
       && forall j :: 0 <= j < |s.entries| ==> s.entries[j].id <= g.lastDelivered
  }

  /** `add` appends one entry holding the JSON of the body and headers, with the next id. */
  lemma AddAppends(n: StreamNames, st: ConnState, body: string, headers: map<string, string>)
    ensures st.client.broken.Some? ==>
      AddStep(n, st, body, headers).1 == Fail(TransportException(st.client.broken.value)) &&
      AddStep(n, st, body, headers).0.client.server == st.client.server
    ensures st.client.broken.None? ==>
      var s := StreamAt(st.client.server, n.stream);
      var s' := AddStep(n, st, body, headers).0.client.server.streams[n.stream];
      && AddStep(n, st, body, headers).1.Pass?
      && s'.entries == s.entries + [Entry(s.lastId + 1, map["message" := JsonEncode(body, headers)])]
      && s'.lastId == s.lastId + 1
  {
    var srv1 := ServerAfterSetup(n, st);
    assert StreamAt(srv1, n.stream).entries == StreamAt(st.client.server, n.stream).entries;
    assert StreamAt(srv1, n.stream).lastId == StreamAt(st.client.server, n.stream).lastId;
  }

  /**
   * The round trip: when the group is quiet once `add`'s auto-setup has run -- in
   * particular on first use, when that setup creates the stream -- a message added and
   * then read back by `get` arrives with the id it was given and the body and headers it
   * was added with.
   */
  lemma AddThenGet(n: StreamNames, st: ConnState, body: string, headers: map<string, string>)
    requires st.client.broken.None?
    requires Quiet(ServerAfterSetup(n, st), n)
    ensures
      var id := ServerAfterSetup(n, st).streams[n.stream].lastId + 1;
      var st1 := AddStep(n, st, body, headers).0;
      GetStep(n, st1).1 == Success(Some(ReceivedMessage(id, Some(body), Some(headers))))
  {
    if st.autoSetup {
      var st0 := SetupStep(n, st).0;
      assert AddStep(n, st, body, headers) == AddStep(n, st0, body, headers);
      assert st0.client.server == ServerAfterSetup(n, st);
      QuietAddThenGet(n, st0, body, headers);
    } else {
      QuietAddThenGet(n, st, body, headers);
    }
  }

  /** On a first use, the auto-setup creates the stream and a group with nothing in it. */
  lemma FreshIsQuietAfterSetup(n: StreamNames, st: ConnState)
    requires st.autoSetup && n.stream !in st.client.server.streams
    ensures Quiet(ServerAfterSetup(n, st), n)
  {
  }

  /** The round trip on a group that is already quiet. */
  lemma QuietAddThenGet(n: StreamNames, st: ConnState, body: string, headers: map<string, string>)
    requires st.client.broken.None?
    requires Quiet(st.client.server, n)
    ensures
      var id := st.client.server.streams[n.stream].lastId + 1;
      var st1 := AddStep(n, st, body, headers).0;
      GetStep(n, st1).1 == Success(Some(ReceivedMessage(id, Some(body), Some(headers))))
  {
    var s := st.client.server.streams[n.stream];
    var id := s.lastId + 1;
    var fields := map["message" := JsonEncode(body, headers)];
    AddAppends(n, st, body, headers);
    var st1 := AddStep(n, st, body, headers).0;
    assert !st1.autoSetup;
    QuietAfterAdd(n, st.client.server, st1.client.server, id, fields);
    var srv1 := st1.client.server;
    var s1 := srv1.streams[n.stream];
    if st1.couldHavePendingMessages {
      var c := Issue(st1.client, ReadCommand(n, OwnPending), ServerXReadGroup(srv1, n.group, n.consumer, n.stream, OwnPending)).0;
      assert c.server == srv1;
      ReadNewAfterQuiet(n, srv1, id, fields);
      GetStepFinal(n, st1.(client := c, couldHavePendingMessages := false), id, fields);
    } else {
      ReadNewAfterQuiet(n, srv1, id, fields);
      GetStepFinal(n, st1, id, fields);
    }
  }

  /** After `add` on a quiet group, the only undelivered entry is the new one, at the end. */
  predicate OneNew(srv: Server, n: StreamNames, id: nat, fields: Fields) {
    && n.stream in srv.streams
    && n.group in srv.streams[n.stream].groups
    && var s := srv.streams[n.stream];
       var g := s.groups[n.group];
       && FirstClaimOf(g.pending, n.consumer).None?
       && |s.entries| >= 1 && s.entries[|s.entries| - 1] == Entry(id, fields)
       && g.lastDelivered < id
       && forall j :: 0 <= j < |s.entries| - 1 ==> s.entries[j].id <= g.lastDelivered
  }

  lemma QuietAfterAdd(n: StreamNames, srv: Server, srv1: Server, id: nat, fields: Fields)
    requires Quiet(srv, n)
    requires id == srv.streams[n.stream].lastId + 1
    requires n.stream in srv1.streams
    requires srv1.streams[n.stream].entries == srv.streams[n.stream].entries + [Entry(id, fields)]
    requires srv1.streams[n.stream].groups == srv.streams[n.stream].groups
    ensures OneNew(srv1, n, id, fields)
  {
    var es := srv.streams[n.stream].entries;
    assert forall j :: 0 <= j < |es| ==> srv1.streams[n.stream].entries[j] == es[j];
  }

  lemma ReadNewAfterQuiet(n: StreamNames, srv: Server, id: nat, fields: Fields)
    requires OneNew(srv, n, id, fields)
    ensures ServerXReadGroup(srv, n.group, n.consumer, n.stream, OwnPending).1 == Value(map[n.stream := []])
    ensures ServerXReadGroup(srv, n.group, n.consumer, n.stream, NewEntries).1 == Value(map[n.stream := [Entry(id, fields)]])
  {
    var s := srv.streams[n.stream];
    var i := FirstAfter(s.entries, s.groups[n.group].lastDelivered);
    assert i == Some(|s.entries| - 1);
  }

  lemma GetStepFinal(n: StreamNames, st: ConnState, id: nat, fields: Fields)
    requires st.client.broken.None? && !st.autoSetup
    requires ServerXReadGroup(st.client.server, n.group, n.consumer, n.stream, CursorFor(st.couldHavePendingMessages)).1 == Value(map[n.stream := [Entry(id, fields)]])
    ensures GetStep(n, st).1 == Success(Some(Decode(Entry(id, fields))))
  {
  }

  /** `fromDsn` on a URL whose path is /stream/group/consumer uses those three names. */
  lemma DsnPathNames(dsn: string, redisOptions: OrderedMaps.OrderedMap<string>, parseUrl: string -> Option<Url>,
                     parseStr: string -> OrderedMaps.OrderedMap<string>, stream: string, group: string, consumer: string)
    requires parseUrl(dsn).Some? && parseUrl(dsn).value.path == Some("/" + stream + "/" + group + "/" + consumer)
    requires '/' !in stream && '/' !in group && '/' !in consumer
    ensures ParseDsn(dsn, redisOptions, parseUrl, parseStr).Success?
    ensures NamesOf(ParseDsn(dsn, redisOptions, parseUrl, parseStr).value.configuration) == StreamNames(stream, group, consumer)
  {
    var parts := ["", stream, group, consumer];
    assert Php.Implode("/", parts) == "/" + stream + "/" + group + "/" + consumer by {
      assert parts[1..] == [stream, group, consumer] && parts[1..][1..] == [group, consumer];
      assert [group, consumer][1..] == [consumer];
      assert Php.Implode("/", [group, consumer]) == group + "/" + consumer;
      assert Php.Implode("/", [stream, group, consumer]) == stream + "/" + (group + "/" + consumer);
      assert Php.Implode("/", parts) == "" + "/" + (stream + "/" + (group + "/" + consumer));
    }
    Php.ExplodeImplode('/', parts);
  }

  /** Without a path, or with the path "/", the names fall back to the defaults -- except that "/" names the stream "". */
  lemma DsnDefaultNames(dsn: string, redisOptions: OrderedMaps.OrderedMap<string>, parseUrl: string -> Option<Url>,
                        parseStr: string -> OrderedMaps.OrderedMap<string>)
    requires parseUrl(dsn).Some?
    ensures parseUrl(dsn).value.path.None? ==>
      NamesOf(ParseDsn(dsn, redisOptions, parseUrl, parseStr).value.configuration) == StreamNames(DEFAULT_STREAM, DEFAULT_GROUP, DEFAULT_CONSUMER)
    ensures parseUrl(dsn).value.path == Some("/") ==>
      NamesOf(ParseDsn(dsn, redisOptions, parseUrl, parseStr).value.configuration) == StreamNames("", DEFAULT_GROUP, DEFAULT_CONSUMER)
  {
    assert Php.Explode('/', "") == [""];
    assert Php.Explode('/', "/") == ["", ""] by {
      assert "/"[1..] == "";
    }
  }

  /**
   * `fromDsn` takes the options from the query string when there is one (the given ones
   * are then discarded), reads `auto_setup` from them as a boolean, and passes the others on.
   */
  lemma DsnOptions(dsn: string, redisOptions: OrderedMaps.OrderedMap<string>, parseUrl: string -> Option<Url>,
                   parseStr: string -> OrderedMaps.OrderedMap<string>)
    requires parseUrl(dsn).Some?
    ensures
      var url := parseUrl(dsn).value;
      var options := if url.query.Some? then parseStr(url.query.value) else redisOptions;
      var s := ParseDsn(dsn, redisOptions, parseUrl, parseStr).value;
      && s.configuration.autoSetup == (if OrderedMaps.HasKey(options, "auto_setup")
                                       then Some(Php.FilterBoolean(OrderedMaps.Get(options, "auto_setup").value)) else None)
      && (forall i :: 0 <= i < |options| && options[i].0 != "auto_setup" ==> options[i] in s.redisOptions)
      && (forall i :: 0 <= i < |s.redisOptions| ==> s.redisOptions[i] in options)
      && s.credentials == Credentials(Some(url.host.GetOr(DEFAULT_HOST)), Some(url.port.GetOr(DEFAULT_PORT)))
  {
  }

  /** A DSN without `auto_setup` leaves auto-setup on. */
  lemma DsnAutoSetupDefault(dsn: string, redisOptions: OrderedMaps.OrderedMap<string>, parseUrl: string -> Option<Url>,
                            parseStr: string -> OrderedMaps.OrderedMap<string>)
    requires parseUrl(dsn).Some? && parseUrl(dsn).value.query.None?
    requires !OrderedMaps.HasKey(redisOptions, "auto_setup")
    ensures ParseDsn(dsn, redisOptions, parseUrl, parseStr).value.configuration.autoSetup.GetOr(DEFAULT_AUTO_SETUP)
  {
  }
}
