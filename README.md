# Symfony core pieces, modelled and proved in Dafny

This project models four pieces of the Symfony framework and proves properties of them.

- **Redis stream connection** (Messenger's Redis transport). It covers:
  - how a DSN becomes a stream, group and consumer name, host and port, and options;
  - the connection's defaults: stream `messages`, group `symfony`, consumer `consumer`, auto-setup on, host `127.0.0.1`, port 6379;
  - its five operations on a php-redis client: `setup` (XGROUP CREATE ... MKSTREAM), `get` (XREADGROUP with cursor `0` while this consumer may still have pending messages, else `>`), `ack` (XACK), `reject` (XACK and XDEL) and `add` (XADD of the JSON envelope).
  
  The client and server model is in `RedisStreams.dfy`. It keeps the streams, the consumer groups with their delivery cursor and pending lists, the client's sticky last error, and a client that throws. `RedisConnection.dfy` gives each operation two forms:
  - a step function on the observable state (client state, `autoSetup`, `couldHavePendingMessages`);
  - a method of the `Connection` class that performs the operation in place and is proved equal to its step function.
  
  `RedisConnectionProperties.dfy` proves what the operations guarantee.
- **Send middleware** (Messenger's `SendMessageMiddleware`). An outbound envelope goes to the senders resolved for it, or on redelivery to the one sender its last redelivery stamp names. Each send adds a SentStamp. The pre-send event fires at most once. An envelope that was sent is not passed to the next middleware. Inbound (received) envelopes are only passed on. Envelopes and stamps are in `Envelopes.dfy`.
- **SMTP stream helpers** (Mailer's `AbstractStream`):
  - `write`, the loop that pushes a string through a stream that may accept only part of it per call;
  - `terminate`;
  - the streaming `replace`, a find-and-replace over chunks that finds occurrences split across chunk boundaries while holding back at most `strlen($from)` characters.
  
  The text functions (`strpos`, `str_replace`, `explode`) are in `SmtpText.dfy`.
- **Form validator** (Form's `DelegatingValidator`). For a root form it builds an insertion-ordered mapping from path patterns to forms:
  - each leaf's form path (`children[a].data.b`) and data path (`data.a.b`);
  - each `error_mapping` entry, as a name-path placeholder;
  - a table of every descendant by its dot-joined name path.
  
  A leaf is a child whose own `hasChildren()` is false. The children walked are the virtual-form iterator's, in which a virtual child is replaced by its own children. So a child whose only children are empty virtual forms is descended into, yields nothing, and is never mapped.

  It then resolves the placeholders, or throws a FormException for a missing one. Finally it attaches one FormError per violation: to the first form whose pattern matches the violation's property path, or else to the root. The builders are methods proved equal to write-list functions. `DelegatingValidatorProperties.dfy` proves what those write lists contain.

Shared modules:
- `Php.dfy`: the PHP primitives with PHP's semantics: `explode`, `implode`, truthiness, array-key normalisation and `filter_var(..., FILTER_VALIDATE_BOOLEAN)`.
- `OrderedMaps.dfy`: PHP arrays, where overwriting a key keeps its position and a new key goes last.
- `Wrappers.dfy`: `Option`, `Result` and `Outcome`.

## Model

| member | source | states |
|---|---|---|
| Php.Explode | src/Symfony/Component/Messenger/Transport/RedisExt/Connection.php:66 | `explode('/', ...)` yields at least one piece, and no piece contains the separator |
| Php.ExplodeLimit2 | src/Symfony/Component/Form/Validator/DelegatingValidator.php:81 | `explode('.', $path, 2)` yields one or two pieces; the first piece has no dot; there are two pieces exactly when the path has a dot; joining them with the dot gives the path back |
| Php.ImplodeExplode | src/Symfony/Component/Messenger/Transport/RedisExt/Connection.php:66 | joining the pieces of `explode` with the separator gives back the original string |
| Php.ExplodeImplode | src/Symfony/Component/Messenger/Transport/RedisExt/Connection.php:66-70 | `explode` returns exactly the parts that were joined, provided no part contains the separator |
| Php.ExplodeLimit2Split | src/Symfony/Component/Form/Validator/DelegatingValidator.php:81-88 | a dot-free head, a dot and a rest split into exactly that head and that rest |
| Php.NormalizeKey | src/Symfony/Component/Messenger/Middleware/SendMessageMiddleware.php:93-95 | an alias used as an array key stays a string unless it is a canonical decimal integer; a string key keeps its text |
| OrderedMaps.IndexOf | src/Symfony/Component/Form/Validator/DelegatingValidator.php:96-97 | finds the first position holding the key, or reports that no entry holds it |
| OrderedMaps.Remove | src/Symfony/Component/Messenger/Transport/RedisExt/Connection.php:84 | `unset` drops the key and keeps every other entry |
| OrderedMaps.PutGet | src/Symfony/Component/Form/Validator/DelegatingValidator.php:96-97 | after `$m[$k] = $v`, key `k` reads back `v` and every other key reads what it read before |
| OrderedMaps.PutKeys | src/Symfony/Component/Form/Validator/DelegatingValidator.php:96-97 | overwriting a key keeps the key order; a new key is appended |
| OrderedMaps.PutUnique | src/Symfony/Component/Form/Validator/DelegatingValidator.php:96-97 | a write never creates a second entry for a key |
| OrderedMaps.PutAllAppend | src/Symfony/Component/Form/Validator/DelegatingValidator.php:92-98 | performing one series of writes and then another is performing their concatenation |
| OrderedMaps.PutAllGet | src/Symfony/Component/Form/Validator/DelegatingValidator.php:101-104 | after a series of writes, a key reads its last written value, or its old value when it was never written |
| OrderedMaps.PutAllKeys | src/Symfony/Component/Form/Validator/DelegatingValidator.php:38-40 | after a series of writes the old keys stay in front in their order, every key is old or written, and keys stay unique |
| Envelopes.OfKind | src/Symfony/Component/Messenger/Middleware/SendMessageMiddleware.php:57 | `all($class)` returns exactly the stamps of that class, and only those |
| Envelopes.Envelope.Last | src/Symfony/Component/Messenger/Middleware/SendMessageMiddleware.php:62 | `last($class)` is null exactly when there is no stamp of that class; otherwise it is a stamp of that class carried by the envelope |
| Envelopes.OfKindAppend | src/Symfony/Component/Messenger/Middleware/SendMessageMiddleware.php:75 | selecting stamps by class distributes over appending stamps |
| Envelopes.AllWith | src/Symfony/Component/Messenger/Middleware/SendMessageMiddleware.php:75 | `with($stamp)` adds the stamp to the end of its class's list, changes no other class's list, and keeps the message |
| Envelopes.LastWith | src/Symfony/Component/Messenger/Middleware/SendMessageMiddleware.php:75 | after `with($stamp)`, `last` of that class is the new stamp and `last` of every other class is unchanged |
| Envelopes.WithAllKeepsHistory | src/Symfony/Component/Messenger/Middleware/SendMessageMiddleware.php:66-76 | a series of `with` calls keeps the old stamps as a prefix, in order; no stamp is lost |
| SendMessage.SendCallsAt | src/Symfony/Component/Messenger/Middleware/SendMessageMiddleware.php:66-76 | senders are called in route order; the i-th gets the envelope the previous sender returned plus exactly one SentStamp naming its class and alias, and its return value feeds the next one |
| SendMessage.SendCallsLength | src/Symfony/Component/Messenger/Middleware/SendMessageMiddleware.php:66-76 | one send call per route, and every call of the series is a send |
| SendMessage.SendCallsTargets | src/Symfony/Component/Messenger/Middleware/SendMessageMiddleware.php:66-75 | the j-th send goes to the j-th route's sender, with that route's key |
| SendMessage.CallsShape | src/Symfony/Component/Messenger/Middleware/SendMessageMiddleware.php:64-81 | in a lookup, an optional event, sends, and the next middleware only when there were no sends, the next middleware is called exactly when no sender is, and the event fires at most once |
| SendMessage.SendMessageMiddleware.constructor | src/Symfony/Component/Messenger/Middleware/SendMessageMiddleware.php:38-43 | stores the locator and the optional dispatcher |
| SendMessage.SendMessageMiddleware.OutboundShape | src/Symfony/Component/Messenger/Middleware/SendMessageMiddleware.php:62-99 | for an outbound envelope: the next middleware runs exactly when no sender does; the event fires at most once; on redelivery, neither the locator nor the event is asked and only the sender named by the last redelivery stamp is used |
| SendMessage.SendMessageMiddleware.SendToAll | src/Symfony/Component/Messenger/Middleware/SendMessageMiddleware.php:65-76 | the event is dispatched once before the first send (when there is a dispatcher and no redelivery), and each sender receives the previous result with its SentStamp; with no senders nothing happens |
| SendMessage.SendMessageMiddleware.Handle | src/Symfony/Component/Messenger/Middleware/SendMessageMiddleware.php:48-85 | inbound: only the next middleware is called. Outbound: one senders lookup, the event when it fires, the sends, then the next middleware exactly when there were no senders. The result is the last sender's return value or the next middleware's |
| RedisStreams.JsonRoundTrip | src/Symfony/Component/Messenger/Transport/RedisExt/Connection.php:174-176 | decoding the JSON that `add` writes gives back the body and the headers |
| RedisStreams.RedisClient.XGroupCreate | src/Symfony/Component/Messenger/Transport/RedisExt/Connection.php:188 | the client logs XGROUP CREATE and returns the server's answer, or throws when broken |
| RedisStreams.RedisClient.XReadGroup | src/Symfony/Component/Messenger/Transport/RedisExt/Connection.php:104-109 | the client logs XREADGROUP COUNT 1 and returns the server's answer, or throws when broken |
| RedisStreams.RedisClient.XAck | src/Symfony/Component/Messenger/Transport/RedisExt/Connection.php:143 | the client logs XACK and returns the number acknowledged, or throws when broken |
| RedisStreams.RedisClient.XDel | src/Symfony/Component/Messenger/Transport/RedisExt/Connection.php:157 | the client logs XDEL and returns the number deleted, or throws when broken |
| RedisStreams.RedisClient.XAdd | src/Symfony/Component/Messenger/Transport/RedisExt/Connection.php:174-176 | the client logs XADD and returns the new id, or throws when broken |
| RedisStreams.GoneStaysGone | src/Symfony/Component/Messenger/Transport/RedisExt/Connection.php:152-164 | an entry that was deleted and is pending for nobody in the group is brought back by no command and returned by no read |
| RedisStreams.NewReadsDeliverOnce | src/Symfony/Component/Messenger/Transport/RedisExt/Connection.php:96-109 | two `>` reads by two consumers of one group never return the same entry; the second read only returns later ids |
| RedisConnection.SetupStep | src/Symfony/Component/Messenger/Transport/RedisExt/Connection.php:185-194 | `setup` issues one XGROUP CREATE; it fails exactly when the client throws, then with the RedisException's text and the flags unchanged; otherwise `autoSetup` is cleared, even when the server answered with an error |
| RedisConnection.GetStep | src/Symfony/Component/Messenger/Transport/RedisExt/Connection.php:90-137 | `get` never raises the pending-messages flag |
| RedisConnection.Decode | src/Symfony/Component/Messenger/Transport/RedisExt/Connection.php:126-133 | the message returned carries the entry's id |
| RedisConnection.ParseDsn | src/Symfony/Component/Messenger/Transport/RedisExt/Connection.php:60-88 | fails exactly when `parse_url` fails, with the "The given Redis DSN ... is invalid." message; otherwise host and port are always set and `auto_setup` is never left among the options |
| RedisConnection.Connection.constructor | src/Symfony/Component/Messenger/Transport/RedisExt/Connection.php:31-58 | host and port default to 127.0.0.1:6379; the serializer is the `serializer` option or PHP's own; stream, group and consumer fall back to `messages`, `symfony` and `consumer`; auto-setup defaults to on; the pending-messages flag starts raised |
| RedisConnection.Connection.FromDsn | src/Symfony/Component/Messenger/Transport/RedisExt/Connection.php:60-88 | fails with the InvalidArgumentException for an unparsable DSN; otherwise it makes a fresh connection on the given client, with the names, auto-setup, host and port read from the DSN, and the serializer named by the options it passes on (a query string's `serializer`, else the given options'), or php's own |
| RedisConnection.Connection.Setup | src/Symfony/Component/Messenger/Transport/RedisExt/Connection.php:185-194 | performs `SetupStep` on the connection and its client in place |
| RedisConnection.Connection.Get | src/Symfony/Component/Messenger/Transport/RedisExt/Connection.php:90-137 | performs `GetStep` in place, including the one recursive call after an empty pending read |
| RedisConnection.Connection.Ack | src/Symfony/Component/Messenger/Transport/RedisExt/Connection.php:139-150 | performs `AckStep` in place |
| RedisConnection.Connection.Reject | src/Symfony/Component/Messenger/Transport/RedisExt/Connection.php:152-164 | performs `RejectStep` in place |
| RedisConnection.Connection.Add | src/Symfony/Component/Messenger/Transport/RedisExt/Connection.php:166-183 | performs `AddStep` in place |
| RedisConnectionProperties.GetStepNewOnly | src/Symfony/Component/Messenger/Transport/RedisExt/Connection.php:96-109 | with no pending messages and no auto-setup, `get` issues a single `>` read and leaves both flags down |
| RedisConnectionProperties.GetCommands | src/Symfony/Component/Messenger/Transport/RedisExt/Connection.php:90-124 | `get` issues the setup command when auto-setup is on. If setup threw, it stops there. Otherwise it issues one read, with `0` while messages may be pending and `>` otherwise. A second `>` read follows exactly when the pending read found nothing, which is exactly when the flag is cleared, so `get` recurses at most once |
| RedisConnectionProperties.GetOutcome | src/Symfony/Component/Messenger/Transport/RedisExt/Connection.php:90-137 | what `get` returns. On a client that throws, it is a TransportException with the RedisException's text, from the setup when auto-setup is on and from the read otherwise. Otherwise it follows the server's answer to the read after the setup. An error reply gives a TransportException with that reply's text. A read with no entry for the stream gives null. Any other read gives the first entry's id and decoded body and headers. An empty pending read gives way to the answer of the `>` read that follows it |
| RedisConnectionProperties.GetWithoutGroup | src/Symfony/Component/Messenger/Transport/RedisExt/Connection.php:106-118 | with auto-setup off, `get` on a stream or group that does not exist fails with Redis's NOGROUP error text |
| RedisConnectionProperties.AutoSetupCleared | src/Symfony/Component/Messenger/Transport/RedisExt/Connection.php:90-194 | `get`, `add` and `setup` clear `autoSetup` unless the client threw; `ack` and `reject` leave it as it was |
| RedisConnectionProperties.PendingFlagMonotone | src/Symfony/Component/Messenger/Transport/RedisExt/Connection.php:119-120 | no operation raises `couldHavePendingMessages`, and only `get` clears it |
| RedisConnectionProperties.PendingFlagStaysDown | src/Symfony/Component/Messenger/Transport/RedisExt/Connection.php:119-120 | once the flag is down it stays down over any series of operations |
| RedisConnectionProperties.AckOutcome | src/Symfony/Component/Messenger/Transport/RedisExt/Connection.php:139-150 | `ack` issues one XACK and succeeds exactly when the entry was pending for the group. Its failure text is the RedisException's message, else the client's last error, else "Could not acknowledge redis message ..." |
| RedisConnectionProperties.RejectOutcome | src/Symfony/Component/Messenger/Transport/RedisExt/Connection.php:152-164 | `reject` issues XACK and, unless that threw, XDEL. It succeeds exactly when the entry was both pending and present. Its failure text is chosen as for `ack`, with the "Could not delete message ..." default |
| RedisConnectionProperties.RejectMakesGone | src/Symfony/Component/Messenger/Transport/RedisExt/Connection.php:152-164 | after a `reject` that reached the server, the entry is gone for the group, whatever the outcome |
| RedisConnectionProperties.GoneForever | src/Symfony/Component/Messenger/Transport/RedisExt/Connection.php:90-194 | no operation brings a rejected entry back, and no `get` returns it |
| RedisConnectionProperties.RejectKeepsGone | src/Symfony/Component/Messenger/Transport/RedisExt/Connection.php:152-164 | a `reject` of any id keeps a gone entry gone |
| RedisConnectionProperties.AddKeepsGone | src/Symfony/Component/Messenger/Transport/RedisExt/Connection.php:166-183 | an `add` keeps a gone entry gone |
| RedisConnectionProperties.GetKeepsGone | src/Symfony/Component/Messenger/Transport/RedisExt/Connection.php:90-137 | a `get`, including its second read, keeps a gone entry gone and never returns it |
| RedisConnectionProperties.AddAppends | src/Symfony/Component/Messenger/Transport/RedisExt/Connection.php:166-183 | with a throwing client, `add` fails with the exception's text and the server is unchanged. Otherwise it succeeds and appends exactly one entry with the next id, holding `{"message": json}` |
| RedisConnectionProperties.AddThenGet | src/Symfony/Component/Messenger/Transport/RedisExt/Connection.php:90-183 | the round trip: when the group has nothing pending or undelivered once `add`'s auto-setup has run, including on first use when that setup creates the stream, a message that is added and then fetched by `get` arrives with its new id and the body and headers it was added with |
| RedisConnectionProperties.FreshIsQuietAfterSetup | src/Symfony/Component/Messenger/Transport/RedisExt/Connection.php:185-194 | on a server without the stream, the auto-setup creates it with an empty group, so nothing is pending or undelivered |
| RedisConnectionProperties.DsnPathNames | src/Symfony/Component/Messenger/Transport/RedisExt/Connection.php:66-70 | a DSN path `/stream/group/consumer` names exactly that stream, group and consumer |
| RedisConnectionProperties.DsnDefaultNames | src/Symfony/Component/Messenger/Transport/RedisExt/Connection.php:54-70 | without a path the default names are used; the path `/` names the stream "" and keeps the default group and consumer |
| RedisConnectionProperties.DsnOptions | src/Symfony/Component/Messenger/Transport/RedisExt/Connection.php:72-85 | a query string replaces the given options; `auto_setup` is read from them as a boolean; every other option is passed on and nothing else is |
| RedisConnectionProperties.DsnAutoSetupDefault | src/Symfony/Component/Messenger/Transport/RedisExt/Connection.php:81-85 | a DSN without `auto_setup` leaves auto-setup on |
| SmtpText.FirstOccurrence | src/Symfony/Component/Mailer/Transport/Smtp/Stream/AbstractStream.php:98 | `strpos` finds the first position where `from` occurs, or reports that it occurs nowhere |
| SmtpText.Explode | src/Symfony/Component/Mailer/Transport/Smtp/Stream/AbstractStream.php:98-100 | `explode($from, ...)` yields one piece exactly when `from` does not occur, and the last piece never contains `from` |
| SmtpText.ReplaceSkip | src/Symfony/Component/Mailer/Transport/Smtp/Stream/AbstractStream.php:107-110 | a replacement may start at any position before which `from` does not begin |
| SmtpText.ReplaceNone | src/Symfony/Component/Mailer/Transport/Smtp/Stream/AbstractStream.php:103-115 | text without `from` is left as it is |
| SmtpText.ExplodeReplace | src/Symfony/Component/Mailer/Transport/Smtp/Stream/AbstractStream.php:98-102 | yielding `implode($to, pieces-but-last) . $to` and carrying the last piece replaces the text correctly, whatever follows it |
| SmtpText.HoldBackReplace | src/Symfony/Component/Mailer/Transport/Smtp/Stream/AbstractStream.php:107-110 | carry text without `from` may yield all but its last `strlen($from)` characters, because no occurrence can start in the part yielded |
| SmtpText.ReplaceIsImplodeExplode | src/Symfony/Component/Mailer/Transport/Smtp/Stream/AbstractStream.php:99-102 | `str_replace` equals `implode($to, explode($from, ...))` |
| SmtpText.ReplaceIdentity | src/Symfony/Component/Mailer/Transport/Smtp/Stream/AbstractStream.php:82-116 | replacing `from` by itself changes nothing |
| SmtpText.ExplodeRoundTrip | src/Symfony/Component/Mailer/Transport/Smtp/Stream/AbstractStream.php:99 | joining the pieces of `explode($from, ...)` with `from` gives the text back |
| SmtpStream.ChainedProgress | src/Symfony/Component/Mailer/Transport/Smtp/Stream/AbstractStream.php:37-44 | the write loop's calls start at 0 and at strictly increasing offsets below the total, so there are no more calls than bytes written |
| SmtpStream.AbstractStream.constructor | src/Symfony/Component/Mailer/Transport/Smtp/Stream/AbstractStream.php:29-31 | records the stream and its input and output ends |
| SmtpStream.AbstractStream.Write | src/Symfony/Component/Mailer/Transport/Smtp/Stream/AbstractStream.php:33-45 | writing to a closed stream raises "Unable to write bytes on the wire." unless there is nothing to write. Otherwise the write succeeds exactly when each call wrote a non-empty part of the unwritten suffix until every byte went out. A call that fails or writes nothing raises the same exception at the offset it was handed |
| SmtpStream.AbstractStream.Terminate | src/Symfony/Component/Mailer/Transport/Smtp/Stream/AbstractStream.php:60-63 | the stream and both of its ends are forgotten |
| SmtpStream.AbstractStream.Replace | src/Symfony/Component/Mailer/Transport/Smtp/Stream/AbstractStream.php:82-116 | the pieces yielded concatenate to the concatenated chunks with every `from` replaced by `to`, including occurrences split across chunks. An empty `from` yields the chunks unchanged. No empty piece is yielded unless `to` is empty |
| SmtpStream.AbstractStream.Feed | src/Symfony/Component/Mailer/Transport/Smtp/Stream/AbstractStream.php:93-111 | one turn of the loop keeps the replacement invariant. The carry never contains `from` and is at most `strlen($from)` long. An empty chunk with an empty carry yields nothing |
| SmtpStream.AbstractStream.SplitAtOccurrences | src/Symfony/Component/Mailer/Transport/Smtp/Stream/AbstractStream.php:98-105 | text up to the last occurrence is yielded replaced, and the piece kept holds no occurrence; text without `from` is kept whole |
| SmtpStream.AbstractStream.HoldBack | src/Symfony/Component/Mailer/Transport/Smtp/Stream/AbstractStream.php:107-110 | a carry longer than `from` yields its front and keeps its last `strlen($from)` characters; a shorter carry is kept as it is |
| FormValidation.MatchesIff | src/Symfony/Component/Form/Validator/DelegatingValidator.php:96-97 | a pattern `/^P(?!\w)/` matches exactly the path `P` itself and the paths that continue `P` with a non-word character |
| FormValidation.ChildFormPathShape | src/Symfony/Component/Form/Validator/DelegatingValidator.php:81-88 | property path `a` gives form path `children[a]`; property path `a.b` gives `children[a].data.b` |
| FormValidation.ResolvedSucceeds | src/Symfony/Component/Form/Validator/DelegatingValidator.php:157-168 | resolving succeeds exactly when every placeholder names a registered form |
| FormValidation.ResolvedShape | src/Symfony/Component/Form/Validator/DelegatingValidator.php:159-166 | a successful resolution keeps every key in its position and every form target, and replaces each placeholder by the form registered under its name path |
| FormValidation.ResolvedFailure | src/Symfony/Component/Form/Validator/DelegatingValidator.php:159-163 | a failed resolution throws for the first placeholder whose name path is not registered, with the message "The child form with path ... does not exist" |
| FormValidation.ResolvedChildren | src/Symfony/Component/Form/Validator/DelegatingValidator.php:159-166 | after resolving, every target is a form |
| FormValidation.FirstMatch | src/Symfony/Component/Form/Validator/DelegatingValidator.php:53-58 | finds the first entry whose pattern matches, or reports that none does |
| FormValidation.FirstMatchIs | src/Symfony/Component/Form/Validator/DelegatingValidator.php:53-58 | the first matching entry is the one before which no entry matches |
| FormValidation.ResolvedFailsAt | src/Symfony/Component/Form/Validator/DelegatingValidator.php:159-163 | a missing name path after placeholders that all resolve makes the resolution throw for that name path |
| FormValidation.ResolvedAll | src/Symfony/Component/Form/Validator/DelegatingValidator.php:159-166 | when every target resolves, the resolution in place is exactly the resolved mapping |
| FormValidation.DelegatingValidator.constructor | src/Symfony/Component/Form/Validator/DelegatingValidator.php:32-64 | stores the validator the component delegates to |
| FormValidation.DelegatingValidator.Validate | src/Symfony/Component/Form/Validator/DelegatingValidator.php:32-64 | a non-root form gets nothing. For a root, an unresolvable error mapping throws the FormException before any error is added. Otherwise each violation becomes exactly one error, in order, on the form of the first matching pattern or else on the root |
| FormValidation.DelegatingValidator.AttachErrors | src/Symfony/Component/Form/Validator/DelegatingValidator.php:46-61 | one error per violation, carrying its template and parameters, on the first mapped form whose pattern matches the violation's path, or else on the root |
| FormValidation.DelegatingValidator.BuildFormPathMapping | src/Symfony/Component/Form/Validator/DelegatingValidator.php:66-105 | the mapping after the call is the one passed in with the form-path pass's writes performed in order |
| FormValidation.DelegatingValidator.MapChildForm | src/Symfony/Component/Form/Validator/DelegatingValidator.php:80-98 | one child: a child with children is descended into by form path and then by data path; a leaf is written under its form path and then its data path |
| FormValidation.DelegatingValidator.MapErrorPaths | src/Symfony/Component/Form/Validator/DelegatingValidator.php:101-104 | each `error_mapping` entry is written as the data prefix plus its data path, mapping to the name-path placeholder, in order |
| FormValidation.DelegatingValidator.BuildDataPathMapping | src/Symfony/Component/Form/Validator/DelegatingValidator.php:107-133 | the mapping after the call is the one passed in with the data-path pass's writes performed in order |
| FormValidation.DelegatingValidator.MapChildData | src/Symfony/Component/Form/Validator/DelegatingValidator.php:117-126 | one child: a child with children is descended into below `dataPath.propertyPath`; a leaf is written there |
| FormValidation.DelegatingValidator.BuildNamePathMapping | src/Symfony/Component/Form/Validator/DelegatingValidator.php:135-155 | the table after the call is the one passed in with every descendant written under its name path, in order |
| FormValidation.DelegatingValidator.MapChildName | src/Symfony/Component/Form/Validator/DelegatingValidator.php:145-152 | one child: the child is recorded under its name path, then its own descendants below it |
| FormValidation.DelegatingValidator.ResolveMappingPlaceholders | src/Symfony/Component/Form/Validator/DelegatingValidator.php:157-168 | the in-place loop computes exactly the resolution that `ResolvedSucceeds`, `ResolvedShape` and `ResolvedFailure` characterise |
| FormValidationProperties.FormWritesBelow | src/Symfony/Component/Form/Validator/DelegatingValidator.php:66-105 | every key the form-path pass writes starts with the dotted form path, and only leaves are mapped as forms |
| FormValidationProperties.OneChildFormWritesBelow | src/Symfony/Component/Form/Validator/DelegatingValidator.php:80-98 | one child's writes in the form-path pass are all keyed below the parent's dotted form path |
| FormValidationProperties.ChildPathsBelow | src/Symfony/Component/Form/Validator/DelegatingValidator.php:84-90 | a child's form path and data path both continue the parent's dotted form path |
| FormValidationProperties.DataWritesBelow | src/Symfony/Component/Form/Validator/DelegatingValidator.php:107-133 | every key the data-path pass writes starts with `dataPath.`, and only leaves are mapped as forms |
| FormValidationProperties.OneChildDataWritesBelow | src/Symfony/Component/Form/Validator/DelegatingValidator.php:117-126 | one child's writes in the data-path pass are all keyed below `dataPath.` |
| FormValidationProperties.LeafFormWrites | src/Symfony/Component/Form/Validator/DelegatingValidator.php:80-97 | a leaf with property path `a` is mapped under `children[a]` and `data.a`; one with `a.b` is mapped under `children[a].data.b` and `data.a.b` |
| FormValidationProperties.LeafDataWrites | src/Symfony/Component/Form/Validator/DelegatingValidator.php:117-125 | in the data-path pass a leaf is mapped under `dataPath.propertyPath`, to itself |
| FormValidationProperties.ErrorMappingEntries | src/Symfony/Component/Form/Validator/DelegatingValidator.php:101-104 | entry j of `error_mapping` is written after all the children's writes, under the data prefix plus its data path, as the placeholder for the dotted name path plus its mapped name, in both passes |
| FormValidationProperties.NameWritesRecordChildren | src/Symfony/Component/Form/Validator/DelegatingValidator.php:144-152 | every child is recorded under the dotted name path plus its name, and everything recorded for its descendants is recorded for the parent too |
| FormValidationProperties.RootNamePaths | src/Symfony/Component/Form/Validator/DelegatingValidator.php:135-148 | below the root, whose name path is empty, a child is recorded under its bare name |

## Left out

- The php-redis version check (`LogicException` below 4.3.0) and the `new \Redis()` fallback: the client is always given to the constructor.
- `connect` and `setOption`: the constructor only records the host, port and serializer it would pass. Connection errors are represented by a client that throws on every command.
- `parse_url` and `parse_str` are function parameters of the DSN parser and are not modelled themselves. Array values produced by `parse_str` are not represented; options are strings.
- Redis stream ids are natural numbers allocated in increasing order, not `ms-seq` strings. The Redis server is a deterministic model of the five commands the connection uses.
- JSON is represented by the document it encodes, so `json_encode`/`json_decode` round-trip by construction. Entries that do not decode give a null body and null headers.
- RedisConnection.GetStep: its own contract states only the flag and client facts. What `get` issues is stated by `GetCommands`, and what it returns by `GetOutcome`, `GetWithoutGroup`, `GetKeepsGone`, `AddThenGet` and `GetStepNewOnly`.
- `readLine`, `flush` and the abstract `initialize` of the SMTP stream: they are thin wrappers over `feof`, `fgets`, `fflush` and stream metadata, which belong to the runtime.
- SmtpStream.AbstractStream.Write: a closed stream is modelled as PHP 7 treats `fwrite(null, ...)`, with a warning and `false`, so the write raises its TransportException. PHP 8 raises a `TypeError` there instead, and that outcome is not modelled.
- `fwrite` is a function of the stream handle, the call's index and the data, so a stream's changing state between calls is represented only by the call index.
- SmtpStream.AbstractStream.Replace: the generator is modelled as the list of the pieces it yields, so its laziness and the interleaving with the consumer are not represented.
- The form tree is given as already-flattened children, together with each form's own `hasChildren()` answer. The `VirtualFormIterator`/`RecursiveIteratorIterator` flattening itself is not modelled, so the model does not tie `hasChildren` to the child list it flattens.
- The validator component (`$this->validator->validate`) is a function parameter, and `isRoot()` is a parameter of `Validate`.
- PCRE matching: a mapped pattern is represented by its unescaped prefix plus the `(?!\w)` look-ahead. `preg_quote` is assumed to escape correctly, so the missing `/` delimiter argument in the `error_mapping` loops is not represented.
- `error_mapping` keys are strings; PHP integer keys are not represented. A null `property_path` is its string cast, "".
- `addError` is modelled as the returned list of (form, error) attachments, not as a change to the forms.
- FormValidation.DelegatingValidator.ResolveMappingPlaceholders requires unique keys in the mapping, which every PHP array has.
- Logging through the middleware's logger is not modelled.
- The senders locator, the event dispatcher and the senders' `send` are function values, and `getSenderByAlias` never throws. The event object is represented by the function from the envelope to the envelope the listeners leave in it.
- SendMessage.SendMessageMiddleware.Handle: its own contract gives the full call list and result. The derived facts (next middleware iff no sender, the event at most once, redelivery uses a single sender) are proved about that call list by `OutboundShape`.
- `Envelope` itself (its class file) is not part of this model; only the `with`/`all`/`last` behaviour the middleware uses is.
