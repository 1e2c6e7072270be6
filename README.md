# Pigweed RPC, persistent RAM and transfer-client core in Dafny

This project models seven small parts of Pigweed, an embedded RPC and
utilities framework:

- **Server stream writer** (`ServerWriters`, base_server_writer.dfy). A class
  with the writer's call, response buffer and open/closed state. It covers
  move-assignment, `Finish`, acquiring and releasing a payload buffer, and the
  envelope of an outgoing stream packet.
- **Channel output-buffer sizing** (`Packets`, packet.dfy, and `Channels`,
  channel.dfy). The header reserve `MinEncodedSizeBytes` of a packet, the
  payload region of an output buffer, and the status `Channel::Send` reports.
  The channel tests are restated as lemmas.
- **Server registries** (`Servers`, server.dfy). A service list that grows
  only at its front, a caller-provided channel table of fixed size, and the
  search and claim of table slots.
- **Persistent RAM value** (`PersistentRam`, persistent.dfy). A value with a
  CRC-16-CCITT integrity word: `emplace`, assignment, `reset`, `has_value` and
  `value`.
- **Transfer client configuration** (`Transfer`, transfer_client.dfy). Handles
  and the unassigned id 0, constructor defaults, `CancelTransfer`, the
  validated setters and the default protocol version.
- **Transfer client context** (`TransferContext`, client_context.dfy). The
  handle id and completion callback of one transfer.
- **Code generator helpers** (`Codegen`, codegen.dfy). Client call classes per
  method type, reserved method names, the `0x%08x` id format, stripping a
  leading `::` from the namespace, stub selection, and the lines of an indented
  list and of the method-id lookup table. The output file is modelled as
  append-only.

Shared types (`u32`, `u16`, bytes, `Option`, status codes) are in `Base`
(base.dfy).

Two facts about this revision shape the model:

- A packet has no call id. The channel test counts six header fields: type,
  channel, service, method, payload key and status.
- `ChannelOutput::SendAndReleaseBuffer` returns nothing, so `Channel::Send`
  can only report `OK` or `INTERNAL`. No transport status is passed through.

## Model

| member | source | states |
|---|---|---|
| `ServerWriters.BaseServerWriter.constructor` | pw_rpc/base_server_writer.cc:15 | a writer for an accepted call holds that call, starts open and holds no buffer; the constructors are defined in base_server_writer.h, which is not part of this model |
| `ServerWriters.BaseServerWriter.IsOpen` | pw_rpc/base_server_writer.cc:33 | open() holds exactly in the open state; Finish and MoveFrom are the only ways out of it |
| `ServerWriters.BaseServerWriter.MoveFrom` | pw_rpc/base_server_writer.cc:23-30 | the destination gets the source's call, response buffer and state, and the source is left closed; moving a writer onto itself leaves it closed |
| `ServerWriters.BaseServerWriter.Finish` | pw_rpc/base_server_writer.cc:32-41 | afterwards the writer is closed; a writer that was not open is left exactly as it was, so a second Finish is a no-op |
| `ServerWriters.BaseServerWriter.AcquirePayloadBuffer` | pw_rpc/base_server_writer.cc:43-50 | closed: the null span, the response buffer is untouched and the channel is not consulted, so a writer with no channel output may be closed; open: the response buffer becomes the channel's buffer, and the result is its payload region for this writer's packet |
| `ServerWriters.BaseServerWriter.ReleasePayloadBuffer` | pw_rpc/base_server_writer.cc:52-57 | closed: FAILED_PRECONDITION, with neither the writer nor the channel touched; open: exactly the channel's Send status for the payload in the response buffer, and the buffer goes with the send, so the writer holds none afterwards; the writer's state is never changed |
| `ServerWriters.BaseServerWriter.PacketFor` | pw_rpc/base_server_writer.cc:59-65 | the envelope is an RPC packet with the call's channel, service and method ids, status OK, carrying exactly the given payload |
| `ServerWriters.AcquireThenRelease` | pw_rpc/base_server_writer.cc:43-57 | on an open writer, the returned region is the payload region of the channel's buffer for the writer's packet; a payload that fits it together with the extra bytes of its length varint is sent with OK (so every payload under 128 bytes no longer than the region), any other gets INTERNAL, and with no region the send gets INTERNAL; the writer keeps its call, stays open and afterwards holds no buffer |
| `ServerWriters.ReleasedBufferRefusesSend` | pw_rpc/base_server_writer.cc:56 | a zero-size buffer has no payload region and every packet sent in it gets INTERNAL |
| `ServerWriters.SecondReleaseIsRefused` | pw_rpc/base_server_writer.cc:43-57 | one acquired buffer serves one release: a second release without a new acquire gets INTERNAL, and at most one packet reaches the transport |
| `Packets.VarintSizeIsLeast` | pw_rpc/channel_test.cc:39-41 | the varint size of n is the least k with n < 128^k, as in the Protocol Buffers varint encoding |
| `Packets.VarintSizeOfU32` | pw_rpc/channel_test.cc:39-41 | a 32-bit field value takes one to five varint bytes |
| `Packets.MinEncodedSizeBytes` | pw_rpc/channel_test.cc:38-45 | the header reserve is one key byte plus the varint for each of type, channel, service, method and status, plus two bytes for the payload key and length; it lies between 12 and 24 and is 12 exactly when the three ids are below 128 |
| `Packets.EncodedSize` | pw_rpc/channel_test.cc:38-45 | the packet's size on the wire is the reserve plus the payload, plus the extra bytes of the length varint; it equals reserve plus payload exactly when the payload is under 128 bytes |
| `Packets.ReserveIgnoresPayload` | pw_rpc/base_server_writer.cc:43-57 | the reserve does not depend on the payload, so the region sized when the buffer is acquired (empty payload) is valid for the packet released with its real payload |
| `Packets.TestPacketReserve` | pw_rpc/channel_test.cc:38-45 | the test packet (RPC, channel 1, service 42, method 100) reserves kReservedSize = 12 bytes |
| `Channels.ChannelOutput.constructor` | pw_rpc/channel_test.cc:26-36 | the output's name is exactly the name given, including no name |
| `Channels.AcquireBuffer` | pw_rpc/base_server_writer.cc:48 | the buffer acquired from a channel is as large as its output's buffer |
| `Channels.Payload` | pw_rpc/channel_test.cc:47-102 | the null span exactly when the buffer is smaller than the reserve; otherwise the region starts at the reserve and runs to the end of the buffer |
| `Channels.SendStatus` | pw_rpc/channel_test.cc:55-102 | OK exactly when the encoded packet fits in the buffer, INTERNAL otherwise |
| `Channels.Send` | pw_rpc/channel_test.cc:78-89 | reports SendStatus; on OK the transport is handed the encoded size, which never exceeds the buffer; on INTERNAL nothing is handed over |
| `Channels.PayloadRegionIsSendable` | pw_rpc/channel_test.cc:65-102 | a payload put in the region Payload gives is sent with OK exactly when it and the extra bytes of its length varint fit the region; for payloads under 128 bytes, exactly when it is no longer than the region |
| `Channels.PayloadRegionIsTight` | pw_rpc/channel_test.cc:78-89 | any payload one byte or more longer than that region gets INTERNAL |
| `Channels.EmptyBufferHasNoPayload` | pw_rpc/channel_test.cc:47-53 | a zero-length buffer yields an empty payload |
| `Channels.TooSmallBuffer` | pw_rpc/channel_test.cc:55-63 | a buffer one byte short of the reserve yields an empty payload, and Send returns INTERNAL |
| `Channels.ExactFitBuffer` | pw_rpc/channel_test.cc:65-76 | a buffer of exactly the reserve yields a zero-length region at offset kReservedSize, and Send returns OK |
| `Channels.PayloadDoesNotFit` | pw_rpc/channel_test.cc:78-89 | a one-byte payload in an exact-fit buffer gets INTERNAL |
| `Channels.ExtraRoomBuffer` | pw_rpc/channel_test.cc:91-102 | a buffer of three reserves yields a region of size buffer − reserve at offset reserve, and Send returns OK |
| `Servers.Service.constructor` | pw_rpc/public/pw_rpc/server.h:35-37 | a registered service is identified by the id it is built with; the Service class is defined in service.h, which is not part of this model |
| `Servers.Server.constructor` | pw_rpc/public/pw_rpc/server.h:28-30 | the channel table is the caller's array, channel_count equals its length, and no services are registered |
| `Servers.Server.RegisterService` | pw_rpc/public/pw_rpc/server.h:35-37 | the service goes to the front of the list, and every earlier service follows in its previous order |
| `Servers.Server.ChannelCount` | pw_rpc/public/pw_rpc/server.h:41 | the table's length; the table is a const array, so no operation changes it |
| `Servers.FirstSlotWithId` | pw_rpc/public/pw_rpc/server.h:49 | the first table slot holding an id, or none exactly when no slot holds it |
| `Servers.Server.FindChannel` | pw_rpc/public/pw_rpc/server.h:49 | either none (no slot has the id) or a slot of the fixed table holding that id, the first such |
| `Servers.Server.AssignChannel` | pw_rpc/public/pw_rpc/server.h:50 | claims the first slot with the unassigned id 0 and binds it to the new id and output, changing no other slot; with no free slot, none and no change |
| `PersistentRam.Persistent.constructor` | pw_persistent_ram/public/pw_persistent_ram/persistent.h:49-50 | the constructor writes nothing: contents and CRC are whatever the RAM held |
| `PersistentRam.Persistent.HasValue` | pw_persistent_ram/public/pw_persistent_ram/persistent.h:79-82 | has_value is the CRC match of the stored bytes; Emplace, Assign and Reset state when it holds, and CorruptionIsDetected shows a changed CRC turns it off |
| `PersistentRam.Persistent.Emplace` | pw_persistent_ram/public/pw_persistent_ram/persistent.h:56-62 | afterwards the contents are the constructed value, the CRC is its CRC, has_value holds, and the held value is returned |
| `PersistentRam.Persistent.Assign` | pw_persistent_ram/public/pw_persistent_ram/persistent.h:64-70 | afterwards the contents are the assigned value, has_value holds, and value() returns it |
| `PersistentRam.Persistent.Reset` | pw_persistent_ram/public/pw_persistent_ram/persistent.h:72-77 | all contents bytes and the CRC become 0; has_value then holds exactly when the CRC of all-zero bytes is 0 |
| `PersistentRam.Persistent.Value` | pw_persistent_ram/public/pw_persistent_ram/persistent.h:84-90 | only callable when has_value holds; returns the contents, whose CRC is the stored one |
| `PersistentRam.CorruptionIsDetected` | pw_persistent_ram/public/pw_persistent_ram/persistent.h:79-82 | after a write, bytes changed so that their CRC differs are kept as found, the stored CRC is still the written value's, and has_value is false |
| `Transfer.DefaultHandle` | pw_transfer/public/pw_transfer/client.h:33 | a default handle has id 0 and is unassigned |
| `Transfer.TransferHandle.IsUnassigned` | pw_transfer/public/pw_transfer/client.h:42 | is_unassigned holds for the reserved id 0 only; UnassignedIffZero states both directions |
| `Transfer.UnassignedIffZero` | pw_transfer/public/pw_transfer/client.h:38-42 | a handle is unassigned exactly when its id is 0, that is, exactly when it equals the default handle |
| `Transfer.Client.constructor` | pw_transfer/public/pw_transfer/client.h:72-89 | latest protocol version, next handle id 1 (never the unassigned id), max bytes to receive taken from the thread's chunk size when given 0, default retry limits with 1 ≤ retries ≤ lifetime retries, no open streams |
| `Transfer.NewDefaultClient` | pw_transfer/public/pw_transfer/client.h:72-89 | a client built with the default arguments receives up to the thread's chunk size and has the configured extend-window divisor 2, which the divisor setter would also accept |
| `Transfer.Client.ReadVersion` | pw_transfer/public/pw_transfer/client.h:95-102 | hands a read request with the given version and timeouts to the transfer thread |
| `Transfer.Client.Read` | pw_transfer/public/pw_transfer/client.h:104-117 | the same, at the client's current default protocol version |
| `Transfer.Client.WriteVersion` | pw_transfer/public/pw_transfer/client.h:123-130 | hands a write request with the given version and timeouts to the transfer thread |
| `Transfer.Client.Write` | pw_transfer/public/pw_transfer/client.h:132-145 | the same, at the client's current default protocol version |
| `Transfer.Client.CancelTransfer` | pw_transfer/public/pw_transfer/client.h:148-152 | an assigned handle's id is forwarded to the transfer thread; an unassigned handle leaves the thread unchanged |
| `Transfer.Client.SetExtendWindowDivisor` | pw_transfer/public/pw_transfer/client.h:154-161 | a divisor ≤ 1 gets INVALID_ARGUMENT and leaves the parameters unchanged; otherwise OK and only the divisor changes |
| `Transfer.Client.SetMaxRetries` | pw_transfer/public/pw_transfer/client.h:163-169 | a value < 1 or above the lifetime limit gets INVALID_ARGUMENT and no change; otherwise OK and it becomes the limit; 1 ≤ retries ≤ lifetime retries is kept |
| `Transfer.Client.SetMaxLifetimeRetries` | pw_transfer/public/pw_transfer/client.h:171-177 | a value below the retry limit gets INVALID_ARGUMENT and no change; otherwise OK and it becomes the limit; 1 ≤ retries ≤ lifetime retries is kept |
| `Transfer.Client.SetProtocolVersion` | pw_transfer/public/pw_transfer/client.h:179-181 | replaces the default protocol version |
| `Transfer.SetVersionThenRead` | pw_transfer/public/pw_transfer/client.h:179-181 | a read without a version, made after set_protocol_version(v), starts a transfer at version v |
| `TransferContext.ClientContext.constructor` | pw_transfer/public/pw_transfer/internal/client_context.h:23 | handle id 0 (the client's unassigned handle id) and a null completion callback |
| `TransferContext.ClientContext.HandleId` | pw_transfer/public/pw_transfer/internal/client_context.h:29 | the stored handle id |
| `TransferContext.ClientContext.SetHandleId` | pw_transfer/public/pw_transfer/internal/client_context.h:30 | handle_id() then returns the new id; the completion callback is unchanged |
| `TransferContext.ClientContext.SetOnCompletion` | pw_transfer/public/pw_transfer/internal/client_context.h:25-27 | replaces only the callback; handle_id() is unchanged |
| `Codegen.ClientCallType` | pw_rpc/py/pw_rpc/codegen.py:50-63 | fails (NotImplementedError) exactly for a type other than the four; otherwise the class name prefixed by "::pw::rpc::" and the prefix |
| `Codegen.ClientCallTypeRoundTrip` | pw_rpc/py/pw_rpc/codegen.py:50-63 | the class determines the type: unary → UnaryReceiver, server streaming → ClientReader, client streaming → ClientWriter, bidirectional → ClientReaderWriter |
| `Codegen.ClientCallTypeInjective` | pw_rpc/py/pw_rpc/codegen.py:50-63 | two different method types never get the same client call class |
| `Codegen.CheckMethodName` | pw_rpc/py/pw_rpc/codegen.py:220-225 | raises ValueError exactly when the name is Service, ServiceInfo or Client |
| `Codegen.HexRoundTrip` | pw_rpc/py/pw_rpc/codegen.py:45-47 | the hexadecimal numeral of n reads back as n |
| `Codegen.PaddedHexValue` | pw_rpc/py/pw_rpc/codegen.py:47 | padding the numeral to eight digits with zeros keeps it lowercase hex and keeps its value |
| `Codegen.FormatId` | pw_rpc/py/pw_rpc/codegen.py:47 | `0x{n:08x}` is "0x" followed by at least eight lowercase hex digits whose value is n |
| `Codegen.FormatIdWidth` | pw_rpc/py/pw_rpc/codegen.py:47 | for a 32-bit hash the padding is exact: the id is ten characters |
| `Codegen.GetId` | pw_rpc/py/pw_rpc/codegen.py:45-47 | the id of a service (by proto path) or a method (by name) is 10 characters, "0x" and 8 lowercase hex digits whose value is the hash of that name |
| `Codegen.StripLeadingScope` | pw_rpc/py/pw_rpc/codegen.py:155-158 | a namespace starting with "::" loses exactly those two characters; any other is unchanged (package_stubs strips it the same way) |
| `Codegen.GlobalQualifier` | pw_rpc/py/pw_rpc/codegen.py:286 | empty exactly for an empty namespace; otherwise "::" followed by the namespace |
| `Codegen.QualifiedNamespaceIsAbsolute` | pw_rpc/py/pw_rpc/codegen.py:285-287 | requalifying the stripped namespace gives an absolute name: the declared one if it began with "::", otherwise with "::" added |
| `Codegen.SelectStubMethods` | pw_rpc/py/pw_rpc/codegen.py:409-423 | for each of the four types, the signature and stub generators written for that type; any other type raises NotImplementedError |
| `Codegen.StubsAndCallTypesAgree` | pw_rpc/py/pw_rpc/codegen.py:409-423 | stub selection and client call classes accept exactly the same method types |
| `Codegen.OutputFile.constructor` | pw_rpc/py/pw_rpc/codegen.py:69 | a new output file for a name has no lines and no indentation; the OutputFile class is defined outside codegen.py and is not part of this model |
| `Codegen.OutputFile.WriteLine` | pw_rpc/py/pw_rpc/codegen.py:75-77 | appends exactly one line, at the current indentation, and changes no earlier line |
| `Codegen.OutputFile.Indent` | pw_rpc/py/pw_rpc/codegen.py:71-73 | entering an indent block deepens the indentation by the amount |
| `Codegen.OutputFile.Dedent` | pw_rpc/py/pw_rpc/codegen.py:71-73 | leaving the block takes the same amount off again |
| `Codegen.CodeGenerator.constructor` | pw_rpc/py/pw_rpc/codegen.py:68-69 | a generator creates its own output file for the given name: new, so not shared with any other generator, and empty at indentation 0 |
| `Codegen.IndentedListShape` | pw_rpc/py/pw_rpc/codegen.py:79-85 | n ≥ 1 arguments give n lines at the same indentation; the first n−1 end with "," and the last with end |
| `Codegen.CodeGenerator.IndentedList` | pw_rpc/py/pw_rpc/codegen.py:79-85 | appends exactly those lines four spaces deeper and restores the indentation; with no arguments it raises IndexError and writes nothing |
| `Codegen.LookupTableShape` | pw_rpc/py/pw_rpc/codegen.py:347-356 | a header line with the method count, one line per method, then "};" |
| `Codegen.LookupTableIds` | pw_rpc/py/pw_rpc/codegen.py:352-354 | line i+1 sits four spaces in and starts with "0x" and 8 lowercase hex digits whose value is the hash of method i's name |
| `Codegen.CodeGenerator.MethodLookupTable` | pw_rpc/py/pw_rpc/codegen.py:347-356 | appends exactly the lookup-table lines at the current indentation and leaves the indentation as it was |
| `Codegen.CodeGenerator.WriteLookupTableEntries` | pw_rpc/py/pw_rpc/codegen.py:351-354 | inside a four-space indent block, appends one id line per method, in method order, and restores the indentation |

## Left out

- Packet encoding and decoding (`packet.cc`, `packet.h`) are not part of this model. `MinEncodedSizeBytes` is reconstructed from the test's field count and the Protocol Buffers key and varint rules. The packet kinds other than RPC are placeholders.
- Channels.SendStatus: the encoded size is counted field by field (EncodedSize), with every header field present as the channel test's reserve counts it; the encoder itself is in `packet.cc` and `channel.cc`, which are not part of this model.
- Channels.Send: records only the number of bytes handed to the transport, not the bytes themselves. On failure nothing is recorded; whether the transport is still told to release the buffer is not modelled. The writer gives up its buffer after every open release, whatever the status.
- ServerWriters.BaseServerWriter: the default constructor, which makes a closed writer with no call, is not modelled; a closed writer arises from Finish or from being moved from.
- `Server::ProcessPacket` and `Server::InvokeMethod` are not modelled: `server.cc`, which defines them, is not part of this model.
- `server.cc` is not part of this model. `FindChannel` is modelled as a linear scan for the first slot with the id, and `AssignChannel` as claiming the first slot with id 0.
- Persistent: placement new, `volatile`, the unions and survival across reboots are not modelled. The RAM contents at boot are constructor parameters.
- Persistent: the CRC-16-CCITT implementation (`pw_checksum`) is a function given to the constructor. `T` is modelled as its bytes, and `emplace`'s constructor arguments as the bytes they construct.
- Transfer.Client.ReadVersion, Transfer.Client.WriteVersion: their definitions, in `client.cc`, are not part of this model. They are modelled only as handing a request, with its version and timeouts, to the transfer thread. Handle assignment (`AssignHandle`), the returned `Result`, streams, timeouts and RPC errors are not modelled.
- The transfer thread is reduced to the requests and cancellations it receives; its work queue and concurrency are not modelled. The default retry limits (3 and 1500) and the divisor (2) come from the transfer configuration header, which is not part of this model.
- The client constructor stores the extend-window divisor it is given without the check `set_extend_window_divisor` applies. The model keeps that.
- `ClientContext::FinalCleanup` and the `Context` base class are not part of this model. A completion callback is modelled by its identity only.
- In codegen: the proto-tree traversal, the `ids.calculate` hash (passed in as a function), the `datetime.now()` header lines, the abstract `CodeGenerator` and `StubGenerator` methods, the default stub bodies, the remaining `_generate_*` line sequences, and `OutputFile` rendering. Lines are kept as (indentation, text) pairs.
