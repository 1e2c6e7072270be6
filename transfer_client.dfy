/** The transfer client's configuration surface: handles, retry limits, the
    extend-window divisor and the default protocol version.

    Transfers themselves run on a transfer thread, which is not part of this
    model; the thread is reduced to the requests it is handed. */
module Transfer {
  import opened Base

  /** Handle id 0 is never given to a transfer. */
  const UnassignedHandleId: u32 := 0

  /** A handle to a transfer, by id. */
  datatype TransferHandle = TransferHandle(id: u32) {
    predicate IsUnassigned()
    {
      id == UnassignedHandleId
    }
  }

  /** The default-constructed handle: no transfer. */
  function DefaultHandle(): (h: TransferHandle)
    ensures h.IsUnassigned() && h.id == 0
  {
    TransferHandle(UnassignedHandleId)
  }

  /** A handle is unassigned exactly when its id is 0. */
  lemma UnassignedIffZero(h: TransferHandle)
    ensures h.IsUnassigned() <==> h.id == 0
    ensures h.IsUnassigned() <==> h == DefaultHandle()
  {
  }

  datatype ProtocolVersion = Legacy | VersionTwo
  const LatestVersion := VersionTwo

  /** Configuration defaults (the transfer module's config header). */
  const DefaultMaxClientRetries: u32 := 3
  const DefaultMaxLifetimeRetries: u32 := 1500
  const DefaultExtendWindowDivisor: u32 := 2

  datatype TransferParameters = TransferParameters(
    maxBytesToReceive: nat,
    maxChunkSizeBytes: nat,
    extendWindowDivisor: u32)

  datatype TransferKind = ReadTransfer | WriteTransfer

  /** What a Read or Write hands to the transfer thread. */
  datatype TransferRequest = TransferRequest(
    kind: TransferKind,
    resourceId: u32,
    version: ProtocolVersion,
    timeout: nat,
    initialChunkTimeout: nat)

  /** The transfer thread, by what it is asked to do. */
  class TransferThread {
    const maxChunkSize: nat
    var started: seq<TransferRequest>
    var cancelled: seq<u32>

    constructor (maxChunkSize: nat)
      ensures this.maxChunkSize == maxChunkSize && started == [] && cancelled == []
    {
      this.maxChunkSize := maxChunkSize;
      started := [];
      cancelled := [];
    }
  }

  class Client {
    var defaultProtocolVersion: ProtocolVersion
    const channelId: u32
    const thread: TransferThread
    var nextHandleId: u32
    var maxParameters: TransferParameters
    var maxRetries: u32
    var maxLifetimeRetries: u32
    var hasReadStream: bool
    var hasWriteStream: bool

    /** The retry limits every setter keeps. */
    predicate RetriesValid()
      reads this
    {
      1 <= maxRetries <= maxLifetimeRetries
    }

    /** A new client: latest protocol, first handle id 1, default retry
        limits, and a receive window of maxBytesToReceive, or of the thread's
        chunk size when that is 0. The divisor is taken as given. */
    constructor (channelId: u32, thread: TransferThread, maxBytesToReceive: nat,
                 extendWindowDivisor: u32)
      ensures this.channelId == channelId && this.thread == thread
      ensures defaultProtocolVersion == LatestVersion
      ensures nextHandleId == 1 && nextHandleId != UnassignedHandleId
      ensures maxParameters.maxBytesToReceive
              == if maxBytesToReceive > 0 then maxBytesToReceive else thread.maxChunkSize
      ensures maxParameters.maxChunkSizeBytes == thread.maxChunkSize
      ensures maxParameters.extendWindowDivisor == extendWindowDivisor
      ensures maxRetries == DefaultMaxClientRetries
      ensures maxLifetimeRetries == DefaultMaxLifetimeRetries
      ensures RetriesValid()
      ensures !hasReadStream && !hasWriteStream
    {
      defaultProtocolVersion := LatestVersion;
      this.channelId := channelId;
      this.thread := thread;
      nextHandleId := 1;
      maxParameters := TransferParameters(
        if maxBytesToReceive > 0 then maxBytesToReceive else thread.maxChunkSize,
        thread.maxChunkSize,
        extendWindowDivisor);
      maxRetries := DefaultMaxClientRetries;
      maxLifetimeRetries := DefaultMaxLifetimeRetries;
      hasReadStream := false;
      hasWriteStream := false;
    }

    /** Read with an explicit version: hands the request to the thread. */
    method ReadVersion(resourceId: u32, version: ProtocolVersion, timeout: nat,
                       initialChunkTimeout: nat)
      modifies thread
      ensures thread.started == old(thread.started)
        + [TransferRequest(ReadTransfer, resourceId, version, timeout, initialChunkTimeout)]
      ensures thread.cancelled == old(thread.cancelled)
    {
      thread.started := thread.started
        + [TransferRequest(ReadTransfer, resourceId, version, timeout, initialChunkTimeout)];
    }

    /** Read without a version uses the current default version. */
    method Read(resourceId: u32, timeout: nat, initialChunkTimeout: nat)
      modifies thread
      ensures thread.started == old(thread.started)
        + [TransferRequest(ReadTransfer, resourceId, defaultProtocolVersion, timeout, initialChunkTimeout)]
      ensures thread.cancelled == old(thread.cancelled)
    {
      ReadVersion(resourceId, defaultProtocolVersion, timeout, initialChunkTimeout);
    }

    /** Write with an explicit version: hands the request to the thread. */
    method WriteVersion(resourceId: u32, version: ProtocolVersion, timeout: nat,
                        initialChunkTimeout: nat)
      modifies thread
      ensures thread.started == old(thread.started)
        + [TransferRequest(WriteTransfer, resourceId, version, timeout, initialChunkTimeout)]
      ensures thread.cancelled == old(thread.cancelled)
    {
      thread.started := thread.started
        + [TransferRequest(WriteTransfer, resourceId, version, timeout, initialChunkTimeout)];
    }

    /** Write without a version uses the current default version. */
    method Write(resourceId: u32, timeout: nat, initialChunkTimeout: nat)
      modifies thread
      ensures thread.started == old(thread.started)
        + [TransferRequest(WriteTransfer, resourceId, defaultProtocolVersion, timeout, initialChunkTimeout)]
      ensures thread.cancelled == old(thread.cancelled)
    {
      WriteVersion(resourceId, defaultProtocolVersion, timeout, initialChunkTimeout);
    }

    /** CancelTransfer: forwards the handle's id to the thread, unless the
        handle is unassigned, in which case nothing happens. */
    method CancelTransfer(handle: TransferHandle)
      modifies thread
      ensures handle.IsUnassigned() ==> unchanged(thread)
      ensures !handle.IsUnassigned() ==> thread.cancelled == old(thread.cancelled) + [handle.id]
      ensures thread.started == old(thread.started)
    {
      if !handle.IsUnassigned() {
        thread.cancelled := thread.cancelled + [handle.id];
      }
    }

    /** set_extend_window_divisor: a divisor of 0 or 1 is refused and changes
        nothing; any other replaces the divisor and nothing else. */
    method SetExtendWindowDivisor(divisor: u32) returns (s: Status)
      modifies this`maxParameters
      ensures divisor <= 1 ==> s == InvalidArgument && maxParameters == old(maxParameters)
      ensures divisor > 1 ==> s == Ok && maxParameters == old(maxParameters).(extendWindowDivisor := divisor)
    {
      if divisor <= 1 {
        return InvalidArgument;
      }
      maxParameters := maxParameters.(extendWindowDivisor := divisor);
      return Ok;
    }

    /** set_max_retries: a value below 1 or above the lifetime limit is
        refused and changes nothing; otherwise it becomes the limit. The retry
        limits stay valid either way. */
    method SetMaxRetries(retries: u32) returns (s: Status)
      modifies this`maxRetries
      ensures (retries < 1 || retries > maxLifetimeRetries) ==>
        s == InvalidArgument && maxRetries == old(maxRetries)
      ensures (1 <= retries <= maxLifetimeRetries) ==> s == Ok && maxRetries == retries
      ensures old(RetriesValid()) ==> RetriesValid()
      ensures s == Ok ==> RetriesValid()
    {
      if retries < 1 || retries > maxLifetimeRetries {
        return InvalidArgument;
      }
      maxRetries := retries;
      return Ok;
    }

    /** set_max_lifetime_retries: a value below the per-transfer limit is
        refused and changes nothing; otherwise it becomes the limit. The retry
        limits stay valid either way. */
    method SetMaxLifetimeRetries(lifetimeRetries: u32) returns (s: Status)
      modifies this`maxLifetimeRetries
      ensures lifetimeRetries < maxRetries ==>
        s == InvalidArgument && maxLifetimeRetries == old(maxLifetimeRetries)
      ensures lifetimeRetries >= maxRetries ==> s == Ok && maxLifetimeRetries == lifetimeRetries
      ensures old(RetriesValid()) ==> RetriesValid()
    {
      if lifetimeRetries < maxRetries {
        return InvalidArgument;
      }
      maxLifetimeRetries := lifetimeRetries;
      return Ok;
    }

    /** set_protocol_version: the version later Read and Write calls use. */
    method SetProtocolVersion(version: ProtocolVersion)
      modifies this`defaultProtocolVersion
      ensures defaultProtocolVersion == version
    {
      defaultProtocolVersion := version;
    }
  }

  /** A client built with the default arguments: its receive window is the
      thread's chunk size and its extend-window divisor is the configured
      default, one the divisor setter would also accept. */
  method NewDefaultClient(channelId: u32, thread: TransferThread) returns (c: Client)
    ensures c.thread == thread && c.channelId == channelId
    ensures c.maxParameters.maxBytesToReceive == thread.maxChunkSize
    ensures c.maxParameters.extendWindowDivisor == DefaultExtendWindowDivisor
    ensures c.maxParameters.extendWindowDivisor > 1
    ensures c.RetriesValid()
  {
    c := new Client(channelId, thread, 0, DefaultExtendWindowDivisor);
  }

  /** Setting the version and then reading without one starts a transfer at
      that version. */
  method SetVersionThenRead(client: Client, version: ProtocolVersion, resourceId: u32)
    modifies client, client.thread
    ensures |client.thread.started| == |old(client.thread.started)| + 1
    ensures client.thread.started[|client.thread.started| - 1].version == version
  {
    client.SetProtocolVersion(version);
    client.Read(resourceId, 0, 0);
  }
}
