/** The stop-and-wait file transfer over TCP, as a step relation over a client,
    a server, a byte channel each way and a decoder buffer at each end. A
    receive takes any nonempty part of what is in the channel. */
module Transport {
  import opened Basics
  import opened Chunking
  import opened LittleEndian
  import opened Streaming
  import F = Frame

  type Message = F.Message

  // ---- Request payload ----------------------------------------------------

  function EncodeReq(path: Bytes): Bytes { Put(|path|, 4) + path }

  function DecodeReq(payload: Bytes): Result<Bytes> {
    if |payload| < 4 then Err(InvalidRequest) else
      var n := Get(payload[..4]);
      if n + 4 > |payload| then Err(InvalidRequest) else Ok(payload[4..4 + n])
  }

  lemma ReqRoundTrip(path: Bytes, extra: Bytes)
    requires |path| < 0x1_0000_0000
    ensures DecodeReq(EncodeReq(path) + extra) == Ok(path)
  {
    Pow256Values();
    GetPut(|path|, 4);
    var b := EncodeReq(path) + extra;
    assert b[..4] == Put(|path|, 4);
    assert b[4..4 + |path|] == path;
  }

  // ---- The two endpoints --------------------------------------------------

  const HELLO: Byte := 1
  const HELLO_ACK: Byte := 2
  const TRANSFER_REQ: Byte := 3
  const CHUNK: Byte := 4
  const CHUNK_ACK: Byte := 5
  const COMMIT: Byte := 6
  const COMMIT_ACK: Byte := 7
  const ERROR: Byte := 8

  /** What the client asks for and what the world around it allows: the files
      the server can open, whether the destination opens, and the chunks whose
      write to it fails. */
  datatype Config = Config(
    files: map<Bytes, Bytes>,
    path: Bytes,
    offset: U64,
    length: U64,
    idHi: U64,
    idLo: U64,
    dstOpens: bool,
    badWrites: set<nat>)

  /** What the server keeps of a request. */
  datatype Job = Job(content: Bytes, offset: U64, length: U64, idHi: U64, idLo: U64)

  datatype ServerPhase =
    | AwaitHello
    | AwaitReq
    | AwaitAck(job: Job, index: nat)
    | AwaitCommitAck(job: Job)
    | Closed(ok: bool)

  datatype ClientPhase =
    | AwaitHelloAck
    | Receiving(file: Bytes, written: nat, expected: nat)
    | Returned(error: Option<Category>, file: Bytes)

  function Plain(kind: Byte): Message { F.Message(F.Header(kind, 0, 0, 0, 0, 0, 0), []) }

  function Request(cfg: Config): Message {
    F.Message(F.Header(TRANSFER_REQ, 0, cfg.idHi, cfg.idLo, 0, cfg.offset, cfg.length), EncodeReq(cfg.path))
  }

  function ServerPlan(job: Job): (p: Plan)
    ensures Exact(p)
  {
    PlanWith(job.length, F.MAX_PAYLOAD, 0, job.offset, 4096)
  }

  /** The plan the server builds for a request is that plan. */
  method BuildServerPlan(job: Job) returns (p: Plan)
    ensures job.length > 0 ==> p == ServerPlan(job)
    ensures p.chunkCount == ServerPlan(job).chunkCount
  {
    var input := PlanInput(job.length, 0, job.offset, 4096, F.MAX_PAYLOAD, F.MAX_PAYLOAD, 4096);
    var r := Build(input);
    p := r.value;
    if job.length > 0 {
      AlignedMinimum(input, p.chunkSize);
      assert Aligned(F.MAX_PAYLOAD, 4096);
      ExactUnique(p, ServerPlan(job));
    }
  }

  function ChunkMessage(job: Job, i: nat): Message
    requires i < ServerPlan(job).chunkCount && Start(ServerPlan(job), i + 1) <= |job.content|
  {
    var p := ServerPlan(job);
    StartStep(p, i);
    var s, e := Start(p, i), Start(p, i + 1);
    F.Message(F.Header(CHUNK, 0, job.idHi, job.idLo, i, s, e - s), job.content[s..e])
  }

  function CommitMessage(job: Job): Message {
    F.Message(F.Header(COMMIT, 0, job.idHi, job.idLo, 0, 0, 0), [])
  }

  /** The server's loop from chunk `i`: send it, or commit after the last; a
      short read ends the transfer. */
  function SendNext(job: Job, i: nat): (ServerPhase, Option<Message>) {
    var p := ServerPlan(job);
    if i >= p.chunkCount then (AwaitCommitAck(job), Some(CommitMessage(job)))
    else if Start(p, i + 1) > |job.content| then (Closed(false), None)
    else (AwaitAck(job, i), Some(ChunkMessage(job, i)))
  }

  /** What the server does with a frame. */
  function ServerHandle(files: map<Bytes, Bytes>, s: ServerPhase, m: Message): (ServerPhase, Option<Message>) {
    var kind := m.header.kind;
    match s
    case AwaitHello => if kind == HELLO then (AwaitReq, Some(Plain(HELLO_ACK))) else (s, None)
    case AwaitReq =>
      if kind != TRANSFER_REQ then (s, None) else
        (match DecodeReq(m.payload)
         case Err(_) => (Closed(false), None)
         case Ok(path) =>
           if path !in files then (Closed(false), None)
           else SendNext(Job(files[path], m.header.offset, m.header.length, m.header.idHi, m.header.idLo), 0))
    case AwaitAck(job, i) =>
      if kind == CHUNK_ACK then SendNext(job, i + 1)
      else if kind == ERROR then (Closed(false), None)
      else (s, None)
    case AwaitCommitAck(_) => if kind == COMMIT_ACK then (Closed(true), None) else (s, None)
    case Closed(_) => (s, None)
  }

  /** A write at an offset of a file: a gap is filled with zeros. */
  function WriteAt(file: Bytes, at: nat, data: Bytes): Bytes {
    var padded := if |file| < at then file + seq(at - |file|, i => 0) else file;
    padded[..at] + data + (if at + |data| < |padded| then padded[at + |data|..] else [])
  }

  function AckMessage(cfg: Config, chunkId: U64): Message {
    F.Message(F.Header(CHUNK_ACK, 0, cfg.idHi, cfg.idLo, chunkId, 0, 0), [])
  }

  function CommitAckMessage(cfg: Config): Message {
    F.Message(F.Header(COMMIT_ACK, 0, cfg.idHi, cfg.idLo, 0, 0, 0), [])
  }

  // ---- On the wire --------------------------------------------------------

  ghost function OnWire(m: Message): Bytes { F.Wire(m.header, m.payload) }

  /** The message begins with the magic number, the version, its kind and no flags. */
  ghost predicate Begins(m: Message, kind: Byte) {
    OnWire(m)[..8] == [0x00, 0x52, 0x46, 0x54, 0x01, 0x00, kind, 0x00]
  }

  /** Where a message has its number, its place, its size and its payload. */
  lemma PlaceBytes(m: Message)
    ensures var b, h := OnWire(m), m.header;
      && F.Holds(b, 28, h.chunkId, 8) && F.Holds(b, 36, h.offset, 8) && F.Holds(b, 44, h.length, 8)
      && b[64..] == m.payload
  {
    F.WireLayout(m.header, m.payload);
  }

  lemma KindBytes(cfg: Config, job: Job, i: U64)
    ensures Begins(Plain(HELLO), 1) && Begins(Plain(HELLO_ACK), 2) && Begins(Request(cfg), 3)
    ensures i < ServerPlan(job).chunkCount && Start(ServerPlan(job), i + 1) <= |job.content| ==>
      Begins(ChunkMessage(job, i), 4)
    ensures Begins(AckMessage(cfg, i), 5) && Begins(CommitMessage(job), 6) && Begins(CommitAckMessage(cfg), 7)
  {
    forall m: Message ensures OnWire(m)[..8] == [0x00, 0x52, 0x46, 0x54, 0x01, 0x00, m.header.kind, m.header.flags] {
      F.WireLayout(m.header, m.payload);
    }
  }

  /** A request has its id at 12 and 20, the offset at 36, the length at 44, and
      after the header the length of the path and the path. */
  lemma RequestBytes(cfg: Config)
    ensures var b := OnWire(Request(cfg));
      && F.Holds(b, 12, cfg.idHi, 8) && F.Holds(b, 20, cfg.idLo, 8)
      && F.Holds(b, 36, cfg.offset, 8) && F.Holds(b, 44, cfg.length, 8)
      && F.Holds(b, 64, |cfg.path|, 4) && b[68..] == cfg.path
  {
    var m := Request(cfg);
    var b := OnWire(m);
    F.WireLayout(m.header, m.payload);
    assert b[64..68] == b[64..][..4] == Put(|cfg.path|, 4);
    F.PutHolds(b, 64, |cfg.path|, 4);
    assert b[68..] == b[64..][4..];
  }

  /** A chunk has its number at 28, its place at 36, its size at 44, and after the
      header the bytes of the file at that place. */
  lemma ChunkBytes(job: Job, i: nat)
    requires i < ServerPlan(job).chunkCount && Start(ServerPlan(job), i + 1) <= |job.content|
    ensures var b, s, e := OnWire(ChunkMessage(job, i)), Start(ServerPlan(job), i), Start(ServerPlan(job), i + 1);
      && s <= e
      && F.Holds(b, 28, i, 8) && F.Holds(b, 36, s, 8) && F.Holds(b, 44, e - s, 8)
      && b[64..] == job.content[s..e]
  {
    StartStep(ServerPlan(job), i);
    PlaceBytes(ChunkMessage(job, i));
  }

  /** What the client does with a frame. */
  function ClientHandle(cfg: Config, c: ClientPhase, m: Message): (ClientPhase, Option<Message>) {
    var h := m.header;
    match c
    case AwaitHelloAck =>
      if h.kind != HELLO_ACK then (c, None)
      else (if cfg.dstOpens then Receiving([], 0, 0) else Returned(Some(BackendFailure), []), Some(Request(cfg)))
    case Receiving(file, written, expected) =>
      if h.kind == CHUNK then
        if h.chunkId != expected then (Returned(Some(InvalidRequest), file), None)
        else if h.offset < cfg.offset || Wrap(h.offset + h.length) > Wrap(cfg.offset + cfg.length) then
          (Returned(Some(InvalidRequest), file), None)
        else if expected in cfg.badWrites then (Returned(Some(BackendFailure), file), None)
        else (Receiving(WriteAt(file, h.offset, m.payload), written + |m.payload|, expected + 1),
              Some(AckMessage(cfg, h.chunkId)))
      else if h.kind == COMMIT then
        (Returned(if written != cfg.length then Some(IntegrityFailure) else None, file), Some(CommitAckMessage(cfg)))
      else if h.kind == ERROR then (Returned(Some(BackendFailure), file), None)
      else (c, None)
    case Returned(_, _) => (c, None)
  }

  // ---- The network --------------------------------------------------------

  datatype Net = Net(
    client: ClientPhase,
    clientBuf: Bytes,
    server: ServerPhase,
    serverBuf: Bytes,
    toServer: Bytes,
    toClient: Bytes,
    clientClosed: bool)

  /** How messages become bytes and back. */
  datatype Wiring = Wiring(p: Bytes -> Parsed<Message>, w: Message -> Bytes)

  predicate Fits(m: Message) { |m.payload| <= F.MAX_PAYLOAD }

  const LIMIT: nat := 0x100_0040

  ghost predicate Sound(x: Wiring) {
    Codec(x.p, x.w, Fits) && forall m :: Fits(m) ==> |x.w(m)| <= LIMIT
  }

  /** The bytes put on the channel: none when the frame cannot be encoded. */
  ghost function Sent(x: Wiring, m: Option<Message>): Bytes {
    if m.Some? && Fits(m.value) then x.w(m.value) else []
  }

  ghost function Initial(x: Wiring): Net {
    Net(AwaitHelloAck, [], AwaitHello, [], Sent(x, Some(Plain(HELLO))), [], false)
  }

  datatype Step = ClientRecv(n: nat) | ServerRecv(n: nat) | ClientEof | ServerEof | ClientClose

  ghost predicate Enabled(net: Net, step: Step) {
    match step
    case ClientRecv(n) => !net.client.Returned? && 1 <= n <= Min(4096, |net.toClient|)
    case ServerRecv(n) => !net.server.Closed? && 1 <= n <= Min(4096, |net.toServer|)
    case ClientEof => !net.client.Returned? && net.toClient == [] && net.server.Closed?
    case ServerEof => !net.server.Closed? && net.toServer == [] && net.clientClosed
    case ClientClose => net.client.Returned? && !net.clientClosed
  }

  function ClientFile(c: ClientPhase): Bytes {
    if c.AwaitHelloAck? then [] else c.file
  }

  /** One step. A decoding error ends the client's call and the server's; a
      server that waits for a chunk's acknowledgement keeps receiving. */
  ghost function Next(x: Wiring, cfg: Config, net: Net, step: Step): Net
    requires Sound(x) && Enabled(net, step)
  {
    match step
    case ClientRecv(n) =>
      var r := FeedOnce(x.p, net.clientBuf, net.toClient[..n]);
      var got := net.(clientBuf := r.buf, toClient := net.toClient[n..]);
      if r.error.Some? then got.(client := Returned(r.error, ClientFile(net.client)))
      else if r.frame.None? then got
      else
        var (c, reply) := ClientHandle(cfg, net.client, r.frame.value);
        got.(client := c, toServer := net.toServer + Sent(x, reply))
    case ServerRecv(n) =>
      var r := FeedOnce(x.p, net.serverBuf, net.toServer[..n]);
      var got := net.(serverBuf := r.buf, toServer := net.toServer[n..]);
      if r.error.Some? then
        if net.server.AwaitAck? then got else got.(server := Closed(net.server.AwaitCommitAck?))
      else if r.frame.None? then got
      else
        var (s, reply) := ServerHandle(cfg.files, net.server, r.frame.value);
        got.(server := s, toClient := net.toClient + Sent(x, reply))
    case ClientEof => net.(client := Returned(Some(TransientTransport), ClientFile(net.client)))
    case ServerEof => net.(server := Closed(net.server.AwaitCommitAck?))
    case ClientClose => net.(clientClosed := true)
  }

  // ---- Where a conversation can stand -------------------------------------

  function PlanOf(cfg: Config): (p: Plan)
    ensures Exact(p)
  {
    ServerPlan(Job([], cfg.offset, cfg.length, cfg.idHi, cfg.idLo))
  }

  function JobOf(cfg: Config): Job
    requires cfg.path in cfg.files
  {
    Job(cfg.files[cfg.path], cfg.offset, cfg.length, cfg.idHi, cfg.idLo)
  }

  /** The transfers that can succeed: the source file exists and holds the
      bytes, the destination takes them, and the request starts at offset 0 or
      asks for nothing. */
  predicate Expected(cfg: Config) {
    && cfg.path in cfg.files
    && cfg.dstOpens
    && (cfg.length == 0 || (cfg.offset == 0 && cfg.length <= |cfg.files[cfg.path]|))
    && (forall i :: 0 <= i < PlanOf(cfg).chunkCount ==> i !in cfg.badWrites)
  }

  /** The client receives, and has accepted the first `i` chunks. */
  predicate Waiting(cfg: Config, c: ClientPhase, i: nat) {
    && cfg.dstOpens
    && i <= PlanOf(cfg).chunkCount
    && (i > 0 ==> cfg.offset == 0 && cfg.path in cfg.files)
    && (forall j :: 0 <= j < i ==> j !in cfg.badWrites)
    && Start(PlanOf(cfg), i) <= (if i > 0 then |cfg.files[cfg.path]| else 0)
    && c == Receiving(if i > 0 then cfg.files[cfg.path][..Start(PlanOf(cfg), i)] else [], Start(PlanOf(cfg), i), i)
  }

  /** The client could not open its destination. */
  predicate Unopened(cfg: Config, c: ClientPhase) {
    !cfg.dstOpens && c == Returned(Some(BackendFailure), [])
  }

  /** The server cannot read chunk `i` of the request. */
  predicate Short(cfg: Config, i: nat)
    requires cfg.path in cfg.files
  {
    Start(PlanOf(cfg), i + 1) > |cfg.files[cfg.path]|
  }

  /** The transfer stops at chunk `i`: it cannot be read, is refused, or cannot be
      written. */
  predicate StopsAt(cfg: Config, i: nat)
    requires cfg.path in cfg.files
  {
    i < PlanOf(cfg).chunkCount && (Short(cfg, i) || cfg.offset > 0 || i in cfg.badWrites)
  }

  /** The first chunk at which the transfer stops. */
  predicate FirstStop(cfg: Config, i: nat)
    requires cfg.path in cfg.files
  {
    StopsAt(cfg, i) && forall j :: 0 <= j < i ==> !StopsAt(cfg, j)
  }

  /** Which error a request that fails is answered with: a destination that does
      not open comes first; then a server that hangs up, because it has no such
      file or cannot read a chunk; then a chunk that does not belong to the
      request; then a failed write. */
  ghost predicate RightError(cfg: Config, e: Category) {
    if !cfg.dstOpens then e == BackendFailure
    else if cfg.path !in cfg.files then e == TransientTransport
    else exists i: nat ::
      && FirstStop(cfg, i)
      && e == if Short(cfg, i) then TransientTransport else if cfg.offset > 0 then InvalidRequest else BackendFailure
  }

  /** What a client that has returned reports. */
  ghost predicate Honest(cfg: Config, c: ClientPhase) {
    c.Returned? ==>
      && (c.error.None? <==> Expected(cfg))
      && (c.error.None? ==> c.file == cfg.files[cfg.path][..cfg.length])
      && (c.error.Some? ==> RightError(cfg, c.error.value))
  }

  /** The requests that the server reports as served: all that succeed, and those
      for nothing from a file it has, whatever becomes of the client. */
  predicate Served(cfg: Config) {
    Fits(Request(cfg)) && cfg.path in cfg.files && (cfg.length == 0 || Expected(cfg))
  }

  /** The client waits for a chunk that the server will never send. */
  ghost predicate HungUp(cfg: Config, c: ClientPhase) {
    exists i: nat :: Waiting(cfg, c, i) &&
      (cfg.path !in cfg.files || (i < PlanOf(cfg).chunkCount && Short(cfg, i)))
  }

  datatype Stage =
    | Greeting
    | Greeted
    | Requested
    | Unasked
    | ChunkSent(i: nat)
    | ChunkAcked(i: nat)
    | Committed
    | CommitAcked
    | GaveUp(i: nat)
    | ServerGone

  /** A greeting, or a frame that carries the id of the transfer. */
  predicate Named(cfg: Config, m: Message) {
    || m == Plain(HELLO) || m == Plain(HELLO_ACK)
    || (m.header.idHi == cfg.idHi && m.header.idLo == cfg.idLo)
  }

  ghost predicate Silent(buf: Bytes, channel: Bytes) { buf == [] && channel == [] }

  /** Stage by stage: who is where, and which one message is under way. */
  ghost predicate At(x: Wiring, cfg: Config, net: Net, stage: Stage) {
    var (c, s) := (net.client, net.server);
    && Honest(cfg, c)
    && (net.clientClosed ==> c.Returned?)
    && (s.Closed? ==> (s.ok <==> Served(cfg)))
    && (|| stage.Greeting? || stage.Greeted? || stage.Unasked? || (stage.ServerGone? && !cfg.dstOpens)
        || Fits(Request(cfg)))
    && match stage
       case Greeting =>
         && c == AwaitHelloAck && s == AwaitHello
         && InTransit(x.w, Plain(HELLO), net.serverBuf, net.toServer) && Silent(net.clientBuf, net.toClient)
       case Greeted =>
         && c == AwaitHelloAck && s == AwaitReq
         && InTransit(x.w, Plain(HELLO_ACK), net.clientBuf, net.toClient) && Silent(net.serverBuf, net.toServer)
       case Requested =>
         && (Waiting(cfg, c, 0) || Unopened(cfg, c)) && s == AwaitReq
         && InTransit(x.w, Request(cfg), net.serverBuf, net.toServer) && Silent(net.clientBuf, net.toClient)
       case Unasked =>
         && (Waiting(cfg, c, 0) || Unopened(cfg, c)) && s == AwaitReq && !Fits(Request(cfg))
         && Silent(net.serverBuf, net.toServer) && Silent(net.clientBuf, net.toClient)
       case ChunkSent(i) =>
         && cfg.path in cfg.files && s == AwaitAck(JobOf(cfg), i)
         && i < PlanOf(cfg).chunkCount && Start(PlanOf(cfg), i + 1) <= |cfg.files[cfg.path]|
         && (Waiting(cfg, c, i) || (i == 0 && Unopened(cfg, c)))
         && InTransit(x.w, ChunkMessage(JobOf(cfg), i), net.clientBuf, net.toClient)
         && Silent(net.serverBuf, net.toServer)
       case ChunkAcked(i) =>
         && cfg.path in cfg.files && s == AwaitAck(JobOf(cfg), i)
         && i < PlanOf(cfg).chunkCount && Waiting(cfg, c, i + 1)
         && InTransit(x.w, AckMessage(cfg, i), net.serverBuf, net.toServer)
         && Silent(net.clientBuf, net.toClient)
       case Committed =>
         && cfg.path in cfg.files && s == AwaitCommitAck(JobOf(cfg)) && Served(cfg)
         && (Waiting(cfg, c, PlanOf(cfg).chunkCount) || (PlanOf(cfg).chunkCount == 0 && Unopened(cfg, c)))
         && InTransit(x.w, CommitMessage(JobOf(cfg)), net.clientBuf, net.toClient)
         && Silent(net.serverBuf, net.toServer)
       case CommitAcked =>
         && s.AwaitCommitAck? && c.Returned? && Served(cfg)
         && InTransit(x.w, CommitAckMessage(cfg), net.serverBuf, net.toServer)
         && Silent(net.clientBuf, net.toClient)
       case GaveUp(i) =>
         && s.AwaitAck? && s.index == i < PlanOf(cfg).chunkCount && c.Returned? && !Served(cfg)
         && Silent(net.serverBuf, net.toServer) && Silent(net.clientBuf, net.toClient)
       case ServerGone =>
         && s.Closed? && Silent(net.serverBuf, net.toServer)
         && (c.Returned? || HungUp(cfg, c))
         && ((c.Returned? && exists m :: Fits(m) && Named(cfg, m) && InTransit(x.w, m, net.clientBuf, net.toClient))
             || Silent(net.clientBuf, net.toClient))
  }

  // ---- Receiving ----------------------------------------------------------

  lemma ServerReceives(x: Wiring, cfg: Config, net: Net, m: Message, n: nat)
    requires Sound(x) && Fits(m) && InTransit(x.w, m, net.serverBuf, net.toServer)
    requires Enabled(net, ServerRecv(n))
    ensures var net' := Next(x, cfg, net, ServerRecv(n));
      if n < |net.toServer| then
        && InTransit(x.w, m, net'.serverBuf, net'.toServer)
        && net' == net.(serverBuf := net'.serverBuf, toServer := net.toServer[n..])
      else
        var (s, reply) := ServerHandle(cfg.files, net.server, m);
        net' == net.(serverBuf := [], toServer := [], server := s, toClient := net.toClient + Sent(x, reply))
  {
    ReceivePart(x.p, x.w, Fits, m, net.serverBuf, net.toServer, n);
  }

  lemma ClientReceives(x: Wiring, cfg: Config, net: Net, m: Message, n: nat)
    requires Sound(x) && Fits(m) && InTransit(x.w, m, net.clientBuf, net.toClient)
    requires Enabled(net, ClientRecv(n))
    ensures var net' := Next(x, cfg, net, ClientRecv(n));
      if n < |net.toClient| then
        && InTransit(x.w, m, net'.clientBuf, net'.toClient)
        && net' == net.(clientBuf := net'.clientBuf, toClient := net.toClient[n..])
      else
        var (c, reply) := ClientHandle(cfg, net.client, m);
        net' == net.(clientBuf := [], toClient := [], client := c, toServer := net.toServer + Sent(x, reply))
  {
    ReceivePart(x.p, x.w, Fits, m, net.clientBuf, net.toClient, n);
  }

  /** A reply that fits is in transit as soon as it is sent on a silent line. */
  lemma SentInTransit(x: Wiring, m: Message)
    requires Sound(x) && Fits(m)
    ensures InTransit(x.w, m, [], [] + Sent(x, Some(m)))
  {
  }

  // ---- From stage to stage ------------------------------------------------

  /** The chunks of the server's plan, relative to the request. */
  lemma ChunkFacts(cfg: Config, i: nat)
    requires i < PlanOf(cfg).chunkCount
    ensures var p := PlanOf(cfg);
      && Start(p, i) < Start(p, i + 1) <= cfg.length
      && Start(p, i + 1) - Start(p, i) <= F.MAX_PAYLOAD
  {
    StartStep(PlanOf(cfg), i);
  }

  /** A plan without chunks is a request for nothing. */
  lemma NoChunks(cfg: Config)
    ensures PlanOf(cfg).chunkCount == 0 <==> cfg.length == 0
  {
    if PlanOf(cfg).chunkCount > 0 { StartStep(PlanOf(cfg), 0); }
  }

  lemma ShortFails(cfg: Config, i: nat)
    requires cfg.path in cfg.files && i < PlanOf(cfg).chunkCount && Short(cfg, i)
    ensures !Expected(cfg) && !Served(cfg)
  {
    ChunkFacts(cfg, i);
    NoChunks(cfg);
  }

  /** A client that waits for chunk `i` has seen no reason to stop before. */
  lemma WaitingSound(cfg: Config, c: ClientPhase, i: nat, j: nat)
    requires cfg.path in cfg.files && Waiting(cfg, c, i) && j < i
    ensures !StopsAt(cfg, j)
  {
    StartMonotone(PlanOf(cfg), j + 1, i);
  }

  lemma StopsFirst(cfg: Config, c: ClientPhase, i: nat)
    requires cfg.path in cfg.files && Waiting(cfg, c, i) && StopsAt(cfg, i)
    ensures FirstStop(cfg, i)
  {
    forall j | 0 <= j < i ensures !StopsAt(cfg, j) {
      WaitingSound(cfg, c, i, j);
    }
  }

  /** A client that has all chunks can succeed. */
  lemma AllTaken(cfg: Config, c: ClientPhase)
    requires cfg.path in cfg.files && Fits(Request(cfg))
    requires Waiting(cfg, c, PlanOf(cfg).chunkCount) || (PlanOf(cfg).chunkCount == 0 && Unopened(cfg, c))
    ensures Served(cfg)
  {
    NoChunks(cfg);
  }

  /** The server's loop, entered at chunk `i` with the client waiting for it. */
  lemma AtSendNext(x: Wiring, cfg: Config, net: Net, net': Net, i: nat) returns (stage: Stage)
    requires Sound(x) && Fits(Request(cfg)) && cfg.path in cfg.files && i <= PlanOf(cfg).chunkCount
    requires Honest(cfg, net.client) && (net.clientClosed ==> net.client.Returned?)
    requires Waiting(cfg, net.client, i) || (i == 0 && Unopened(cfg, net.client))
    requires Silent(net.clientBuf, net.toClient)
    requires var (s, reply) := SendNext(JobOf(cfg), i);
      net' == net.(serverBuf := [], toServer := [], server := s, toClient := net.toClient + Sent(x, reply))
    ensures At(x, cfg, net', stage)
  {
    var p := PlanOf(cfg);
    if i == p.chunkCount {
      AllTaken(cfg, net.client);
      SentInTransit(x, CommitMessage(JobOf(cfg)));
      stage := Committed;
    } else {
      ChunkFacts(cfg, i);
      if Short(cfg, i) {
        ShortFails(cfg, i);
        stage := ServerGone;
      } else {
        SentInTransit(x, ChunkMessage(JobOf(cfg), i));
        stage := ChunkSent(i);
      }
    }
  }

  lemma WriteAtEnd(content: Bytes, s: nat, e: nat)
    requires s <= e <= |content|
    ensures WriteAt(content[..s], s, content[s..e]) == content[..e]
  {
  }

  /** The next chunk is of use to the client. */
  lemma ClientTakes(cfg: Config, c: ClientPhase, i: nat)
    requires cfg.path in cfg.files && i < PlanOf(cfg).chunkCount && Waiting(cfg, c, i)
    requires Start(PlanOf(cfg), i + 1) <= |cfg.files[cfg.path]| && cfg.offset == 0 && i !in cfg.badWrites
    ensures var (c', reply) := ClientHandle(cfg, c, ChunkMessage(JobOf(cfg), i));
      Waiting(cfg, c', i + 1) && reply == Some(AckMessage(cfg, i))
  {
    var content := cfg.files[cfg.path];
    var s, e := Start(PlanOf(cfg), i), Start(PlanOf(cfg), i + 1);
    ChunkFacts(cfg, i);
    WriteAtEnd(content, s, e);
    assert i == 0 ==> content[..s] == [];
  }

  lemma ClientGivesUp(cfg: Config, c: ClientPhase, i: nat)
    requires cfg.path in cfg.files && i < PlanOf(cfg).chunkCount && Waiting(cfg, c, i)
    requires Start(PlanOf(cfg), i + 1) <= |cfg.files[cfg.path]| && (cfg.offset > 0 || i in cfg.badWrites)
    ensures var (c', reply) := ClientHandle(cfg, c, ChunkMessage(JobOf(cfg), i));
      c'.Returned? && Honest(cfg, c') && reply.None? && !Served(cfg)
  {
    ChunkFacts(cfg, i);
    StopsFirst(cfg, c, i);
    NoChunks(cfg);
  }

  /** The client gets chunk `i`: it takes it or gives up, and which of the two
      is settled by the request. */
  lemma AtChunk(x: Wiring, cfg: Config, net: Net, net': Net, i: nat) returns (stage: Stage)
    requires Sound(x) && At(x, cfg, net, ChunkSent(i)) && Waiting(cfg, net.client, i)
    requires var (c, reply) := ClientHandle(cfg, net.client, ChunkMessage(JobOf(cfg), i));
      net' == net.(clientBuf := [], toClient := [], client := c, toServer := net.toServer + Sent(x, reply))
    ensures At(x, cfg, net', stage)
  {
    if cfg.offset > 0 || i in cfg.badWrites {
      ClientGivesUp(cfg, net.client, i);
      stage := GaveUp(i);
    } else {
      ClientTakes(cfg, net.client, i);
      SentInTransit(x, AckMessage(cfg, i));
      stage := ChunkAcked(i);
    }
  }

  lemma AtCommit(x: Wiring, cfg: Config, net: Net, net': Net)
    requires Sound(x) && At(x, cfg, net, Committed) && !net.client.Returned?
    requires var (c, reply) := ClientHandle(cfg, net.client, CommitMessage(JobOf(cfg)));
      net' == net.(clientBuf := [], toClient := [], client := c, toServer := net.toServer + Sent(x, reply))
    ensures At(x, cfg, net', CommitAcked)
  {
    SentInTransit(x, CommitAckMessage(cfg));
    assert Waiting(cfg, net.client, PlanOf(cfg).chunkCount);
  }

  lemma AtRequest(x: Wiring, cfg: Config, net: Net, net': Net) returns (stage: Stage)
    requires Sound(x) && At(x, cfg, net, Requested)
    requires var (s, reply) := ServerHandle(cfg.files, net.server, Request(cfg));
      net' == net.(serverBuf := [], toServer := [], server := s, toClient := net.toClient + Sent(x, reply))
    ensures At(x, cfg, net', stage)
  {
    ReqRoundTrip(cfg.path, []);
    assert EncodeReq(cfg.path) + [] == EncodeReq(cfg.path);
    if cfg.path in cfg.files {
      stage := AtSendNext(x, cfg, net, net', 0);
    } else {
      assert !Expected(cfg);
      stage := ServerGone;
    }
  }

  lemma ServerStepGreeting(x: Wiring, cfg: Config, net: Net, n: nat) returns (stage': Stage)
    requires Sound(x) && At(x, cfg, net, Greeting) && Enabled(net, ServerRecv(n))
    ensures At(x, cfg, Next(x, cfg, net, ServerRecv(n)), stage')
  {
    ServerReceives(x, cfg, net, Plain(HELLO), n);
    SentInTransit(x, Plain(HELLO_ACK));
    stage' := if n < |net.toServer| then Greeting else Greeted;
  }

  lemma ServerStepRequested(x: Wiring, cfg: Config, net: Net, n: nat) returns (stage': Stage)
    requires Sound(x) && At(x, cfg, net, Requested) && Enabled(net, ServerRecv(n))
    ensures At(x, cfg, Next(x, cfg, net, ServerRecv(n)), stage')
  {
    ServerReceives(x, cfg, net, Request(cfg), n);
    stage' := Requested;
    if n == |net.toServer| { stage' := AtRequest(x, cfg, net, Next(x, cfg, net, ServerRecv(n))); }
  }

  lemma ServerStepAcked(x: Wiring, cfg: Config, net: Net, i: nat, n: nat) returns (stage': Stage)
    requires Sound(x) && At(x, cfg, net, ChunkAcked(i)) && Enabled(net, ServerRecv(n))
    ensures At(x, cfg, Next(x, cfg, net, ServerRecv(n)), stage')
  {
    ServerReceives(x, cfg, net, AckMessage(cfg, i), n);
    stage' := ChunkAcked(i);
    if n == |net.toServer| { stage' := AtAck(x, cfg, net, Next(x, cfg, net, ServerRecv(n)), i); }
  }

  lemma AtAck(x: Wiring, cfg: Config, net: Net, net': Net, i: nat) returns (stage: Stage)
    requires Sound(x) && At(x, cfg, net, ChunkAcked(i))
    requires var (s, reply) := ServerHandle(cfg.files, net.server, AckMessage(cfg, i));
      net' == net.(serverBuf := [], toServer := [], server := s, toClient := net.toClient + Sent(x, reply))
    ensures At(x, cfg, net', stage)
  {
    assert ServerHandle(cfg.files, net.server, AckMessage(cfg, i)) == SendNext(JobOf(cfg), i + 1);
    stage := AtSendNext(x, cfg, net, net', i + 1);
  }

  lemma ServerStepFinal(x: Wiring, cfg: Config, net: Net, n: nat) returns (stage': Stage)
    requires Sound(x) && At(x, cfg, net, CommitAcked) && Enabled(net, ServerRecv(n))
    ensures At(x, cfg, Next(x, cfg, net, ServerRecv(n)), stage')
  {
    ServerReceives(x, cfg, net, CommitAckMessage(cfg), n);
    stage' := if n < |net.toServer| then CommitAcked else ServerGone;
  }

  lemma ServerStep(x: Wiring, cfg: Config, net: Net, stage: Stage, n: nat) returns (stage': Stage)
    requires Sound(x) && At(x, cfg, net, stage) && Enabled(net, ServerRecv(n))
    ensures At(x, cfg, Next(x, cfg, net, ServerRecv(n)), stage')
  {
    match stage {
      case Greeting => stage' := ServerStepGreeting(x, cfg, net, n);
      case Requested => stage' := ServerStepRequested(x, cfg, net, n);
      case ChunkAcked(i) => stage' := ServerStepAcked(x, cfg, net, i, n);
      case CommitAcked => stage' := ServerStepFinal(x, cfg, net, n);
      case _ => assert false;
    }
  }

  lemma ClientStepGreeted(x: Wiring, cfg: Config, net: Net, n: nat) returns (stage': Stage)
    requires Sound(x) && At(x, cfg, net, Greeted) && Enabled(net, ClientRecv(n))
    ensures At(x, cfg, Next(x, cfg, net, ClientRecv(n)), stage')
  {
    ClientReceives(x, cfg, net, Plain(HELLO_ACK), n);
    stage' := Greeted;
    if n == |net.toClient| {
      if Fits(Request(cfg)) {
        SentInTransit(x, Request(cfg));
        stage' := Requested;
      } else {
        stage' := Unasked;
      }
    }
  }

  lemma ClientStepChunk(x: Wiring, cfg: Config, net: Net, i: nat, n: nat) returns (stage': Stage)
    requires Sound(x) && At(x, cfg, net, ChunkSent(i)) && Enabled(net, ClientRecv(n))
    ensures At(x, cfg, Next(x, cfg, net, ClientRecv(n)), stage')
  {
    ClientReceives(x, cfg, net, ChunkMessage(JobOf(cfg), i), n);
    stage' := ChunkSent(i);
    if n == |net.toClient| { stage' := AtChunk(x, cfg, net, Next(x, cfg, net, ClientRecv(n)), i); }
  }

  lemma ClientStepCommit(x: Wiring, cfg: Config, net: Net, n: nat) returns (stage': Stage)
    requires Sound(x) && At(x, cfg, net, Committed) && Enabled(net, ClientRecv(n))
    ensures At(x, cfg, Next(x, cfg, net, ClientRecv(n)), stage')
  {
    ClientReceives(x, cfg, net, CommitMessage(JobOf(cfg)), n);
    stage' := Committed;
    if n == |net.toClient| {
      AtCommit(x, cfg, net, Next(x, cfg, net, ClientRecv(n)));
      stage' := CommitAcked;
    }
  }

  lemma ClientStep(x: Wiring, cfg: Config, net: Net, stage: Stage, n: nat) returns (stage': Stage)
    requires Sound(x) && At(x, cfg, net, stage) && Enabled(net, ClientRecv(n))
    ensures At(x, cfg, Next(x, cfg, net, ClientRecv(n)), stage')
  {
    match stage {
      case Greeted => stage' := ClientStepGreeted(x, cfg, net, n);
      case ChunkSent(i) => stage' := ClientStepChunk(x, cfg, net, i, n);
      case Committed => stage' := ClientStepCommit(x, cfg, net, n);
      case _ => assert false;
    }
  }

  /** The end of the stream is the right error for a client that was hung up on. */
  lemma EofHonest(cfg: Config, c: ClientPhase)
    requires HungUp(cfg, c)
    ensures Honest(cfg, Returned(Some(TransientTransport), ClientFile(c)))
  {
    var i: nat :| Waiting(cfg, c, i) && (cfg.path !in cfg.files || (i < PlanOf(cfg).chunkCount && Short(cfg, i)));
    if cfg.path in cfg.files {
      StopsFirst(cfg, c, i);
      ShortFails(cfg, i);
    }
  }

  /** What the server makes of the end of the stream is right. */
  lemma EofServed(x: Wiring, cfg: Config, net: Net, stage: Stage)
    requires At(x, cfg, net, stage) && Enabled(net, ServerEof)
    ensures net.server.AwaitCommitAck? <==> Served(cfg)
  {
    NoChunks(cfg);
  }

  /** Every step leads from a stage to a stage. */
  lemma Advance(x: Wiring, cfg: Config, net: Net, stage: Stage, step: Step) returns (stage': Stage)
    requires Sound(x) && At(x, cfg, net, stage) && Enabled(net, step)
    ensures At(x, cfg, Next(x, cfg, net, step), stage')
  {
    match step {
      case ServerRecv(n) => stage' := ServerStep(x, cfg, net, stage, n);
      case ClientRecv(n) => stage' := ClientStep(x, cfg, net, stage, n);
      case ClientEof =>
        EofHonest(cfg, net.client);
        stage' := ServerGone;
      case ServerEof =>
        EofServed(x, cfg, net, stage);
        stage' := ServerGone;
      case ClientClose => stage' := stage;
    }
  }

  // ---- Whole runs ---------------------------------------------------------

  ghost predicate CanRun(x: Wiring, cfg: Config, net: Net, steps: seq<Step>)
    requires Sound(x)
    decreases |steps|
  {
    steps == [] || (Enabled(net, steps[0]) && CanRun(x, cfg, Next(x, cfg, net, steps[0]), steps[1..]))
  }

  ghost function After(x: Wiring, cfg: Config, net: Net, steps: seq<Step>): Net
    requires Sound(x) && CanRun(x, cfg, net, steps)
    decreases |steps|
  {
    if steps == [] then net else After(x, cfg, Next(x, cfg, net, steps[0]), steps[1..])
  }

  lemma InitialStage(x: Wiring, cfg: Config)
    requires Sound(x)
    ensures At(x, cfg, Initial(x), Greeting)
  {
    SentInTransit(x, Plain(HELLO));
  }

  /** Both endpoints are done. */
  predicate Done(net: Net) { net.client.Returned? && net.server.Closed? }

  /** The request does not fit in a frame, so that it is never sent, and the
      client goes on to wait for its answer. */
  predicate Unanswerable(cfg: Config) { !Fits(Request(cfg)) && cfg.dstOpens }

  /** Nobody waits for bytes that will never come, unless the request was never
      sent. */
  lemma Progress(x: Wiring, cfg: Config, net: Net, stage: Stage) returns (step: Step)
    requires Sound(x) && At(x, cfg, net, stage) && !Done(net) && !(stage.Unasked? && cfg.dstOpens)
    ensures Enabled(net, step)
  {
    match stage {
      case Greeting => step := ServerRecv(1);
      case Greeted => step := ClientRecv(1);
      case Requested => step := ServerRecv(1);
      case Unasked => step := if net.clientClosed then ServerEof else ClientClose;
      case ChunkSent(i) =>
        step := if !net.client.Returned? then ClientRecv(1) else if net.clientClosed then ServerEof else ClientClose;
      case ChunkAcked(i) => step := ServerRecv(1);
      case Committed =>
        step := if !net.client.Returned? then ClientRecv(1) else if net.clientClosed then ServerEof else ClientClose;
      case CommitAcked => step := ServerRecv(1);
      case GaveUp(i) => step := if net.clientClosed then ServerEof else ClientClose;
      case ServerGone => step := ClientEof;
    }
  }

  // ---- Termination --------------------------------------------------------

  function ClientRank(count: nat, c: ClientPhase): int {
    match c
    case AwaitHelloAck => count + 2
    case Receiving(_, _, expected) => count + 1 - expected
    case Returned(_, _) => 0
  }

  function ServerRank(count: nat, s: ServerPhase): int {
    match s
    case AwaitHello => count + 4
    case AwaitReq => count + 3
    case AwaitAck(_, i) => count + 2 - i
    case AwaitCommitAck(_) => 1
    case Closed(_) => 0
  }

  function Rank(cfg: Config, net: Net): int {
    ClientRank(PlanOf(cfg).chunkCount, net.client) + ServerRank(PlanOf(cfg).chunkCount, net.server)
  }

  /** Messages to come, then bytes under way, then the close. */
  function Measure(cfg: Config, net: Net): int {
    Rank(cfg, net) * (2 * LIMIT + 2) + 2 * (|net.toServer| + |net.toClient|) + (if net.clientClosed then 0 else 1)
  }

  lemma RankNonNegative(x: Wiring, cfg: Config, net: Net, stage: Stage)
    requires At(x, cfg, net, stage)
    ensures ClientRank(PlanOf(cfg).chunkCount, net.client) >= 0
    ensures ServerRank(PlanOf(cfg).chunkCount, net.server) >= 0
    ensures !net.client.Returned? ==> ClientRank(PlanOf(cfg).chunkCount, net.client) >= 1
    ensures !net.server.Closed? ==> ServerRank(PlanOf(cfg).chunkCount, net.server) >= 1
  {
  }

  lemma SentBounded(x: Wiring, m: Option<Message>)
    requires Sound(x)
    ensures |Sent(x, m)| <= LIMIT
  {
  }

  lemma ServerRankFalls(x: Wiring, cfg: Config, net: Net, stage: Stage, n: nat)
    requires Sound(x) && At(x, cfg, net, stage) && Enabled(net, ServerRecv(n))
    ensures Measure(cfg, Next(x, cfg, net, ServerRecv(n))) < Measure(cfg, net)
  {
    var m := match stage
      case Greeting => Plain(HELLO)
      case Requested => Request(cfg)
      case ChunkAcked(i) => AckMessage(cfg, i)
      case CommitAcked => CommitAckMessage(cfg)
      case _ => Plain(HELLO);
    assert InTransit(x.w, m, net.serverBuf, net.toServer);
    ServerReceives(x, cfg, net, m, n);
    if n == |net.toServer| {
      var (s, reply) := ServerHandle(cfg.files, net.server, m);
      SentBounded(x, reply);
      ServerHandleFalls(x, cfg, net, stage, m);
    }
  }

  lemma ServerHandleFalls(x: Wiring, cfg: Config, net: Net, stage: Stage, m: Message)
    requires At(x, cfg, net, stage)
    requires stage.Greeting? || stage.Requested? || stage.ChunkAcked? || stage.CommitAcked?
    requires stage.Greeting? ==> m == Plain(HELLO)
    requires stage.Requested? ==> m == Request(cfg)
    requires stage.ChunkAcked? ==> m == AckMessage(cfg, stage.i)
    requires stage.CommitAcked? ==> m == CommitAckMessage(cfg)
    ensures var count := PlanOf(cfg).chunkCount;
      ServerRank(count, ServerHandle(cfg.files, net.server, m).0) < ServerRank(count, net.server)
  {
    if stage.Requested? {
      ReqRoundTrip(cfg.path, []);
      assert EncodeReq(cfg.path) + [] == EncodeReq(cfg.path);
    }
  }

  lemma ClientHandleFalls(x: Wiring, cfg: Config, net: Net, stage: Stage, m: Message)
    requires At(x, cfg, net, stage) && !net.client.Returned?
    requires stage.Greeted? || stage.ChunkSent? || stage.Committed?
    requires stage.Greeted? ==> m == Plain(HELLO_ACK)
    requires stage.ChunkSent? ==> m == ChunkMessage(JobOf(cfg), stage.i)
    requires stage.Committed? ==> m == CommitMessage(JobOf(cfg))
    ensures var count := PlanOf(cfg).chunkCount;
      ClientRank(count, ClientHandle(cfg, net.client, m).0) < ClientRank(count, net.client)
  {
  }

  lemma ClientRankFalls(x: Wiring, cfg: Config, net: Net, stage: Stage, n: nat)
    requires Sound(x) && At(x, cfg, net, stage) && Enabled(net, ClientRecv(n))
    ensures Measure(cfg, Next(x, cfg, net, ClientRecv(n))) < Measure(cfg, net)
  {
    var m := match stage
      case Greeted => Plain(HELLO_ACK)
      case ChunkSent(i) => ChunkMessage(JobOf(cfg), i)
      case Committed => CommitMessage(JobOf(cfg))
      case _ => Plain(HELLO);
    assert InTransit(x.w, m, net.clientBuf, net.toClient);
    if stage.ChunkSent? { ChunkFacts(cfg, stage.i); }
    ClientReceives(x, cfg, net, m, n);
    if n == |net.toClient| {
      var (c, reply) := ClientHandle(cfg, net.client, m);
      SentBounded(x, reply);
      ClientHandleFalls(x, cfg, net, stage, m);
    }
  }

  /** Every step uses something up. */
  lemma MeasureFalls(x: Wiring, cfg: Config, net: Net, stage: Stage, step: Step)
    requires Sound(x) && At(x, cfg, net, stage) && Enabled(net, step)
    ensures 0 <= Measure(cfg, Next(x, cfg, net, step)) < Measure(cfg, net)
  {
    var stage' := Advance(x, cfg, net, stage, step);
    RankNonNegative(x, cfg, net, stage);
    RankNonNegative(x, cfg, Next(x, cfg, net, step), stage');
    match step {
      case ServerRecv(n) => ServerRankFalls(x, cfg, net, stage, n);
      case ClientRecv(n) => ClientRankFalls(x, cfg, net, stage, n);
      case _ =>
    }
  }

  lemma {:induction false} RunStages(x: Wiring, cfg: Config, net: Net, stage: Stage, steps: seq<Step>)
    returns (stage': Stage)
    requires Sound(x) && At(x, cfg, net, stage) && CanRun(x, cfg, net, steps)
    ensures At(x, cfg, After(x, cfg, net, steps), stage')
    ensures |steps| <= Measure(cfg, net)
    decreases |steps|
  {
    if steps == [] {
      stage' := stage;
      RankNonNegative(x, cfg, net, stage);
    } else {
      var next := Advance(x, cfg, net, stage, steps[0]);
      MeasureFalls(x, cfg, net, stage, steps[0]);
      stage' := RunStages(x, cfg, Next(x, cfg, net, steps[0]), next, steps[1..]);
    }
  }

  // ---- What the protocol guarantees ---------------------------------------

  /** The unconsumed bytes, in channels and decoder buffers together, are none
      or one frame on its way in one direction, and that frame is named. */
  ghost predicate AtMostOneFrame(x: Wiring, cfg: Config, net: Net) {
    || (Silent(net.serverBuf, net.toServer) && Silent(net.clientBuf, net.toClient))
    || (Silent(net.clientBuf, net.toClient)
        && exists m :: Fits(m) && Named(cfg, m) && InTransit(x.w, m, net.serverBuf, net.toServer))
    || (Silent(net.serverBuf, net.toServer)
        && exists m :: Fits(m) && Named(cfg, m) && InTransit(x.w, m, net.clientBuf, net.toClient))
  }

  lemma StageOneFrame(x: Wiring, cfg: Config, net: Net, stage: Stage)
    requires At(x, cfg, net, stage)
    ensures AtMostOneFrame(x, cfg, net)
  {
    match stage {
      case Greeting => assert Fits(Plain(HELLO)) && Named(cfg, Plain(HELLO));
      case Greeted => assert Fits(Plain(HELLO_ACK)) && Named(cfg, Plain(HELLO_ACK));
      case Requested => assert Named(cfg, Request(cfg));
      case Unasked =>
      case ChunkSent(i) =>
        ChunkFacts(cfg, i);
        assert Fits(ChunkMessage(JobOf(cfg), i)) && Named(cfg, ChunkMessage(JobOf(cfg), i));
      case ChunkAcked(i) => assert Fits(AckMessage(cfg, i)) && Named(cfg, AckMessage(cfg, i));
      case Committed => assert Fits(CommitMessage(JobOf(cfg))) && Named(cfg, CommitMessage(JobOf(cfg)));
      case CommitAcked => assert Fits(CommitAckMessage(cfg)) && Named(cfg, CommitAckMessage(cfg));
      case GaveUp(i) =>
      case ServerGone =>
    }
  }

  /** Over every run of every request: at most one frame is unconsumed, and it
      carries the id of the transfer unless it is a greeting; the run
      is bounded and, unless the request cannot be sent, somebody can act until
      both sides are done; a client that has returned reports success exactly
      for the requests that can succeed, with the first `length` bytes of the
      source in its file, and otherwise the error of the first thing that goes
      wrong; and a server that has closed reports success exactly for the
      requests it has served. */
  lemma TransferCorrect(x: Wiring, cfg: Config, steps: seq<Step>)
    requires Sound(x) && CanRun(x, cfg, Initial(x), steps)
    ensures var net := After(x, cfg, Initial(x), steps);
      && AtMostOneFrame(x, cfg, net)
      && |steps| <= Measure(cfg, Initial(x))
      && (Done(net) || (exists step :: Enabled(net, step)) || Unanswerable(cfg))
      && (net.client.Returned? ==> (net.client.error.None? <==> Expected(cfg)))
      && (net.client.Returned? && net.client.error.None? ==>
            net.client.file == cfg.files[cfg.path][..cfg.length])
      && (net.client.Returned? && net.client.error.Some? ==> RightError(cfg, net.client.error.value))
      && (net.server.Closed? ==> (net.server.ok <==> Served(cfg)))
  {
    InitialStage(x, cfg);
    var stage := RunStages(x, cfg, Initial(x), Greeting, steps);
    var net := After(x, cfg, Initial(x), steps);
    StageOneFrame(x, cfg, net, stage);
    if !Done(net) && !(stage.Unasked? && cfg.dstOpens) { var step := Progress(x, cfg, net, stage); }
  }

  /** Somebody still waits and nobody can act. */
  ghost predicate Stuck(net: Net) { !Done(net) && forall step :: !Enabled(net, step) }

  ghost predicate CanStall(x: Wiring, cfg: Config)
    requires Sound(x)
  {
    exists steps :: CanRun(x, cfg, Initial(x), steps) && Stuck(After(x, cfg, Initial(x), steps))
  }

  /** Every conversation can be carried on until nobody can act. */
  lemma {:induction false} RunOut(x: Wiring, cfg: Config, net: Net, stage: Stage)
    returns (steps: seq<Step>, stage': Stage)
    requires Sound(x) && At(x, cfg, net, stage)
    ensures CanRun(x, cfg, net, steps)
    ensures var end := After(x, cfg, net, steps);
      At(x, cfg, end, stage') && forall step :: !Enabled(end, step)
    decreases Measure(cfg, net)
  {
    if exists step :: Enabled(net, step) {
      var step :| Enabled(net, step);
      MeasureFalls(x, cfg, net, stage, step);
      var next := Advance(x, cfg, net, stage, step);
      var rest;
      rest, stage' := RunOut(x, cfg, Next(x, cfg, net, step), next);
      steps := [step] + rest;
      assert steps[0] == step && steps[1..] == rest;
    } else {
      steps, stage' := [], stage;
    }
  }

  /** A client that waits for the answer to a request it never sent does not
      return. */
  lemma UnanswerableWaits(x: Wiring, cfg: Config, net: Net, stage: Stage)
    requires At(x, cfg, net, stage) && Unanswerable(cfg)
    ensures !Done(net)
  {
  }

  /** A conversation can get stuck if and only if the request does not fit in a
      frame and the destination opens. */
  lemma StallsIffUnanswerable(x: Wiring, cfg: Config)
    requires Sound(x)
    ensures CanStall(x, cfg) <==> Unanswerable(cfg)
  {
    InitialStage(x, cfg);
    if Unanswerable(cfg) {
      var steps, stage := RunOut(x, cfg, Initial(x), Greeting);
      UnanswerableWaits(x, cfg, After(x, cfg, Initial(x), steps), stage);
      assert Stuck(After(x, cfg, Initial(x), steps));
    }
    forall steps | CanRun(x, cfg, Initial(x), steps) && Stuck(After(x, cfg, Initial(x), steps))
      ensures Unanswerable(cfg)
    {
      TransferCorrect(x, cfg, steps);
    }
  }

  // ---- The frame format as the wiring -------------------------------------

  ghost function FrameParse(b: Bytes): Parsed<Message> {
    match F.Parse(b)
    case NeedMore => NeedMore
    case Bad(e) => Bad(e)
    case Got(f, n) => Got(F.Message(f.header, f.payload), n)
  }

  ghost function FrameWire(m: Message): Bytes { F.Wire(m.header, m.payload) }

  ghost function Frames(): Wiring { Wiring(FrameParse, FrameWire) }

  lemma FrameParseFinal()
    ensures Final(FrameParse)
  {
    forall b: Bytes, more: Bytes | !FrameParse(b).NeedMore? ensures FrameParse(b + more) == FrameParse(b) {
      F.ParseStable(b, more);
    }
  }

  lemma FrameReadBack(m: Message)
    requires Fits(m)
    ensures FrameWire(m) != [] && FrameParse(FrameWire(m)) == Got(m, |FrameWire(m)|) && |FrameWire(m)| <= LIMIT
  {
    F.ParseWire(m.header, m.payload, []);
    assert FrameWire(m) + [] == FrameWire(m);
  }

  /** The protocol runs on the real frames. */
  lemma FramesSound()
    ensures Sound(Frames())
  {
    FrameParseFinal();
    forall m: Message | Fits(m)
      ensures FrameWire(m) != [] && FrameParse(FrameWire(m)) == Got(m, |FrameWire(m)|) && |FrameWire(m)| <= LIMIT
    {
      FrameReadBack(m);
    }
    forall m: Message, k | Fits(m) && 0 <= k < |FrameWire(m)|
      ensures FrameParse(FrameWire(m)[..k]) == NeedMore
    {
      F.ParsePartial(m.header, m.payload, k);
    }
  }
}
