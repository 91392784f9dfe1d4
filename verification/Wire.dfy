/** The backend side of one client's connection after TLS: messages parsed out of a byte buffer, and the
    authentication machine they drive. */
module Wire {
  import opened Wrappers
  import S = Scram

  type byte = x: int | 0 <= x < 256

  const MAX_MESSAGE := 16 * 1024 * 1024
  const SCRAM_SHA_256: seq<byte> := [83, 67, 82, 65, 77, 45, 83, 72, 65, 45, 50, 53, 54]

  datatype Error =
    | MessageLengthInvalid
    | PostgresError(state: seq<byte>)
    | SampleRowInvalid | SampleValueInvalid
    | TransactionStateInvalid | ReadyBeforeAuthentication
    | AuthenticationMessageInvalid | AuthenticationMethodChanged | AuthenticationWithoutChallenge
    | AuthenticationOkMalformed | AuthenticationOkRepeated | MethodUnsupported(code: int)
    | CleartextChallengeMalformed | CleartextRequiresVerifiedTls
    | ScramRequiresVerifiedTls | SaslChallengeMalformed | ScramUnavailable | ScramSequenceInvalid
    | ScramServerSignatureMissing | Scram(e: S.Error) | NotText

  datatype AuthMethod = NoMethod | Cleartext | ScramSha256

  datatype Query = NoQuery | Pending | Answered

  /** What the client sent back. */
  datatype Reply = Password | ScramInitial | ScramProof(proof: string)

  /** The deployment's part: hashes, the account, text decoding, and whether TLS was verified. */
  datatype Context = Context(crypto: S.Crypto, account: S.Account, text: seq<byte> -> Option<string>, tlsVerified: bool)

  /** The client, and as history the authentication messages it accepted. */
  datatype Client = Client(
    auth: AuthMethod, signature: Option<S.Bytes>, finalVerified: bool, authenticationOk: bool, ready: bool,
    query: Query, backendPid: int, sent: seq<Reply>, accepted: seq<seq<byte>>, failed: Option<Error>)

  /** Big-endian, as `struct.unpack` reads it. */
  function U32(b: seq<byte>): (n: int)
    requires |b| == 4
    ensures 0 <= n < 0x1_0000_0000
  {
    var n0: int, n1: int, n2: int, n3: int := b[0], b[1], b[2], b[3];
    ((n0 * 256 + n1) * 256 + n2) * 256 + n3
  }

  function Fail(c: Client, e: Error): Client
  {
    c.(failed := Some(e))
  }

  function Accept(c: Client, body: seq<byte>): Client
  {
    c.(accepted := c.accepted + [body])
  }

  function SplitBytes(s: seq<byte>, at: byte): (parts: seq<seq<byte>>)
    ensures |parts| > 0
  {
    if s == [] then [[]]
    else
      var rest := SplitBytes(s[1..], at);
      if s[0] == at then [[]] + rest else [[s[0]] + rest[0]] + rest[1..]
  }

  predicate EndsWith(s: seq<byte>, suffix: seq<byte>)
  {
    |suffix| <= |s| && s[|s| - |suffix|..] == suffix
  }

  // ---------- authentication ----------

  function OnCleartext(x: Context, c: Client, body: seq<byte>): Client
  {
    if |body| != 4 then Fail(c, CleartextChallengeMalformed)
    else if !x.tlsVerified then Fail(c, CleartextRequiresVerifiedTls)
    else if c.auth != NoMethod then Fail(c, AuthenticationMethodChanged)
    else Accept(c.(auth := Cleartext, sent := c.sent + [Password]), body)
  }

  function OnSasl(x: Context, c: Client, body: seq<byte>): Client
    requires |body| >= 4
  {
    var offered := body[4..];
    if !x.tlsVerified then Fail(c, ScramRequiresVerifiedTls)
    else if c.auth != NoMethod then Fail(c, AuthenticationMethodChanged)
    else if !EndsWith(offered, [0, 0]) then Fail(c, SaslChallengeMalformed)
    else
      var mechanisms := SplitBytes(offered[..|offered| - 2], 0);
      if [] in mechanisms then Fail(c, SaslChallengeMalformed)
      else if SCRAM_SHA_256 !in mechanisms then Fail(c, ScramUnavailable)
      else Accept(c.(auth := ScramSha256, sent := c.sent + [ScramInitial]), body)
  }

  function OnSaslContinue(x: Context, c: Client, body: seq<byte>): Client
    requires |body| >= 4
  {
    if c.auth != ScramSha256 || c.signature.Some? then Fail(c, ScramSequenceInvalid)
    else if x.text(body[4..]).None? then Fail(c, NotText)
    else
      var first := x.text(body[4..]).value;
      match S.ReadChallenge(x.crypto, x.account, first)
      case Err(e) => Fail(c, Scram(e))
      case Ok(challenge) =>
        var key := x.crypto.derive(x.account.password, challenge.salt, challenge.iterations);
        var signature := S.ServerSignature(x.crypto, x.account, first, challenge);
        Accept(c.(signature := Some(signature),
                  sent := c.sent + [ScramProof(x.crypto.proof(key, S.AuthMessage(x.account, first, challenge)))]), body)
  }

  function OnSaslFinal(x: Context, c: Client, body: seq<byte>): Client
    requires |body| >= 4
  {
    if c.auth != ScramSha256 || c.finalVerified then Fail(c, ScramSequenceInvalid)
    else if x.text(body[4..]).None? then Fail(c, NotText)
    else
      match S.ReadFinal(x.crypto, x.text(body[4..]).value)
      case Err(e) => Fail(c, Scram(e))
      case Ok(signature) =>
        if c.signature != Some(signature) then Fail(c, Scram(S.ServerSignatureInvalid))
        else Accept(c.(finalVerified := true), body)
  }

  function OnAuthenticationOk(c: Client, body: seq<byte>): Client
  {
    if |body| != 4 then Fail(c, AuthenticationOkMalformed)
    else if c.authenticationOk then Fail(c, AuthenticationOkRepeated)
    else if c.auth == NoMethod then Fail(c, AuthenticationWithoutChallenge)
    else if c.auth == ScramSha256 && !c.finalVerified then Fail(c, ScramServerSignatureMissing)
    else Accept(c.(authenticationOk := true), body)
  }

  function Authenticate(x: Context, c: Client, body: seq<byte>): Client
  {
    if |body| < 4 then Fail(c, AuthenticationMessageInvalid)
    else
      var code := U32(body[..4]);
      if code == 3 then OnCleartext(x, c, body)
      else if code == 10 then OnSasl(x, c, body)
      else if code == 11 then OnSaslContinue(x, c, body)
      else if code == 12 then OnSaslFinal(x, c, body)
      else if code == 0 then OnAuthenticationOk(c, body)
      else Fail(c, MethodUnsupported(code))
  }

  // ---------- messages ----------

  /** The last field of an ErrorResponse that carries a five-character code. */
  function SqlState(fields: seq<seq<byte>>, code: seq<byte>): seq<byte>
  {
    if fields == [] then code
    else SqlState(fields[1..], if |fields[0]| == 6 && fields[0][0] == 67 then fields[0][1..] else code)
  }

  function OnDataRow(c: Client, body: seq<byte>): Client
  {
    if |body| < 7 || body[..2] != [0, 1] then Fail(c, SampleRowInvalid)
    else if U32(body[2..6]) != 1 || body[6] != 49 then Fail(c, SampleValueInvalid)
    else c
  }

  function OnReady(c: Client, body: seq<byte>): Client
  {
    if body != [73] then Fail(c, TransactionStateInvalid)
    else if !c.ready then
      if !c.authenticationOk then Fail(c, ReadyBeforeAuthentication) else c.(ready := true)
    else if c.query == Pending then c.(query := Answered)
    else c
  }

  function Handle(x: Context, c: Client, kind: byte, body: seq<byte>): Client
  {
    if kind == 82 then Authenticate(x, c, body)
    else if kind == 75 && |body| == 8 then c.(backendPid := U32(body[..4]))
    else if kind == 69 then Fail(c, PostgresError(SqlState(SplitBytes(body, 0), [])))
    else if kind == 68 && c.query != NoQuery then OnDataRow(c, body)
    else if kind == 90 then OnReady(c, body)
    else c
  }

  // ---------- the buffer ----------

  /** A client, the bytes it has still to parse, and as history every message it handled: kind, body. */
  datatype Connection = Connection(client: Client, buffer: seq<byte>, handled: seq<(byte, seq<byte>)>)

  predicate HasMessage(b: seq<byte>)
  {
    |b| >= 5 && 4 <= U32(b[1..5]) <= MAX_MESSAGE && |b| >= U32(b[1..5]) + 1
  }

  /** The first message of the buffer is taken out of it and handled. */
  function HandleFirst(x: Context, s: Connection): (r: Connection)
    requires HasMessage(s.buffer)
    ensures |r.buffer| < |s.buffer|
  {
    var b := s.buffer;
    var size := U32(b[1..5]);
    Connection(Handle(x, s.client, b[0], b[5..size + 1]), b[size + 1..], s.handled + [(b[0], b[5..size + 1])])
  }

  /** `_parse_messages`: every whole message in the buffer is handled, up to the first failure. */
  function Drain(x: Context, s: Connection): Connection
    decreases |s.buffer|
  {
    var b := s.buffer;
    if s.client.failed.Some? || |b| < 5 then s
    else
      var size := U32(b[1..5]);
      if size < 4 || size > MAX_MESSAGE then s.(client := Fail(s.client, MessageLengthInvalid))
      else if |b| < size + 1 then s
      else Drain(x, HandleFirst(x, s))
  }

  /** `data_received`; a connection that failed was aborted and receives nothing more. */
  function Receive(x: Context, s: Connection, data: seq<byte>): Connection
  {
    if s.client.failed.Some? then s else Drain(x, s.(buffer := s.buffer + data))
  }

  function ReceiveAll(x: Context, s: Connection, chunks: seq<seq<byte>>): Connection
    decreases |chunks|
  {
    if chunks == [] then s else ReceiveAll(x, Receive(x, s, chunks[0]), chunks[1..])
  }

  function Concat(chunks: seq<seq<byte>>): seq<byte>
  {
    if chunks == [] then [] else chunks[0] + Concat(chunks[1..])
  }

  // ---------- the client as an object ----------

  class PostgresClient {
    const context: Context
    var buffer: seq<byte>
    var auth: AuthMethod
    var signature: Option<S.Bytes>
    var finalVerified: bool
    var authenticationOk: bool
    var ready: bool
    var query: Query
    var backendPid: int
    var sent: seq<Reply>
    var failed: Option<Error>
    ghost var accepted: seq<seq<byte>>
    ghost var handled: seq<(byte, seq<byte>)>

    constructor (context: Context)
      ensures this.context == context && View() == Connection(Client(NoMethod, None, false, false, false, NoQuery, 0, [], [], None), [], [])
    {
      this.context := context;
      buffer, auth, signature, finalVerified, authenticationOk, ready := [], NoMethod, None, false, false, false;
      query, backendPid, sent, failed, accepted, handled := NoQuery, 0, [], None, [], [];
    }

    ghost function State(): Client
      reads this
    {
      Client(auth, signature, finalVerified, authenticationOk, ready, query, backendPid, sent, accepted, failed)
    }

    ghost function View(): Connection
      reads this
    {
      Connection(State(), buffer, handled)
    }

    method StartScram(body: seq<byte>)
      requires |body| >= 4
      modifies this
      ensures buffer == old(buffer) && handled == old(handled) && State() == OnSasl(context, old(State()), body)
    {
      if !context.tlsVerified { failed := Some(ScramRequiresVerifiedTls); return; }
      if auth != NoMethod { failed := Some(AuthenticationMethodChanged); return; }
      var offered := body[4..];
      if !EndsWith(offered, [0, 0]) { failed := Some(SaslChallengeMalformed); return; }
      var mechanisms := SplitBytes(offered[..|offered| - 2], 0);
      if [] in mechanisms { failed := Some(SaslChallengeMalformed); return; }
      if SCRAM_SHA_256 !in mechanisms { failed := Some(ScramUnavailable); return; }
      auth, sent, accepted := ScramSha256, sent + [ScramInitial], accepted + [body];
    }

    method ContinueScram(body: seq<byte>)
      requires |body| >= 4
      modifies this
      ensures buffer == old(buffer) && handled == old(handled) && State() == OnSaslContinue(context, old(State()), body)
    {
      if auth != ScramSha256 || signature.Some? { failed := Some(ScramSequenceInvalid); return; }
      var text := context.text(body[4..]);
      if text.None? { failed := Some(NotText); return; }
      var first := text.value;
      var challenge := S.ReadChallenge(context.crypto, context.account, first);
      if challenge.Err? { failed := Some(Scram(challenge.error)); return; }
      var key := context.crypto.derive(context.account.password, challenge.value.salt, challenge.value.iterations);
      signature := Some(S.ServerSignature(context.crypto, context.account, first, challenge.value));
      sent := sent + [ScramProof(context.crypto.proof(key, S.AuthMessage(context.account, first, challenge.value)))];
      accepted := accepted + [body];
    }

    method FinishScram(body: seq<byte>)
      requires |body| >= 4
      modifies this
      ensures buffer == old(buffer) && handled == old(handled) && State() == OnSaslFinal(context, old(State()), body)
    {
      if auth != ScramSha256 || finalVerified { failed := Some(ScramSequenceInvalid); return; }
      var text := context.text(body[4..]);
      if text.None? { failed := Some(NotText); return; }
      var received := S.ReadFinal(context.crypto, text.value);
      if received.Err? { failed := Some(Scram(received.error)); return; }
      if signature != Some(received.value) { failed := Some(Scram(S.ServerSignatureInvalid)); return; }
      finalVerified, accepted := true, accepted + [body];
    }

    method Authentication(body: seq<byte>)
      modifies this
      ensures buffer == old(buffer) && handled == old(handled) && State() == Authenticate(context, old(State()), body)
    {
      if |body| < 4 { failed := Some(AuthenticationMessageInvalid); return; }
      var code := U32(body[..4]);
      if code == 3 {
        if |body| != 4 { failed := Some(CleartextChallengeMalformed); return; }
        if !context.tlsVerified { failed := Some(CleartextRequiresVerifiedTls); return; }
        if auth != NoMethod { failed := Some(AuthenticationMethodChanged); return; }
        auth, sent, accepted := Cleartext, sent + [Password], accepted + [body];
      } else if code == 10 {
        StartScram(body);
      } else if code == 11 {
        ContinueScram(body);
      } else if code == 12 {
        FinishScram(body);
      } else if code == 0 {
        if |body| != 4 { failed := Some(AuthenticationOkMalformed); return; }
        if authenticationOk { failed := Some(AuthenticationOkRepeated); return; }
        if auth == NoMethod { failed := Some(AuthenticationWithoutChallenge); return; }
        if auth == ScramSha256 && !finalVerified { failed := Some(ScramServerSignatureMissing); return; }
        authenticationOk, accepted := true, accepted + [body];
      } else {
        failed := Some(MethodUnsupported(code));
      }
    }

    method HandleMessage(kind: byte, body: seq<byte>)
      modifies this
      ensures buffer == old(buffer) && handled == old(handled) && State() == Handle(context, old(State()), kind, body)
    {
      if kind == 82 {
        Authentication(body);
      } else if kind == 75 && |body| == 8 {
        backendPid := U32(body[..4]);
      } else if kind == 69 {
        failed := Some(PostgresError(SqlState(SplitBytes(body, 0), [])));
      } else if kind == 68 && query != NoQuery {
        if |body| < 7 || body[..2] != [0, 1] {
          failed := Some(SampleRowInvalid);
        } else if U32(body[2..6]) != 1 || body[6] != 49 {
          failed := Some(SampleValueInvalid);
        }
      } else if kind == 90 {
        if body != [73] {
          failed := Some(TransactionStateInvalid);
        } else if !ready {
          if !authenticationOk { failed := Some(ReadyBeforeAuthentication); } else { ready := true; }
        } else if query == Pending {
          query := Answered;
        }
      }
    }

    method ParseMessages()
      requires failed.None?
      modifies this
      ensures View() == Drain(context, old(View()))
    {
      ghost var start := View();
      while failed.None? && |buffer| >= 5
        invariant Drain(context, View()) == Drain(context, start)
        decreases |buffer|
      {
        var size := U32(buffer[1..5]);
        if size < 4 || size > MAX_MESSAGE {
          failed := Some(MessageLengthInvalid);
          return;
        }
        if |buffer| < size + 1 { return; }
        ghost var before := View();
        var kind, body := buffer[0], buffer[5..size + 1];
        buffer := buffer[size + 1..];
        handled := handled + [(kind, body)];
        HandleMessage(kind, body);
        assert View() == HandleFirst(context, before);
      }
    }

    method DataReceived(data: seq<byte>)
      requires failed.None?
      modifies this
      ensures View() == Receive(context, old(View()), data)
    {
      buffer := buffer + data;
      ParseMessages();
    }
  }
}
