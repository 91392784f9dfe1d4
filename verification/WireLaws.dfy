/** What the wire parser and the authentication machine promise for every byte stream, however it arrives. */
module WireLaws {
  import opened Wrappers
  import opened Wire
  import S = Scram

  // ---------- chunks ----------

  /** The same messages handled, to the same client; and the same bytes left over, unless the connection
      failed and was aborted. */
  predicate Same(s: Connection, t: Connection)
  {
    s.handled == t.handled && s.client == t.client && (s.client.failed.None? ==> s.buffer == t.buffer)
  }

  lemma Slices(b: seq<byte>, more: seq<byte>, i: nat, j: nat)
    requires i <= j <= |b|
    ensures (b + more)[i..j] == b[i..j] && (b + more)[j..] == b[j..] + more
  {
  }

  lemma TheFirstStaysFirst(x: Context, s: Connection, more: seq<byte>)
    requires HasMessage(s.buffer)
    ensures HasMessage(s.buffer + more)
    ensures var next := HandleFirst(x, s); HandleFirst(x, s.(buffer := s.buffer + more)) == next.(buffer := next.buffer + more)
  {
    Slices(s.buffer, more, 1, 5);
    Slices(s.buffer, more, 5, U32(s.buffer[1..5]) + 1);
  }

  /** Draining a buffer that grows afterwards is draining the grown buffer at once. */
  lemma {:induction false} DrainInTwo(x: Context, s: Connection, more: seq<byte>)
    ensures Same(Drain(x, s.(buffer := s.buffer + more)), Receive(x, Drain(x, s), more))
    decreases |s.buffer|
  {
    var b := s.buffer;
    if s.client.failed.None? && |b| >= 5 {
      Slices(b, more, 1, 5);
      var size := U32(b[1..5]);
      if 4 <= size <= MAX_MESSAGE && |b| >= size + 1 {
        TheFirstStaysFirst(x, s, more);
        DrainInTwo(x, HandleFirst(x, s), more);
      }
    }
  }

  /** A drained connection has no whole message left, unless it failed. */
  predicate Drained(s: Connection)
  {
    s.client.failed.Some? || !(|s.buffer| >= 5) || (4 <= U32(s.buffer[1..5]) <= MAX_MESSAGE && |s.buffer| < U32(s.buffer[1..5]) + 1)
  }

  lemma {:induction false} DrainDrains(x: Context, s: Connection)
    ensures Drained(Drain(x, s))
    decreases |s.buffer|
  {
    var b := s.buffer;
    if s.client.failed.None? && |b| >= 5 {
      var size := U32(b[1..5]);
      if 4 <= size <= MAX_MESSAGE && |b| >= size + 1 {
        DrainDrains(x, HandleFirst(x, s));
      }
    }
  }

  /** However a stream is cut into chunks, the client handles the same messages, up to the first failure, and
      ends as if the stream had come whole. */
  lemma {:induction false} ChunksDoNotMatter(x: Context, s: Connection, chunks: seq<seq<byte>>)
    requires Drained(s)
    ensures Same(ReceiveAll(x, s, chunks), Receive(x, s, Concat(chunks)))
    decreases |chunks|
  {
    if chunks == [] {
      assert s.buffer + [] == s.buffer;
    } else {
      var t := Receive(x, s, chunks[0]);
      if s.client.failed.None? {
        DrainDrains(x, s.(buffer := s.buffer + chunks[0]));
        DrainInTwo(x, s.(buffer := s.buffer + chunks[0]), Concat(chunks[1..]));
        assert s.buffer + chunks[0] + Concat(chunks[1..]) == s.buffer + Concat(chunks);
      }
      ChunksDoNotMatter(x, t, chunks[1..]);
    }
  }

  // ---------- framing ----------

  function Bytes4(n: nat): (b: seq<byte>)
    requires n < 0x1_0000_0000
    ensures |b| == 4
  {
    [n / 0x100_0000, n / 0x1_0000 % 256, n / 256 % 256, n % 256]
  }

  /** `_message`: a kind, the length that counts itself, and the body. */
  function Message(kind: byte, body: seq<byte>): (b: seq<byte>)
    requires |body| + 4 <= MAX_MESSAGE
    ensures |b| == |body| + 5
  {
    [kind] + Bytes4(|body| + 4) + body
  }

  lemma DigitsRoundTrip(n: nat)
    requires n < 0x1_0000_0000
    ensures U32(Bytes4(n)) == n
  {
    var a, b, c := n / 256, n / 0x1_0000, n / 0x100_0000;
    assert b == a / 256 && c == b / 256;
    assert n == a * 256 + n % 256 && a == b * 256 + a % 256 && b == c * 256 + b % 256;
    assert n / 256 % 256 == a % 256 && n / 0x1_0000 % 256 == b % 256;
  }

  /** A framed message at the head of a buffer is read back exactly: its kind, its body, and nothing of what
      follows it. */
  lemma FramesAreReadBack(x: Context, s: Connection, kind: byte, body: seq<byte>, rest: seq<byte>)
    requires |body| + 4 <= MAX_MESSAGE && s.client.failed.None? && s.buffer == Message(kind, body) + rest
    ensures Drain(x, s) == Drain(x, Connection(Handle(x, s.client, kind, body), rest, s.handled + [(kind, body)]))
  {
    var b := s.buffer;
    var size := |body| + 4;
    DigitsRoundTrip(size);
    assert b[1..5] == Bytes4(size);
    assert b[5..size + 1] == body && b[size + 1..] == rest && b[0] == kind;
  }

  predicate Framable(ms: seq<(byte, seq<byte>)>)
  {
    forall i | 0 <= i < |ms| :: |ms[i].1| + 4 <= MAX_MESSAGE
  }

  function Framed(ms: seq<(byte, seq<byte>)>): seq<byte>
    requires Framable(ms)
    decreases |ms|
  {
    if ms == [] then [] else Message(ms[0].0, ms[0].1) + Framed(ms[1..])
  }

  /** The client and the messages it is given one by one, until it fails. */
  function HandleEach(x: Context, c: Client, ms: seq<(byte, seq<byte>)>): (r: (Client, seq<(byte, seq<byte>)>))
    ensures r.1 <= ms && (r.0.failed.None? ==> r.1 == ms)
    decreases |ms|
  {
    if ms == [] || c.failed.Some? then (c, [])
    else
      var r := HandleEach(x, Handle(x, c, ms[0].0, ms[0].1), ms[1..]);
      (r.0, [ms[0]] + r.1)
  }

  lemma {:induction false} DrainHandlesEach(x: Context, s: Connection, ms: seq<(byte, seq<byte>)>)
    requires Framable(ms) && s.buffer == Framed(ms)
    ensures var r := HandleEach(x, s.client, ms); Drain(x, s).client == r.0 && Drain(x, s).handled == s.handled + r.1
    decreases |ms|
  {
    if ms != [] && s.client.failed.None? {
      var (kind, body) := ms[0];
      FramesAreReadBack(x, s, kind, body, Framed(ms[1..]));
      DrainHandlesEach(x, Connection(Handle(x, s.client, kind, body), Framed(ms[1..]), s.handled + [ms[0]]), ms[1..]);
    }
  }

  /** Whatever messages the server frames and however the bytes arrive, the client handles exactly those
      messages, one by one and in order, up to the first that fails it. */
  lemma AStreamIsItsMessages(x: Context, s: Connection, ms: seq<(byte, seq<byte>)>, chunks: seq<seq<byte>>)
    requires s.client.failed.None? && s.buffer == [] && Framable(ms) && Concat(chunks) == Framed(ms)
    ensures var r := HandleEach(x, s.client, ms); var t := ReceiveAll(x, s, chunks);
      t.client == r.0 && t.handled == s.handled + r.1
  {
    ChunksDoNotMatter(x, s, chunks);
    assert s.buffer + Concat(chunks) == Framed(ms);
    DrainHandlesEach(x, s.(buffer := Framed(ms)), ms);
  }

  // ---------- authentication ----------

  function Code(body: seq<byte>): int
  {
    if |body| >= 4 then U32(body[..4]) else -1
  }

  function Codes(bodies: seq<seq<byte>>): (codes: seq<int>)
    ensures |codes| == |bodies| && forall i | 0 <= i < |bodies| :: codes[i] == Code(bodies[i])
  {
    seq(|bodies|, i requires 0 <= i < |bodies| => Code(bodies[i]))
  }

  /** The server's two SASL messages, as the client must have read them: a challenge to its own nonce, with its
      work in bounds, and the signature that only that challenge, this account and its password give. */
  predicate SignedFor(x: Context, challenge: seq<byte>, signature: S.Bytes)
  {
    && |challenge| >= 4 && x.text(challenge[4..]).Some?
    && Challenges(x, x.text(challenge[4..]).value, signature)
  }

  predicate Challenges(x: Context, first: string, signature: S.Bytes)
  {
    var read := S.ReadChallenge(x.crypto, x.account, first);
    && read.Ok? && x.account.nonce <= read.value.nonce && |read.value.nonce| > |x.account.nonce|
    && 4096 <= read.value.iterations <= 1000000
    && signature == S.ServerSignature(x.crypto, x.account, first, read.value)
  }

  predicate Carries(x: Context, final: seq<byte>, signature: S.Bytes)
  {
    && |final| >= 4 && x.text(final[4..]).Some?
    && S.ReadFinal(x.crypto, x.text(final[4..]).value) == Ok(signature)
  }

  /** Exactly the messages accepted so far, for each place in the exchange. */
  predicate Exchange(x: Context, c: Client)
  {
    var a := c.accepted;
    match c.auth
    case NoMethod => Codes(a) == [] && c.signature.None? && !c.finalVerified && !c.authenticationOk
    case Cleartext =>
      c.signature.None? && !c.finalVerified && x.tlsVerified && Codes(a) == (if c.authenticationOk then [3, 0] else [3])
    case ScramSha256 =>
      && x.tlsVerified && (c.authenticationOk ==> c.finalVerified) && (c.finalVerified ==> c.signature.Some?)
      && Codes(a) == [10] + (if c.signature.Some? then [11] else []) + (if c.finalVerified then [12] else [])
                     + (if c.authenticationOk then [0] else [])
      && (c.signature.Some? ==> SignedFor(x, a[1], c.signature.value))
      && (c.finalVerified ==> Carries(x, a[2], c.signature.value))
  }

  predicate Inv(x: Context, c: Client)
  {
    Exchange(x, c) && (c.ready ==> c.authenticationOk)
  }

  lemma AcceptedCodes(c: Client, body: seq<byte>)
    ensures Codes(Accept(c, body).accepted) == Codes(c.accepted) + [Code(body)]
  {
  }

  lemma OfferInv(x: Context, c: Client, body: seq<byte>)
    requires Inv(x, c) && Code(body) == 10
    ensures Inv(x, OnSasl(x, c, body))
  {
    AcceptedCodes(c, body);
  }

  lemma ChallengeInv(x: Context, c: Client, body: seq<byte>)
    requires Inv(x, c) && Code(body) == 11
    ensures Inv(x, OnSaslContinue(x, c, body))
  {
    AcceptedCodes(c, body);
    if c.auth == ScramSha256 && c.signature.None? { assert Codes(c.accepted) == [10]; }
  }

  lemma FinalInv(x: Context, c: Client, body: seq<byte>)
    requires Inv(x, c) && Code(body) == 12
    ensures Inv(x, OnSaslFinal(x, c, body))
  {
    AcceptedCodes(c, body);
    if c.auth == ScramSha256 && c.signature.Some? && !c.finalVerified { assert Codes(c.accepted) == [10, 11]; }
  }

  lemma OkInv(x: Context, c: Client, body: seq<byte>)
    requires Inv(x, c) && Code(body) == 0
    ensures Inv(x, OnAuthenticationOk(c, body))
  {
    AcceptedCodes(c, body);
  }

  lemma CleartextInv(x: Context, c: Client, body: seq<byte>)
    requires Inv(x, c) && Code(body) == 3
    ensures Inv(x, OnCleartext(x, c, body))
  {
    AcceptedCodes(c, body);
  }

  lemma AuthenticateInv(x: Context, c: Client, body: seq<byte>)
    requires Inv(x, c)
    ensures Inv(x, Authenticate(x, c, body))
  {
    match Code(body) {
      case 3 => CleartextInv(x, c, body);
      case 10 => OfferInv(x, c, body);
      case 11 => ChallengeInv(x, c, body);
      case 12 => FinalInv(x, c, body);
      case 0 => OkInv(x, c, body);
      case _ =>
    }
  }

  /** The two clients have been through the same authentication. */
  predicate SameExchange(c: Client, d: Client)
  {
    && c.auth == d.auth && c.signature == d.signature && c.finalVerified == d.finalVerified
    && c.authenticationOk == d.authenticationOk && c.accepted == d.accepted
  }

  lemma OtherKindsKeepExchange(x: Context, c: Client, kind: byte, body: seq<byte>)
    requires kind != 82
    ensures var d := Handle(x, c, kind, body); SameExchange(c, d) && (d.ready ==> c.ready || c.authenticationOk)
  {
  }

  lemma SameExchangeInv(x: Context, c: Client, d: Client)
    requires Inv(x, c) && SameExchange(c, d) && (d.ready ==> c.ready || c.authenticationOk)
    ensures Inv(x, d)
  {
  }

  lemma OtherKindsInv(x: Context, c: Client, kind: byte, body: seq<byte>)
    requires Inv(x, c) && kind != 82
    ensures Inv(x, Handle(x, c, kind, body))
  {
    OtherKindsKeepExchange(x, c, kind, body);
    SameExchangeInv(x, c, Handle(x, c, kind, body));
  }

  lemma HandleInv(x: Context, c: Client, kind: byte, body: seq<byte>)
    requires Inv(x, c)
    ensures Inv(x, Handle(x, c, kind, body))
  {
    if kind == 82 { AuthenticateInv(x, c, body); } else { OtherKindsInv(x, c, kind, body); }
  }

  lemma {:induction false} DrainInv(x: Context, s: Connection)
    requires Inv(x, s.client)
    ensures Inv(x, Drain(x, s).client)
    decreases |s.buffer|
  {
    var b := s.buffer;
    if s.client.failed.None? && |b| >= 5 {
      var size := U32(b[1..5]);
      if 4 <= size <= MAX_MESSAGE && |b| >= size + 1 {
        HandleInv(x, s.client, b[0], b[5..size + 1]);
        DrainInv(x, HandleFirst(x, s));
      }
    }
  }

  function Fresh(): Connection
  {
    Connection(Client(NoMethod, None, false, false, false, NoQuery, 0, [], [], None), [], [])
  }

  lemma {:induction false} ReceiveAllInv(x: Context, s: Connection, chunks: seq<seq<byte>>)
    requires Inv(x, s.client)
    ensures Inv(x, ReceiveAll(x, s, chunks).client)
    decreases |chunks|
  {
    if chunks != [] {
      if s.client.failed.None? { DrainInv(x, s.(buffer := s.buffer + chunks[0])); }
      ReceiveAllInv(x, Receive(x, s, chunks[0]), chunks[1..]);
    }
  }

  /** Whatever bytes arrive, a client that becomes ready has verified TLS and was taken through one of exactly
      two exchanges: a cleartext challenge and its OK; or a SASL offer, a challenge to the client's own nonce, a
      final message carrying the very signature that challenge and this account's password give, and its OK. */
  lemma ReadyOnlyAfterAFullExchange(x: Context, chunks: seq<seq<byte>>)
    requires ReceiveAll(x, Fresh(), chunks).client.ready
    ensures x.tlsVerified
    ensures var a := ReceiveAll(x, Fresh(), chunks).client.accepted;
      || Codes(a) == [3, 0]
      || (Codes(a) == [10, 11, 12, 0] && exists signature :: SignedFor(x, a[1], signature) && Carries(x, a[2], signature))
  {
    assert Codes([]) == [];
    ReceiveAllInv(x, Fresh(), chunks);
    var c := ReceiveAll(x, Fresh(), chunks).client;
    if c.auth == ScramSha256 {
      assert SignedFor(x, c.accepted[1], c.signature.value) && Carries(x, c.accepted[2], c.signature.value);
    }
  }
}
