/** SCRAM-SHA-256 as the client speaks it (RFC 5802, section 3), over uninterpreted hash functions. */
module Scram {
  import opened Wrappers

  datatype Error =
    | MessageInvalid | NonceInvalid | ParametersInvalid | IterationsInvalid | ServerRefused | FinalInvalid
    | ServerSignatureInvalid

  type Bytes = seq<nat>

  /** Hashes and encodings, known only by their names. */
  datatype Crypto = Crypto(
    derive: (string, Bytes, int) -> Bytes,
    serverKey: Bytes -> Bytes,
    mac: (Bytes, string) -> Bytes,
    proof: (Bytes, string) -> string,
    decode64: string -> Option<Bytes>,
    number: string -> Option<int>)

  // ---------- fields ----------

  /** `str.split` on one character. */
  function Split(s: string, c: char): (parts: seq<string>)
    ensures |parts| > 0
  {
    if s == "" then [""]
    else
      var rest := Split(s[1..], c);
      if s[0] == c then [""] + rest else [[s[0]] + rest[0]] + rest[1..]
  }

  /** The position of the first `c`, if any. */
  function Find(s: string, c: char): (i: nat)
    ensures i <= |s| && c !in s[..i] && (i < |s| ==> s[i] == c)
  {
    if s == "" || s[0] == c then 0
    else
      var i := Find(s[1..], c);
      assert s[..1 + i] == [s[0]] + s[1..][..i];
      1 + i
  }

  /** `_scram_fields`, item by item: each is a key, an equals sign and a value, and no key comes twice. */
  function Fields(items: seq<string>, seen: map<string, string>): Result<map<string, string>, Error>
    decreases |items|
  {
    if items == [] then Ok(seen)
    else
      var item, eq := items[0], Find(items[0], '=');
      if eq == |item| || item[..eq] in seen then Err(MessageInvalid)
      else Fields(items[1..], seen[item[..eq] := item[eq + 1..]])
  }

  method ScramFields(value: string) returns (r: Result<map<string, string>, Error>)
    ensures r == Fields(Split(value, ','), map[])
  {
    var fields, items := map[], Split(value, ',');
    ghost var all := items;
    while items != []
      invariant Fields(items, fields) == Fields(all, map[])
      decreases |items|
    {
      var item, eq := items[0], Find(items[0], '=');
      if eq == |item| || item[..eq] in fields { return Err(MessageInvalid); }
      fields := fields[item[..eq] := item[eq + 1..]];
      items := items[1..];
    }
    r := Ok(fields);
  }

  // ---------- escaping ----------

  /** `_scram_escape`: two replacements, one after the other. */
  function Replace(s: string, c: char, put: string): string
  {
    if s == "" then "" else (if s[0] == c then put else [s[0]]) + Replace(s[1..], c, put)
  }

  function Escape(s: string): string
  {
    Replace(Replace(s, '=', "=3D"), ',', "=2C")
  }

  /** The saslname of RFC 5802, section 5.1, read back. */
  function Unescape(s: string): Option<string>
  {
    if s == "" then Some("")
    else if s[0] == ',' then None
    else if s[0] == '=' then
      if |s| < 3 then None
      else if s[1] == '3' && s[2] == 'D' then Prepend('=', Unescape(s[3..]))
      else if s[1] == '2' && s[2] == 'C' then Prepend(',', Unescape(s[3..]))
      else None
    else Prepend(s[0], Unescape(s[1..]))
  }

  function Prepend(c: char, s: Option<string>): Option<string>
  {
    if s.None? then None else Some([c] + s.value)
  }

  lemma {:induction false} ReplaceAppends(a: string, b: string, c: char, put: string)
    ensures Replace(a + b, c, put) == Replace(a, c, put) + Replace(b, c, put)
  {
    if a == "" {
      assert a + b == b;
    } else {
      assert (a + b)[1..] == a[1..] + b;
      ReplaceAppends(a[1..], b, c, put);
    }
  }

  /** One character, escaped. */
  function EscapeChar(c: char): string
  {
    if c == '=' then "=3D" else if c == ',' then "=2C" else [c]
  }

  /** The two replacements escape character by character: the second never touches the first's work. */
  lemma {:induction false} EscapeByCharacter(s: string)
    requires s != ""
    ensures Escape(s) == EscapeChar(s[0]) + Escape(s[1..])
  {
    var first := if s[0] == '=' then "=3D" else [s[0]];
    ReplaceAppends(first, Replace(s[1..], '=', "=3D"), ',', "=2C");
    assert Replace(first, ',', "=2C") == EscapeChar(s[0]) by {
      if s[0] == '=' {
        assert "=3D"[1..] == "3D" && "3D"[1..] == "D" && "D"[1..] == "";
        assert Replace("D", ',', "=2C") == "D";
        assert Replace("3D", ',', "=2C") == "3D";
      }
    }
  }

  /** Escaping loses nothing, and leaves no comma to be taken for a separator. */
  lemma {:induction false} EscapeRoundTrip(s: string)
    ensures Unescape(Escape(s)) == Some(s) && ',' !in Escape(s)
  {
    if s != "" {
      EscapeByCharacter(s);
      EscapeRoundTrip(s[1..]);
      var e := EscapeChar(s[0]);
      assert Escape(s)[|e|..] == Escape(s[1..]);
      assert s == [s[0]] + s[1..];
    }
  }

  lemma {:induction false} SplitWithout(s: string, c: char)
    requires c !in s
    ensures Split(s, c) == [s]
  {
    if s != "" {
      assert c !in s[1..];
      SplitWithout(s[1..], c);
      assert s == [s[0]] + s[1..];
    }
  }

  lemma {:induction false} SplitAtFirst(a: string, b: string, c: char)
    requires c !in a
    ensures Split(a + [c] + b, c) == [a] + Split(b, c)
  {
    var s := a + [c] + b;
    if a == "" {
      assert s[1..] == b;
    } else {
      assert c !in a[1..];
      SplitAtFirst(a[1..], b, c);
      assert s[1..] == a[1..] + [c] + b;
      assert a == [a[0]] + a[1..];
    }
  }

  /** The client's first message, without its header. */
  function ClientFirstBare(user: string, nonce: string): string
  {
    "n=" + Escape(user) + [','] + ("r=" + nonce)
  }

  lemma FieldFound(key: char, value: string)
    requires key != '='
    ensures Find([key, '='] + value, '=') == 1
  {
    var s := [key, '='] + value;
    assert s[1..][0] == '=';
  }

  /** Whatever the user's name holds, the server reads back that name and the nonce, and no other field. */
  lemma NoNameForgesAField(user: string, nonce: string)
    requires ',' !in nonce
    ensures Fields(Split(ClientFirstBare(user, nonce), ','), map[]) == Ok(map["n" := Escape(user), "r" := nonce])
    ensures Unescape(Escape(user)) == Some(user)
  {
    EscapeRoundTrip(user);
    var a, b := "n=" + Escape(user), "r=" + nonce;
    SplitAtFirst(a, b, ',');
    SplitWithout(b, ',');
    FieldFound('n', Escape(user));
    FieldFound('r', nonce);
    assert a == ['n', '='] + Escape(user) && b == ['r', '='] + nonce;
    assert a[..1] == "n" && a[2..] == Escape(user) && b[..1] == "r" && b[2..] == nonce;
    assert Fields([b], map["n" := Escape(user)]) == Fields([], map["n" := Escape(user), "r" := nonce]);
  }

  // ---------- the exchange ----------

  datatype Account = Account(user: string, password: string, nonce: string)

  predicate StartsWith(s: string, prefix: string)
  {
    prefix <= s
  }

  /** The parameters of a server's first message, as far as the client accepts them. */
  datatype Challenge = Challenge(nonce: string, salt: Bytes, iterations: int)

  function ReadChallenge(k: Crypto, account: Account, serverFirst: string): Result<Challenge, Error>
  {
    match Fields(Split(serverFirst, ','), map[])
    case Err(e) => Err(e)
    case Ok(fields) =>
      var nonce := if "r" in fields then fields["r"] else "";
      if !StartsWith(nonce, account.nonce) || |nonce| <= |account.nonce| then Err(NonceInvalid)
      else if "s" !in fields || k.decode64(fields["s"]).None? || "i" !in fields || k.number(fields["i"]).None? then
        Err(ParametersInvalid)
      else if !(4096 <= k.number(fields["i"]).value <= 1000000) then Err(IterationsInvalid)
      else Ok(Challenge(nonce, k.decode64(fields["s"]).value, k.number(fields["i"]).value))
  }

  /** What both sides sign. */
  function AuthMessage(account: Account, serverFirst: string, c: Challenge): string
  {
    ClientFirstBare(account.user, account.nonce) + "," + serverFirst + "," + "c=biws,r=" + c.nonce
  }

  /** The signature only a server that knows the password's verifier can make. */
  function ServerSignature(k: Crypto, account: Account, serverFirst: string, c: Challenge): Bytes
  {
    k.mac(k.serverKey(k.derive(account.password, c.salt, c.iterations)), AuthMessage(account, serverFirst, c))
  }

  /** `verify_final`: the value the server's final message carries. */
  function ReadFinal(k: Crypto, serverFinal: string): Result<Bytes, Error>
  {
    match Fields(Split(serverFinal, ','), map[])
    case Err(e) => Err(e)
    case Ok(fields) =>
      if "e" in fields then Err(ServerRefused)
      else if "v" !in fields || k.decode64(fields["v"]).None? then Err(FinalInvalid)
      else Ok(k.decode64(fields["v"]).value)
  }
}
