/** Client pairing: a multi-step exchange per client id, encrypted block by block in ECB mode
    (section 6.1 of NIST SP 800-38A), ending in the client id being persisted. The block
    cipher, hash, certificate parser and signature scheme are parameters; `Lawful` states the
    laws they are used with. */
module Pairing {
  import opened Common

  newtype byte = x: int | 0 <= x < 256
  type Bytes = seq<byte>
  type Id = nat
  /** A certificate in PEM form. */
  type Pem = Bytes

  const BLOCK: nat := 16

  datatype Crypto = Crypto(
    encryptBlock: (Bytes, Bytes) -> Bytes,
    decryptBlock: (Bytes, Bytes) -> Bytes,
    sha256: Bytes -> Bytes,
    certSignature: Pem -> Option<Bytes>,
    fingerprint: Pem -> Option<nat>,
    sign: Bytes -> Option<Bytes>,
    verify: (Pem, Bytes, Bytes) -> bool)

  /** Blocks stay blocks, decryption undoes encryption, and hashes have 32 bytes. */
  ghost predicate Lawful(c: Crypto) {
    && (forall k, b :: |b| == BLOCK ==>
          |c.encryptBlock(k, b)| == BLOCK && |c.decryptBlock(k, b)| == BLOCK
            && c.decryptBlock(k, c.encryptBlock(k, b)) == b)
    && Hashes(c)
  }

  ghost predicate Hashes(c: Crypto) {
    forall m :: |c.sha256(m)| == 32
  }

  /** The laws are met by the identity cipher, for instance. */
  lemma LawfulCryptoExists(c: Crypto)
    requires c.encryptBlock == ((k, b) => b) && c.decryptBlock == ((k, b) => b)
    requires c.sha256 == (m => seq(32, i => 0))
    ensures Lawful(c)
  {}

  // ---------- ECB ----------

  /** Applies a block function to each block; a trailing part shorter than a block is dropped. */
  function Ecb(f: (Bytes, Bytes) -> Bytes, key: Bytes, data: Bytes): Bytes {
    if |data| < BLOCK then [] else f(key, data[..BLOCK]) + Ecb(f, key, data[BLOCK..])
  }

  ghost predicate KeepsBlocks(f: (Bytes, Bytes) -> Bytes) {
    forall k, b :: |b| == BLOCK ==> |f(k, b)| == BLOCK
  }

  lemma {:induction false} EcbKeepsLength(f: (Bytes, Bytes) -> Bytes, key: Bytes, data: Bytes)
    requires KeepsBlocks(f) && |data| % BLOCK == 0
    ensures |Ecb(f, key, data)| == |data|
  {
    if |data| >= BLOCK {
      EcbKeepsLength(f, key, data[BLOCK..]);
    }
  }

  /** Each block of the result is the block function of the same block of the data. */
  lemma {:induction false} EcbIsBlockwise(f: (Bytes, Bytes) -> Bytes, key: Bytes, data: Bytes, i: nat)
    requires KeepsBlocks(f) && |data| % BLOCK == 0 && BLOCK * i < |data|
    ensures |Ecb(f, key, data)| == |data|
    ensures Ecb(f, key, data)[BLOCK * i..BLOCK * i + BLOCK] == f(key, data[BLOCK * i..BLOCK * i + BLOCK])
    decreases i
  {
    EcbKeepsLength(f, key, data);
    var first, rest := f(key, data[..BLOCK]), Ecb(f, key, data[BLOCK..]);
    assert Ecb(f, key, data) == first + rest;
    if i > 0 {
      var at := BLOCK * (i - 1);
      EcbIsBlockwise(f, key, data[BLOCK..], i - 1);
      assert data[BLOCK..][at..at + BLOCK] == data[at + BLOCK..at + 2 * BLOCK];
      assert (first + rest)[at + BLOCK..at + 2 * BLOCK] == rest[at..at + BLOCK];
    }
  }

  /** Decrypting undoes encrypting for every whole number of blocks. */
  lemma {:induction false} EcbRoundTrip(c: Crypto, key: Bytes, data: Bytes)
    requires Lawful(c) && |data| % BLOCK == 0
    ensures Ecb(c.decryptBlock, key, Ecb(c.encryptBlock, key, data)) == data
  {
    if |data| >= BLOCK {
      var first := c.encryptBlock(key, data[..BLOCK]);
      var rest := Ecb(c.encryptBlock, key, data[BLOCK..]);
      assert (first + rest)[..BLOCK] == first && (first + rest)[BLOCK..] == rest;
      EcbRoundTrip(c, key, data[BLOCK..]);
      assert data == data[..BLOCK] + data[BLOCK..];
    }
  }

  lemma {:induction false} EcbOneMoreBlock(f: (Bytes, Bytes) -> Bytes, key: Bytes, data: Bytes, block: Bytes)
    requires |data| % BLOCK == 0 && |block| == BLOCK
    ensures Ecb(f, key, data + block) == Ecb(f, key, data) + f(key, block)
  {
    if |data| < BLOCK {
      assert data + block == block && block[..BLOCK] == block && block[BLOCK..] == [];
    } else {
      EcbOneMoreBlock(f, key, data[BLOCK..], block);
      assert (data + block)[..BLOCK] == data[..BLOCK] && (data + block)[BLOCK..] == data[BLOCK..] + block;
    }
  }

  /** `aes_encrypt_ecb` and `aes_decrypt_ecb`: rewrites a copy block by block in place, or
      fails exactly when the data is not a whole number of blocks. */
  method RunEcb(f: (Bytes, Bytes) -> Bytes, key: Bytes, data: Bytes) returns (r: Option<Bytes>)
    requires KeepsBlocks(f)
    ensures r == if |data| % BLOCK == 0 then Some(Ecb(f, key, data)) else None
  {
    if |data| % BLOCK != 0 {
      return None;
    }
    var buffer := new byte[|data|](i requires 0 <= i < |data| => data[i]);
    var at := 0;
    while at < buffer.Length
      invariant 0 <= at <= buffer.Length == |data| && at % BLOCK == 0
      invariant buffer[..at] == Ecb(f, key, data[..at])
      invariant forall k :: at <= k < buffer.Length ==> buffer[k] == data[k]
    {
      var block := buffer[at..at + BLOCK];
      assert block == data[at..at + BLOCK];
      EcbOneMoreBlock(f, key, data[..at], block);
      assert data[..at + BLOCK] == data[..at] + block;
      WriteBlock(buffer, at, f(key, block));
      at := at + BLOCK;
    }
    assert data[..at] == data && buffer[..at] == buffer[..];
    return Some(buffer[..]);
  }

  /** Overwrites one block of the buffer. */
  method WriteBlock(buffer: array<byte>, at: nat, block: Bytes)
    requires |block| == BLOCK && at + BLOCK <= buffer.Length
    modifies buffer
    ensures buffer[..at + BLOCK] == old(buffer[..at]) + block
    ensures forall k :: at + BLOCK <= k < buffer.Length ==> buffer[k] == old(buffer[k])
  {
    var i := 0;
    while i < BLOCK
      invariant 0 <= i <= BLOCK
      invariant forall k :: 0 <= k < buffer.Length && !(at <= k < at + i) ==> buffer[k] == old(buffer[k])
      invariant forall k :: at <= k < at + i ==> buffer[k] == block[k - at]
    {
      buffer[at + i] := block[i];
      i := i + 1;
    }
  }

  // ---------- The exchange ----------

  /** A client in the pairing process. */
  datatype Pending = Pending(
    pem: Pem, salt: Bytes, key: Option<Bytes>, secret: Option<Bytes>, challenge: Option<Bytes>, hash: Option<Bytes>)

  /** Pending clients, and the client ids and certificate fingerprints that are persisted. */
  datatype State = State(pending: map<Id, Pending>, clients: set<Id>, certs: set<nat>)

  /** The server's crypto and its own certificate. */
  datatype Server = Server(c: Crypto, pem: Pem)

  /** A request for one client id. Challenges carry the server's random draws; `None` is a
      failing generator. The last step carries whether the two saves to disk succeed. */
  datatype Request =
    | Start(id: Id, pem: Pem, salt: Bytes)
    | Pin(id: Id, pin: Bytes)
    | Challenge(id: Id, data: Bytes, secretDraw: Option<Bytes>, challengeDraw: Option<Bytes>)
    | Response(id: Id, data: Bytes)
    | Secret(id: Id, data: Bytes, savesCert: bool, savesClient: bool)

  function CreateKey(c: Crypto, salt: Bytes, pin: Bytes): Bytes
    requires |c.sha256(salt + pin)| >= 16
  {
    c.sha256(salt + pin)[..16]
  }

  /** One step of the exchange on the record of its client: the new record, and the reply
      (`None` for an error). The `Secret` step leaves the record alone. */
  function Advance(v: Server, p: Pending, r: Request): (Pending, Option<Bytes>)
    requires Hashes(v.c)
  {
    match r
    case Start(_, pem, salt) => (Pending(pem, salt, None, None, None, None), Some([]))
    case Pin(_, pin) => (p.(key := Some(CreateKey(v.c, p.salt, pin))), Some([]))
    case Challenge(_, data, secretDraw, challengeDraw) =>
      if p.key.None? || secretDraw.None? then (p, None)
      else
        var q := p.(secret := secretDraw);
        if |data| % BLOCK != 0 || v.c.certSignature(v.pem).None? || challengeDraw.None? then (q, None)
        else
          var decrypted := Ecb(v.c.decryptBlock, p.key.value, data);
          var hash := v.c.sha256(decrypted + v.c.certSignature(v.pem).value + secretDraw.value);
          var reply := hash + challengeDraw.value;
          (q.(challenge := challengeDraw),
           if |reply| % BLOCK == 0 then Some(Ecb(v.c.encryptBlock, p.key.value, reply)) else None)
    case Response(_, data) =>
      if p.key.None? || |data| % BLOCK != 0 then (p, None)
      else
        var q := p.(hash := Some(Ecb(v.c.decryptBlock, p.key.value, data)));
        if p.secret.None? || v.c.sign(p.secret.value).None? then (q, None)
        else (q, Some(p.secret.value + v.c.sign(p.secret.value).value))
    case Secret(_, data, _, _) => (p, if Verified(v, p, data) then Some([]) else None)
  }

  /** `verify_pairing_secret`: the hash announced before must match the challenge and the
      revealed secret, and the secret must be signed with the client's certificate. */
  predicate Verified(v: Server, p: Pending, data: Bytes) {
    && p.hash.Some? && p.challenge.Some? && |data| >= 16
    && v.c.certSignature(p.pem).Some?
    && v.c.sha256(p.challenge.value + v.c.certSignature(p.pem).value + data[..16]) == p.hash.value
    && v.c.verify(p.pem, data[..16], data[16..])
  }

  /** The persisting part of the last step. Sets in memory grow before they are saved. */
  function Persist(v: Server, s: State, p: Pending, r: Request): State
    requires r.Secret?
  {
    var fp := v.c.fingerprint(p.pem);
    var t := if fp.Some? then s.(certs := s.certs + {fp.value}) else s;
    if fp.Some? && fp.value !in s.certs && !r.savesCert then t else t.(clients := t.clients + {r.id})
  }

  function Step(v: Server, s: State, r: Request): State
    requires Hashes(v.c)
  {
    if r.Start? then s.(pending := s.pending[r.id := Pending(r.pem, r.salt, None, None, None, None)])
    else if r.id !in s.pending then s
    else
      var p := s.pending[r.id];
      var t := s.(pending := s.pending[r.id := Advance(v, p, r).0]);
      if r.Secret? && Verified(v, p, r.data) then Persist(v, t, p, r) else t
  }

  function Run(v: Server, s: State, rs: seq<Request>): State
    requires Hashes(v.c)
  {
    if rs == [] then s else Step(v, Run(v, s, rs[..|rs| - 1]), rs[|rs| - 1])
  }

  // ---------- Clients do not interfere ----------

  /** The requests of one client. */
  function Own(rs: seq<Request>, id: Id): seq<Request> {
    if rs == [] then []
    else Own(rs[..|rs| - 1], id) + (if rs[|rs| - 1].id == id then [rs[|rs| - 1]] else [])
  }

  function PendingOf(s: State, id: Id): Option<Pending> {
    if id in s.pending then Some(s.pending[id]) else None
  }

  /** The record of a client after a request, from its record before. */
  function Next(v: Server, p: Option<Pending>, r: Request): Option<Pending>
    requires Hashes(v.c)
  {
    if r.Start? then Some(Pending(r.pem, r.salt, None, None, None, None))
    else if p.None? then None
    else Some(Advance(v, p.value, r).0)
  }

  lemma StepTouchesOwnRecordOnly(v: Server, s: State, r: Request, id: Id)
    requires Hashes(v.c)
    ensures PendingOf(Step(v, s, r), id) == if r.id == id then Next(v, PendingOf(s, id), r) else PendingOf(s, id)
  {}

  /** Whatever the interleaving, a client's record is what its own requests alone produce. */
  lemma {:induction false} ClientsDoNotInterfere(v: Server, s: State, rs: seq<Request>, id: Id)
    requires Hashes(v.c)
    ensures PendingOf(Run(v, s, rs), id) == PendingOf(Run(v, s, Own(rs, id)), id)
    decreases |rs|
  {
    if rs != [] {
      var n := |rs| - 1;
      ClientsDoNotInterfere(v, s, rs[..n], id);
      StepTouchesOwnRecordOnly(v, Run(v, s, rs[..n]), rs[n], id);
      if rs[n].id == id {
        assert Own(rs, id)[..|Own(rs, id)| - 1] == Own(rs[..n], id);
        StepTouchesOwnRecordOnly(v, Run(v, s, Own(rs[..n], id)), rs[n], id);
      } else {
        assert Own(rs, id) == Own(rs[..n], id);
      }
    }
  }

  /** Persisted ids and certificates are never removed. */
  lemma {:induction false} PairingIsPermanent(v: Server, s: State, rs: seq<Request>)
    requires Hashes(v.c)
    ensures s.clients <= Run(v, s, rs).clients && s.certs <= Run(v, s, rs).certs
    decreases |rs|
  {
    if rs != [] {
      PairingIsPermanent(v, s, rs[..|rs| - 1]);
    }
  }

  // ---------- Soundness: what a paired client must have done ----------

  /** The challenge request is answered on this record: it installs a new server challenge. */
  predicate Answers(v: Server, p: Option<Pending>, r: Request) {
    && r.Challenge? && p.Some? && p.value.key.Some? && r.secretDraw.Some? && r.challengeDraw.Some?
    && |r.data| % BLOCK == 0 && v.c.certSignature(v.pem).Some?
  }

  /** The response request is taken on this record: its decryption becomes the client hash. */
  predicate Takes(p: Option<Pending>, r: Request) {
    r.Response? && p.Some? && p.value.key.Some? && |r.data| % BLOCK == 0
  }

  function LastStart(rs: seq<Request>, id: Id): int {
    if rs == [] then -1
    else
      var n := |rs| - 1;
      if rs[n].id == id && rs[n].Start? then n else LastStart(rs[..n], id)
  }

  function LastPin(rs: seq<Request>, id: Id): int {
    if rs == [] then -1
    else
      var n := |rs| - 1;
      if rs[n].id == id && rs[n].Pin? then n else LastPin(rs[..n], id)
  }

  function LastAnswered(v: Server, s: State, rs: seq<Request>, id: Id): int
    requires Hashes(v.c)
  {
    if rs == [] then -1
    else
      var n := |rs| - 1;
      if rs[n].id == id && Answers(v, PendingOf(Run(v, s, rs[..n]), id), rs[n]) then n
      else LastAnswered(v, s, rs[..n], id)
  }

  function LastTaken(v: Server, s: State, rs: seq<Request>, id: Id): int
    requires Hashes(v.c)
  {
    if rs == [] then -1
    else
      var n := |rs| - 1;
      if rs[n].id == id && Takes(PendingOf(Run(v, s, rs[..n]), id), rs[n]) then n else LastTaken(v, s, rs[..n], id)
  }

  /** The record of a client. */
  ghost function Rec(v: Server, s: State, rs: seq<Request>, id: Id): Option<Pending>
    requires Hashes(v.c)
  {
    PendingOf(Run(v, s, rs), id)
  }

  lemma RecGrows(v: Server, s: State, rs: seq<Request>, id: Id)
    requires Hashes(v.c) && rs != []
    ensures var n := |rs| - 1;
            Rec(v, s, rs, id) ==
            if rs[n].id == id then Next(v, Rec(v, s, rs[..n], id), rs[n]) else Rec(v, s, rs[..n], id)
  {}

  /** A record exists exactly after a start, with the certificate and salt of the last one. */
  lemma {:induction false} RecordReflectsStart(v: Server, s: State, rs: seq<Request>, id: Id)
    requires Hashes(v.c) && id !in s.pending
    ensures var p, start := Rec(v, s, rs, id), LastStart(rs, id);
            && -1 <= start < |rs| && (p.Some? <==> start >= 0)
            && (p.Some? ==> rs[start].Start? && p.value.pem == rs[start].pem && p.value.salt == rs[start].salt)
    decreases |rs|
  {
    if rs != [] {
      RecGrows(v, s, rs, id);
      RecordReflectsStart(v, s, rs[..|rs| - 1], id);
    }
  }

  /** The key is that of the last PIN since the last start, if there was one. */
  lemma {:induction false} RecordReflectsPin(v: Server, s: State, rs: seq<Request>, id: Id)
    requires Hashes(v.c) && id !in s.pending
    ensures var p, start, pin := Rec(v, s, rs, id), LastStart(rs, id), LastPin(rs, id);
            && -1 <= start && -1 <= pin < |rs| && (pin >= 0 ==> rs[pin].Pin?)
            && (p.Some? ==>
                  p.value.key == if pin > start then Some(v.c.sha256(p.value.salt + rs[pin].pin)[..16]) else None)
    decreases |rs|
  {
    RecordReflectsStart(v, s, rs, id);
    if rs != [] {
      RecGrows(v, s, rs, id);
      RecordReflectsStart(v, s, rs[..|rs| - 1], id);
      RecordReflectsPin(v, s, rs[..|rs| - 1], id);
    }
  }

  /** The server challenge is the last one issued in an answer since the last start. */
  lemma {:induction false} RecordReflectsAnswer(v: Server, s: State, rs: seq<Request>, id: Id)
    requires Hashes(v.c) && id !in s.pending
    ensures var p, start, a := Rec(v, s, rs, id), LastStart(rs, id), LastAnswered(v, s, rs, id);
            && -1 <= start && -1 <= a < |rs| && (a >= 0 ==> rs[a].Challenge?)
            && (p.Some? ==> p.value.challenge == if a > start then rs[a].challengeDraw else None)
    decreases |rs|
  {
    RecordReflectsStart(v, s, rs, id);
    if rs != [] {
      RecGrows(v, s, rs, id);
      RecordReflectsStart(v, s, rs[..|rs| - 1], id);
      RecordReflectsAnswer(v, s, rs[..|rs| - 1], id);
    }
  }

  /** The client hash is the last response taken since the last start, decrypted with the key
      the record had then. */
  lemma {:induction false} RecordReflectsResponse(v: Server, s: State, rs: seq<Request>, id: Id)
    requires Hashes(v.c) && id !in s.pending
    ensures var p, start, t := Rec(v, s, rs, id), LastStart(rs, id), LastTaken(v, s, rs, id);
            && -1 <= start && -1 <= t < |rs| && (t >= 0 ==> rs[t].Response? && Takes(Rec(v, s, rs[..t], id), rs[t]))
            && (p.Some? && t > start ==>
                  p.value.hash == Some(Ecb(v.c.decryptBlock, Rec(v, s, rs[..t], id).value.key.value, rs[t].data)))
            && (p.Some? && t <= start ==> p.value.hash == None)
    decreases |rs|
  {
    RecordReflectsStart(v, s, rs, id);
    if rs != [] {
      var n := |rs| - 1;
      RecGrows(v, s, rs, id);
      RecordReflectsStart(v, s, rs[..n], id);
      RecordReflectsResponse(v, s, rs[..n], id);
      var t := LastTaken(v, s, rs[..n], id);
      if t >= 0 {
        assert rs[..n][..t] == rs[..t];
      }
    }
  }

  lemma {:induction false} AnswersNeedAKey(v: Server, s: State, rs: seq<Request>, id: Id)
    requires Hashes(v.c)
    ensures var a := LastAnswered(v, s, rs, id);
            -1 <= a < |rs| && (a >= 0 ==> rs[a].id == id && Answers(v, Rec(v, s, rs[..a], id), rs[a]))
  {
    if rs != [] {
      var n := |rs| - 1;
      AnswersNeedAKey(v, s, rs[..n], id);
      var a := LastAnswered(v, s, rs[..n], id);
      if a >= 0 {
        assert rs[..n][..a] == rs[..a];
      }
    }
  }

  lemma OnlyVerifiedSecretsPersist(v: Server, s: State, r: Request, id: Id)
    requires Hashes(v.c) && id !in s.clients && id in Step(v, s, r).clients
    ensures r.Secret? && r.id == id && id in s.pending && Verified(v, s.pending[id], r.data)
  {}

  lemma {:induction false} StartIsStable(rs: seq<Request>, id: Id, k: nat)
    requires k <= |rs| && LastStart(rs, id) < k
    ensures LastStart(rs[..k], id) == LastStart(rs, id)
    decreases |rs|
  {
    if k < |rs| {
      var n := |rs| - 1;
      StartIsStable(rs[..n], id, k);
      assert rs[..n][..k] == rs[..k];
    } else {
      assert rs[..k] == rs;
    }
  }

  /** What a revealed secret must meet, on the requests alone. Since the client's last start, with
      a PIN before each, a challenge was answered and a response taken; the response, decrypted
      with the key of salt and PIN, is the hash of the latest server challenge, the client
      certificate's signature and the secret; and the secret is signed with that certificate. */
  ghost predicate Proven(v: Server, s: State, rs: seq<Request>, id: Id, d: Bytes)
    requires Hashes(v.c)
  {
    var start, a, t := LastStart(rs, id), LastAnswered(v, s, rs, id), LastTaken(v, s, rs, id);
    && 0 <= start < a < |rs| && start < t < |rs| && rs[start].Start? && rs[a].Challenge? && rs[t].Response?
    && var pin := LastPin(rs[..t], id);
       && start < LastPin(rs[..a], id) && start < pin < t && rs[pin].Pin?
       && rs[a].challengeDraw.Some? && |d| >= 16 && v.c.certSignature(rs[start].pem).Some?
       && v.c.sha256(rs[a].challengeDraw.value + v.c.certSignature(rs[start].pem).value + d[..16]) ==
          Ecb(v.c.decryptBlock, v.c.sha256(rs[start].salt + rs[pin].pin)[..16], rs[t].data)
       && v.c.verify(rs[start].pem, d[..16], d[16..])
  }

  /** The check on the pending record is exactly that. */
  lemma VerifiedIffProven(v: Server, s: State, rs: seq<Request>, id: Id, d: Bytes)
    requires Hashes(v.c) && id !in s.pending
    ensures Rec(v, s, rs, id).Some? && Verified(v, Rec(v, s, rs, id).value, d) <==> Proven(v, s, rs, id, d)
  {
    RecordReflectsStart(v, s, rs, id);
    RecordReflectsAnswer(v, s, rs, id);
    RecordReflectsResponse(v, s, rs, id);
    var p, start := Rec(v, s, rs, id), LastStart(rs, id);
    var a, t := LastAnswered(v, s, rs, id), LastTaken(v, s, rs, id);
    if p.Some? && start < a && start < t {
      AnswersNeedAKey(v, s, rs, id);
      StartIsStable(rs, id, a);
      StartIsStable(rs, id, t);
      RecordReflectsStart(v, s, rs[..t], id);
      RecordReflectsPin(v, s, rs[..a], id);
      RecordReflectsPin(v, s, rs[..t], id);
    }
  }

  /** A `Secret` request adds its id exactly when the secret is proven and a certificate that is
      new could be saved, and the certificate exactly when the secret is proven. */
  lemma SecretPairsIffProven(v: Server, s: State, rs: seq<Request>, r: Request)
    requires Hashes(v.c) && r.Secret? && r.id !in s.pending
    ensures var before, after := Run(v, s, rs), Step(v, Run(v, s, rs), r);
            var proven := Proven(v, s, rs, r.id, r.data);
            && after.pending == before.pending
            && (!proven ==> after.clients == before.clients && after.certs == before.certs)
            && (proven ==>
                  var start := LastStart(rs, r.id);
                  var fp := v.c.fingerprint(rs[start].pem);
                  && after.certs == before.certs + (if fp.Some? then {fp.value} else {})
                  && after.clients ==
                     before.clients + (if fp.Some? && fp.value !in before.certs && !r.savesCert then {} else {r.id}))
  {
    VerifiedIffProven(v, s, rs, r.id, r.data);
    RecordReflectsStart(v, s, rs, r.id);
    var before := Run(v, s, rs);
    assert r.id in before.pending ==> before.pending == before.pending[r.id := before.pending[r.id]];
  }

  /** An id enters the persisted set only by a `Secret` request that is proven. */
  lemma {:induction false} PairedOnlyAfterWholeExchange(v: Server, s: State, rs: seq<Request>, id: Id) returns (n: nat)
    requires Hashes(v.c) && id !in s.pending && id !in s.clients && id in Run(v, s, rs).clients
    ensures n < |rs| && rs[n].Secret? && rs[n].id == id && Proven(v, s, rs[..n], id, rs[n].data)
    decreases |rs|
  {
    var m := |rs| - 1;
    if id in Run(v, s, rs[..m]).clients {
      n := PairedOnlyAfterWholeExchange(v, s, rs[..m], id);
      assert rs[..m][..n] == rs[..n];
    } else {
      n := m;
      OnlyVerifiedSecretsPersist(v, Run(v, s, rs[..n]), rs[n], id);
      VerifiedIffProven(v, s, rs[..n], id, rs[n].data);
    }
  }

  // ---------- The server's secret and its replies ----------

  /** The challenge request draws a new server secret on this record. */
  predicate DrawsSecret(p: Option<Pending>, r: Request) {
    r.Challenge? && p.Some? && p.value.key.Some? && r.secretDraw.Some?
  }

  function LastDraw(v: Server, s: State, rs: seq<Request>, id: Id): int
    requires Hashes(v.c)
  {
    if rs == [] then -1
    else
      var n := |rs| - 1;
      if rs[n].id == id && DrawsSecret(PendingOf(Run(v, s, rs[..n]), id), rs[n]) then n
      else LastDraw(v, s, rs[..n], id)
  }

  /** The server secret is the last one drawn since the last start, also when that challenge then
      failed. */
  lemma {:induction false} RecordReflectsSecret(v: Server, s: State, rs: seq<Request>, id: Id)
    requires Hashes(v.c) && id !in s.pending
    ensures var p, start, d := Rec(v, s, rs, id), LastStart(rs, id), LastDraw(v, s, rs, id);
            && -1 <= start && -1 <= d < |rs| && (d >= 0 ==> rs[d].Challenge?)
            && (p.Some? ==> p.value.secret == if d > start then rs[d].secretDraw else None)
    decreases |rs|
  {
    RecordReflectsStart(v, s, rs, id);
    if rs != [] {
      RecGrows(v, s, rs, id);
      RecordReflectsStart(v, s, rs[..|rs| - 1], id);
      RecordReflectsSecret(v, s, rs[..|rs| - 1], id);
    }
  }

  /** A challenge is answered exactly when there is a PIN, both random draws succeed, the data and
      the reply are whole blocks and the server's certificate parses. Decrypted, the answer is the
      hash of the decrypted challenge, that certificate's signature and the new secret, followed by
      the server challenge. A response reveals the secret and its signature exactly when there is a
      PIN, a secret and a signature and the data are whole blocks. */
  lemma RepliesExactly(v: Server, p: Pending, r: Request)
    requires Lawful(v.c) && (r.Challenge? || r.Response?)
    ensures var reply, sig := Advance(v, p, r).1, v.c.certSignature(v.pem);
            && (r.Challenge? ==>
                  && (reply.Some? <==>
                        && p.key.Some? && r.secretDraw.Some? && r.challengeDraw.Some? && sig.Some?
                        && |r.data| % 16 == 0 && |r.challengeDraw.value| % 16 == 0)
                  && (reply.Some? ==>
                        Ecb(v.c.decryptBlock, p.key.value, reply.value) ==
                        v.c.sha256(Ecb(v.c.decryptBlock, p.key.value, r.data) + sig.value + r.secretDraw.value)
                          + r.challengeDraw.value))
            && (r.Response? ==>
                  && (reply.Some? <==>
                        p.key.Some? && |r.data| % 16 == 0 && p.secret.Some? && v.c.sign(p.secret.value).Some?)
                  && (reply.Some? ==> reply.value == p.secret.value + v.c.sign(p.secret.value).value))
  {
    if r.Challenge? && Advance(v, p, r).1.Some? {
      var key := p.key.value;
      var hash := v.c.sha256(
        Ecb(v.c.decryptBlock, key, r.data) + v.c.certSignature(v.pem).value + r.secretDraw.value);
      EcbRoundTrip(v.c, key, hash + r.challengeDraw.value);
    }
  }

  // ---------- Completeness: an honest client is paired ----------

  /** What a client brings: certificate and its signature, salt and PIN, challenge, secret, and
      the secret signed with its key. */
  datatype Client = Client(
    pem: Pem, certSig: Bytes, salt: Bytes, pin: Bytes, challenge: Bytes, secret: Bytes, signature: Bytes)

  ghost predicate Honest(v: Server, k: Client) {
    && v.c.certSignature(k.pem) == Some(k.certSig)
    && |k.challenge| % BLOCK == 0 && |k.secret| == 16
    && v.c.verify(k.pem, k.secret, k.signature)
  }

  /** The client's requests. The fourth uses the server challenge that the client decrypts
      from the reply to its third. */
  ghost function Script(v: Server, id: Id, k: Client, serverSecret: Bytes, serverChallenge: Bytes): seq<Request>
    requires Hashes(v.c)
  {
    var key := v.c.sha256(k.salt + k.pin)[..16];
    [Start(id, k.pem, k.salt),
     Pin(id, k.pin),
     Challenge(id, Ecb(v.c.encryptBlock, key, k.challenge), Some(serverSecret), Some(serverChallenge)),
     Response(id, Ecb(v.c.encryptBlock, key, v.c.sha256(serverChallenge + k.certSig + k.secret))),
     Secret(id, k.secret + k.signature, true, true)]
  }

  /** What the server's third and fourth replies let the client check: the decrypted reply is
      the hash of its own challenge, the server's certificate and the secret revealed later,
      followed by the server challenge. */
  lemma ServerProvesItself(v: Server, p: Pending, k: Client, id: Id, serverSecret: Bytes, serverChallenge: Bytes)
    requires Lawful(v.c) && Honest(v, k) && |serverSecret| == |serverChallenge| == 16
    requires v.c.certSignature(v.pem).Some? && v.c.sign(serverSecret).Some?
    requires p == Pending(k.pem, k.salt, Some(CreateKey(v.c, k.salt, k.pin)), None, None, None)
    ensures var script := Script(v, id, k, serverSecret, serverChallenge);
            var (q, reply) := Advance(v, p, script[2]);
            && reply.Some?
            && Ecb(v.c.decryptBlock, p.key.value, reply.value)
                 == v.c.sha256(k.challenge + v.c.certSignature(v.pem).value + serverSecret) + serverChallenge
            && Advance(v, q, script[3]).1 == Some(serverSecret + v.c.sign(serverSecret).value)
  {
    var key := p.key.value;
    EcbRoundTrip(v.c, key, k.challenge);
    EcbKeepsLength(v.c.encryptBlock, key, k.challenge);
    var hash := v.c.sha256(k.challenge + v.c.certSignature(v.pem).value + serverSecret);
    EcbRoundTrip(v.c, key, hash + serverChallenge);
    EcbKeepsLength(v.c.encryptBlock, key, v.c.sha256(serverChallenge + k.certSig + k.secret));
  }

  /** The third and fourth request fill in the record so that the secret verifies. */
  lemma HonestRecordVerifies(v: Server, id: Id, k: Client, serverSecret: Bytes, serverChallenge: Bytes, p: Pending)
    requires Lawful(v.c) && Honest(v, k) && v.c.certSignature(v.pem).Some?
    requires p == Pending(k.pem, k.salt, Some(CreateKey(v.c, k.salt, k.pin)), None, None, None)
    ensures var script := Script(v, id, k, serverSecret, serverChallenge);
            var q := Advance(v, Advance(v, p, script[2]).0, script[3]).0;
            q.pem == k.pem && Verified(v, q, script[4].data)
  {
    var script := Script(v, id, k, serverSecret, serverChallenge);
    var key := p.key.value;
    var hash := v.c.sha256(serverChallenge + k.certSig + k.secret);
    EcbKeepsLength(v.c.encryptBlock, key, k.challenge);
    EcbKeepsLength(v.c.encryptBlock, key, hash);
    EcbRoundTrip(v.c, key, hash);
    var q := Advance(v, p, script[2]).0;
    assert q == p.(secret := Some(serverSecret), challenge := Some(serverChallenge));
    assert Advance(v, q, script[3]).0 == q.(hash := Some(hash));
    var data := k.secret + k.signature;
    assert data[..16] == k.secret && data[16..] == k.signature;
  }

  /** The honest requests leave a record that the secret verifies against. */
  lemma ScriptVerifies(v: Server, s: State, id: Id, k: Client, serverSecret: Bytes, serverChallenge: Bytes)
    requires Lawful(v.c) && Honest(v, k) && v.c.certSignature(v.pem).Some?
    ensures var script := Script(v, id, k, serverSecret, serverChallenge);
            var p := Rec(v, s, script[..4], id);
            p.Some? && p.value.pem == k.pem && Verified(v, p.value, script[4].data)
  {
    var script := Script(v, id, k, serverSecret, serverChallenge);
    var p := Pending(k.pem, k.salt, Some(CreateKey(v.c, k.salt, k.pin)), None, None, None);
    assert script[..4][..3] == script[..3] && script[..3][..2] == script[..2] && script[..2][..1] == script[..1];
    RecGrows(v, s, script[..1], id);
    RecGrows(v, s, script[..2], id);
    assert Rec(v, s, script[..2], id) == Some(p);
    RecGrows(v, s, script[..3], id);
    RecGrows(v, s, script[..4], id);
    HonestRecordVerifies(v, id, k, serverSecret, serverChallenge, p);
  }

  /** Pairing completeness: in any interleaving in which the client's own requests are the
      honest ones, its last request makes it paired. */
  lemma HonestClientIsPaired(
    v: Server, s: State, rs: seq<Request>, id: Id, k: Client, serverSecret: Bytes, serverChallenge: Bytes)
    requires Lawful(v.c) && Honest(v, k) && v.c.certSignature(v.pem).Some?
    requires rs != [] && rs[|rs| - 1].id == id && Own(rs, id) == Script(v, id, k, serverSecret, serverChallenge)
    ensures id in Run(v, s, rs).clients
    ensures v.c.fingerprint(k.pem).Some? ==> v.c.fingerprint(k.pem).value in Run(v, s, rs).certs
  {
    var script := Script(v, id, k, serverSecret, serverChallenge);
    var n := |rs| - 1;
    ScriptVerifies(v, s, id, k, serverSecret, serverChallenge);
    assert Own(rs, id) == Own(rs[..n], id) + [rs[n]];
    assert rs[n] == script[4] && Own(rs[..n], id) == script[..4];
    ClientsDoNotInterfere(v, s, rs[..n], id);
  }

  // ---------- The client manager, updated in place ----------

  class ClientManager {
    var pendingClients: map<Id, Pending>
    var clients: set<Id>
    var pairedCerts: set<nat>
    const server: Server

    ghost function View(): State
      reads this
    {
      State(pendingClients, clients, pairedCerts)
    }

    constructor (server: Server, clients: set<Id>, pairedCerts: set<nat>)
      ensures this.server == server && View() == State(map[], clients, pairedCerts)
    {
      this.server := server;
      this.clients, this.pairedCerts, pendingClients := clients, pairedCerts, map[];
    }

    method StartPairing(id: Id, pem: Pem, salt: Bytes)
      requires Hashes(server.c)
      modifies this`pendingClients
      ensures View() == Step(server, old(View()), Start(id, pem, salt))
    {
      pendingClients := pendingClients[id := Pending(pem, salt, None, None, None, None)];
    }

    method RegisterPin(id: Id, pin: Bytes) returns (ok: bool)
      requires Hashes(server.c)
      modifies this`pendingClients
      ensures View() == Step(server, old(View()), Pin(id, pin)) && ok == (id in old(pendingClients))
    {
      if id !in pendingClients {
        return false;
      }
      var client := pendingClients[id];
      pendingClients := pendingClients[id := client.(key := Some(CreateKey(server.c, client.salt, pin)))];
      return true;
    }

    method ClientChallenge(id: Id, data: Bytes, secretDraw: Option<Bytes>, challengeDraw: Option<Bytes>)
      returns (reply: Option<Bytes>)
      requires Lawful(server.c)
      modifies this`pendingClients
      ensures View() == Step(server, old(View()), Challenge(id, data, secretDraw, challengeDraw))
      ensures reply == if id in old(pendingClients)
                       then Advance(server, old(pendingClients)[id], Challenge(id, data, secretDraw, challengeDraw)).1
                       else None
    {
      if id !in pendingClients {
        return None;
      }
      var client := pendingClients[id];
      if client.key.None? || secretDraw.None? {
        assert pendingClients == pendingClients[id := client];
        return None;
      }
      client := client.(secret := secretDraw);
      pendingClients := pendingClients[id := client];
      var decrypted := RunEcb(server.c.decryptBlock, client.key.value, data);
      var signature := server.c.certSignature(server.pem);
      if decrypted.None? || signature.None? || challengeDraw.None? {
        return None;
      }
      client := client.(challenge := challengeDraw);
      pendingClients := pendingClients[id := client];
      var hash := server.c.sha256(decrypted.value + signature.value + secretDraw.value);
      reply := RunEcb(server.c.encryptBlock, client.key.value, hash + challengeDraw.value);
    }

    method ServerChallengeResponse(id: Id, data: Bytes) returns (reply: Option<Bytes>)
      requires Lawful(server.c)
      modifies this`pendingClients
      ensures View() == Step(server, old(View()), Response(id, data))
      ensures reply == if id in old(pendingClients)
                       then Advance(server, old(pendingClients)[id], Response(id, data)).1
                       else None
    {
      if id !in pendingClients {
        return None;
      }
      var client := pendingClients[id];
      if client.key.None? {
        assert pendingClients == pendingClients[id := client];
        return None;
      }
      var decrypted := RunEcb(server.c.decryptBlock, client.key.value, data);
      if decrypted.None? {
        assert pendingClients == pendingClients[id := client];
        return None;
      }
      pendingClients := pendingClients[id := client.(hash := decrypted)];
      if client.secret.None? {
        return None;
      }
      var signed := server.c.sign(client.secret.value);
      if signed.None? {
        return None;
      }
      return Some(client.secret.value + signed.value);
    }

    method CheckClientPairingSecret(id: Id, data: Bytes, savesCert: bool, savesClient: bool) returns (ok: bool)
      requires Hashes(server.c)
      modifies this`clients, this`pairedCerts
      ensures View() == Step(server, old(View()), Secret(id, data, savesCert, savesClient))
      ensures ok <==>
                && id in old(pendingClients) && Verified(server, old(pendingClients)[id], data)
                && (var fp := server.c.fingerprint(old(pendingClients)[id].pem);
                      fp.Some? && fp.value !in old(pairedCerts) ==> savesCert)
                && (id !in old(clients) ==> savesClient)
    {
      if id !in pendingClients {
        return false;
      }
      var client := pendingClients[id];
      assert pendingClients == pendingClients[id := client];
      if !Verified(server, client, data) {
        return false;
      }
      var fingerprint := server.c.fingerprint(client.pem);
      if fingerprint.Some? {
        var inserted := fingerprint.value !in pairedCerts;
        pairedCerts := pairedCerts + {fingerprint.value};
        if inserted && !savesCert {
          return false;
        }
      }
      if id !in clients {
        clients := clients + {id};
        return savesClient;
      }
      return true;
    }
  }
}
