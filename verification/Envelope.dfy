/** Per-message encryption: one message key, wrapped once for each listed user. The primitives are
    uninterpreted functions; of them only two laws are ever used. */
module Envelope {
  import opened Common
  import opened Base64
  import Utf8

  type Bytes = seq<Byte>
  type Text = seq<Utf8.Unit>
  type UserId = nat

  /** A private CryptoKey object. */
  type Private = nat

  /** AES-GCM, X25519 agreement (None where the browser rejects the point), the public key of a
      private one, and HKDF with this protocol's info string. */
  datatype Crypto = Crypto(
    seal: (Bytes, Bytes, Bytes) -> Bytes,
    open: (Bytes, Bytes, Bytes) -> Option<Bytes>,
    agree: (Private, Bytes) -> Option<Bytes>,
    public: Private -> Bytes,
    derive: Bytes -> Bytes)

  /** Opening inverts sealing; agreement is symmetric (section 6.1 of RFC 7748). */
  ghost predicate Lawful(c: Crypto) {
    && (forall key, iv, p :: c.open(key, iv, c.seal(key, iv, p)) == Some(p))
    && (forall a, b :: c.agree(a, c.public(b)) == c.agree(b, c.public(a)))
    && (forall a :: |c.public(a)| == 32)
  }

  /** The laws ask for nothing impossible. */
  lemma LawsCanHold()
    ensures exists c :: Lawful(c)
  {
    var zeros: Bytes := seq(32, i => 0);
    var c := Crypto((key, iv, p) => p, (key, iv, x) => Some(x),
                    (mine, theirs) => Some(theirs), mine => zeros, shared => shared);
    assert Lawful(c);
  }

  const WRAP_IV_LEN := 12

  // ---------- wrap keys ----------

  /** importPublicKey and deriveWrapKey; None is a rejected promise. */
  function WrapKey(c: Crypto, mine: Private, peer: string): Option<Bytes> {
    var raw := Decode(peer);
    if raw.None? || |raw.value| != 32 then None
    else
      var shared := c.agree(mine, raw.value);
      if shared.None? then None else Some(c.derive(shared.value))
  }

  /** Both ends derive the same key from their own private key and the other's public one. */
  lemma WrapKeysAgree(c: Crypto, a: Private, b: Private, publicA: string, publicB: string)
    requires Lawful(c) && Decode(publicA) == Some(c.public(a)) && Decode(publicB) == Some(c.public(b))
    ensures WrapKey(c, a, publicB) == WrapKey(c, b, publicA)
  {}

  /** The wrap-key cache: one map per private key. */
  class KeyCache {
    const c: Crypto
    var byKey: map<Private, map<string, Bytes>>

    constructor (c: Crypto)
      ensures this.c == c && Valid()
    {
      this.c, byKey := c, map[];
    }

    /** Every cached key is the one a fresh derivation would give. */
    predicate Valid()
      reads this
    {
      forall k, peer :: k in byKey && peer in byKey[k] ==> WrapKey(c, k, peer) == Some(byKey[k][peer])
    }

    predicate Cached(mine: Private, peer: string)
      reads this
    {
      mine in byKey && peer in byKey[mine]
    }

    /** deriveWrapKeyCached: the cache never changes the answer, and failures are not kept. */
    method DeriveWrapKeyCached(mine: Private, peer: string) returns (key: Option<Bytes>)
      requires Valid()
      modifies this
      ensures Valid()
      ensures key == WrapKey(c, mine, peer)
      ensures Cached(mine, peer) <==> key.Some?
      ensures forall k: Private, p: string :: (k, p) != (mine, peer) ==> (Cached(k, p) <==> old(Cached(k, p)))
    {
      if mine !in byKey { byKey := byKey[mine := map[]]; }
      var byPeer := byKey[mine];
      if peer in byPeer { return Some(byPeer[peer]); }
      key := WrapKey(c, mine, peer);
      if key.Some? { byKey := byKey[mine := byPeer[peer := key.value]]; }
    }
  }

  // ---------- encrypting ----------

  datatype Recipient = Recipient(user: UserId, publicKey: string)

  datatype Sealed = Sealed(ciphertext: string, iv: string, keys: map<UserId, string>)

  /** The random choices of one encryption: message key, payload iv, one wrap iv per recipient. */
  datatype Random = Random(key: Bytes, iv: Bytes, wrapIvs: seq<Bytes>)

  predicate Sized(r: Random, n: nat) {
    && |r.key| == 32 && |r.iv| == 12 && |r.wrapIvs| == n
    && forall k :: 0 <= k < n ==> |r.wrapIvs[k]| == WRAP_IV_LEN
  }

  function Entry(c: Crypto, wrapKey: Bytes, wrapIv: Bytes, key: Bytes): string {
    Encode(wrapIv + c.seal(wrapKey, wrapIv, key))
  }

  /** Position k is the first listing of its user. */
  predicate IsFirst(recipients: seq<Recipient>, k: nat) {
    k < |recipients| && forall j :: 0 <= j < k ==> recipients[j].user != recipients[k].user
  }

  /** What each recipient's own entry would be; None when its public key is unusable. */
  function Entries(c: Crypto, mine: Private, recipients: seq<Recipient>, r: Random): (want: seq<Option<string>>)
    requires Sized(r, |recipients|)
    ensures |want| == |recipients|
  {
    seq(|recipients|, k requires 0 <= k < |recipients| =>
      var wrapKey := WrapKey(c, mine, recipients[k].publicKey);
      if wrapKey.None? then None else Some(Entry(c, wrapKey.value, r.wrapIvs[k], r.key)))
  }

  predicate AllUsable(recipients: seq<Recipient>, want: seq<Option<string>>, n: nat)
    requires n <= |recipients| == |want|
  {
    forall k :: 0 <= k < n && IsFirst(recipients, k) ==> want[k].Some?
  }

  predicate Listed(recipients: seq<Recipient>, n: nat, u: UserId) {
    exists k :: 0 <= k < n <= |recipients| && recipients[k].user == u
  }

  /** One entry per listed user: the one for the first key listed for that user. */
  ghost predicate KeysFor(recipients: seq<Recipient>, want: seq<Option<string>>, n: nat, keys: map<UserId, string>)
    requires n <= |recipients| == |want|
  {
    && (forall u: UserId :: u in keys <==> Listed(recipients, n, u))
    && (forall k :: 0 <= k < n && IsFirst(recipients, k) ==>
        recipients[k].user in keys && want[k] == Some(keys[recipients[k].user]))
  }

  lemma ListedOneMore(recipients: seq<Recipient>, i: nat)
    requires i < |recipients|
    ensures forall u: UserId :: Listed(recipients, i + 1, u) <==> Listed(recipients, i, u) || recipients[i].user == u
  {
    forall u: UserId ensures Listed(recipients, i + 1, u) <==> Listed(recipients, i, u) || recipients[i].user == u {
      if Listed(recipients, i + 1, u) {
        var k :| 0 <= k < i + 1 && recipients[k].user == u;
        assert k < i ==> Listed(recipients, i, u);
      }
      if Listed(recipients, i, u) {
        var k :| 0 <= k < i && recipients[k].user == u;
        assert recipients[k].user == u;
      }
    }
  }

  lemma SkipKeeps(recipients: seq<Recipient>, want: seq<Option<string>>, i: nat, keys: map<UserId, string>)
    requires i < |recipients| == |want| && KeysFor(recipients, want, i, keys) && recipients[i].user in keys
    ensures !IsFirst(recipients, i) && KeysFor(recipients, want, i + 1, keys)
  {
    ListedOneMore(recipients, i);
  }

  lemma NewIsFirst(recipients: seq<Recipient>, i: nat)
    requires i < |recipients| && !Listed(recipients, i, recipients[i].user)
    ensures IsFirst(recipients, i)
  {
    assert forall j :: 0 <= j < i ==> Listed(recipients, i, recipients[j].user);
  }

  lemma AddKeeps(recipients: seq<Recipient>, want: seq<Option<string>>, i: nat, keys: map<UserId, string>,
      entry: string)
    requires i < |recipients| == |want| && KeysFor(recipients, want, i, keys) && recipients[i].user !in keys
    requires want[i] == Some(entry)
    ensures KeysFor(recipients, want, i + 1, keys[recipients[i].user := entry])
  {
    var more := keys[recipients[i].user := entry];
    ListedOneMore(recipients, i);
    forall k | 0 <= k < i + 1 && IsFirst(recipients, k)
      ensures recipients[k].user in more && want[k] == Some(more[recipients[k].user])
    {
      if k < i { assert recipients[k].user in keys; }
    }
  }

  lemma EntryIsNotEmpty(c: Crypto, wrapKey: Bytes, wrapIv: Bytes, key: Bytes)
    requires |wrapIv| == WRAP_IV_LEN
    ensures Entry(c, wrapKey, wrapIv, key) != ""
  {
    EncodeIsUrlSafe(wrapIv + c.seal(wrapKey, wrapIv, key));
  }

  /** encryptMessage. It rejects exactly when some listed user's (first) public key is unusable. */
  method EncryptMessage(cache: KeyCache, plaintext: Text, recipients: seq<Recipient>, mine: Private, r: Random)
    returns (out: Option<Sealed>)
    requires cache.Valid() && Sized(r, |recipients|)
    modifies cache
    ensures cache.Valid()
    ensures var want := Entries(cache.c, mine, recipients, r);
            && (out.Some? <==> AllUsable(recipients, want, |recipients|))
            && (out.Some? ==>
                  && out.value.ciphertext == Encode(cache.c.seal(r.key, r.iv, Utf8.Encode(plaintext)))
                  && out.value.iv == Encode(r.iv)
                  && KeysFor(recipients, want, |recipients|, out.value.keys))
  {
    var c := cache.c;
    ghost var want := Entries(c, mine, recipients, r);
    var keys: map<UserId, string> := map[];
    for i := 0 to |recipients|
      invariant cache.Valid()
      invariant AllUsable(recipients, want, i) && KeysFor(recipients, want, i, keys)
      invariant forall u :: u in keys ==> keys[u] != ""
    {
      var to := recipients[i];
      if to.user in keys && keys[to.user] != "" {
        SkipKeeps(recipients, want, i, keys);
      } else {
        var wrapKey := cache.DeriveWrapKeyCached(mine, to.publicKey);
        NewIsFirst(recipients, i);
        if wrapKey.None? { return None; }
        AddKeeps(recipients, want, i, keys, want[i].value);
        EntryIsNotEmpty(c, wrapKey.value, r.wrapIvs[i], r.key);
        keys := keys[to.user := Entry(c, wrapKey.value, r.wrapIvs[i], r.key)];
      }
    }
    out := Some(Sealed(Encode(c.seal(r.key, r.iv, Utf8.Encode(plaintext))), Encode(r.iv), keys));
  }

  // ---------- decrypting ----------

  /** Uint8Array.slice clamps. */
  function Head(b: Bytes): Bytes { if |b| < WRAP_IV_LEN then b else b[..WRAP_IV_LEN] }

  function Rest(b: Bytes): Bytes { if |b| < WRAP_IV_LEN then [] else b[WRAP_IV_LEN..] }

  /** decryptMessage once the wrap key is known; None is any exception on the way. */
  function Opened(c: Crypto, wrapKey: Bytes, ciphertext: string, iv: string, wrapped: string): Option<Text> {
    var blob := Decode(wrapped);
    if blob.None? then None
    else
      var key := c.open(wrapKey, Head(blob.value), Rest(blob.value));
      if key.None? || |key.value| !in {16, 24, 32} then None
      else
        var payloadIv, payload := Decode(iv), Decode(ciphertext);
        if payloadIv.None? || payload.None? then None
        else
          var plain := c.open(key.value, payloadIv.value, payload.value);
          if plain.None? then None else Utf8.Decode(plain.value)
  }

  function Decrypted(c: Crypto, ciphertext: string, iv: string, wrapped: string, sender: string,
      mine: Private): Option<Text> {
    var wrapKey := WrapKey(c, mine, sender);
    if wrapKey.None? then None else Opened(c, wrapKey.value, ciphertext, iv, wrapped)
  }

  method DecryptMessage(cache: KeyCache, ciphertext: string, iv: string, wrapped: string, sender: string, mine: Private)
    returns (out: Option<Text>)
    requires cache.Valid()
    modifies cache
    ensures cache.Valid()
    ensures out == Decrypted(cache.c, ciphertext, iv, wrapped, sender, mine)
  {
    var wrapKey := cache.DeriveWrapKeyCached(mine, sender);
    if wrapKey.None? { return None; }
    out := Opened(cache.c, wrapKey.value, ciphertext, iv, wrapped);
  }

  // ---------- the round trip ----------

  /** The iv travels in front of the wrapped key and is split off again. */
  lemma EntryOpens(c: Crypto, wrapKey: Bytes, wrapIv: Bytes, r: Random, payload: Bytes)
    requires Lawful(c) && |wrapIv| == 12 && |r.key| == 32
    ensures Opened(c, wrapKey, Encode(c.seal(r.key, r.iv, payload)), Encode(r.iv), Entry(c, wrapKey, wrapIv, r.key))
            == Utf8.Decode(payload)
  {
    var wrapped := c.seal(wrapKey, wrapIv, r.key);
    var blob := wrapIv + wrapped;
    DecodeEncode(blob);
    assert Head(blob) == wrapIv && Rest(blob) == wrapped;
    DecodeEncode(r.iv);
    DecodeEncode(c.seal(r.key, r.iv, payload));
  }

  /** For every plaintext and recipient list, each listed user recovers what the text decodes to,
      whichever encodings of the two public keys are in use. */
  lemma EveryRecipientRecovers(
    c: Crypto, plaintext: Text, recipients: seq<Recipient>, sender: Private, senderKey: string, r: Random,
    keys: map<UserId, string>, k: nat, reader: Private)
    requires Lawful(c) && Sized(r, |recipients|)
    requires KeysFor(recipients, Entries(c, sender, recipients, r), |recipients|, keys)
    requires IsFirst(recipients, k)
    requires Decode(recipients[k].publicKey) == Some(c.public(reader)) && Decode(senderKey) == Some(c.public(sender))
    ensures recipients[k].user in keys
    ensures Decrypted(c, Encode(c.seal(r.key, r.iv, Utf8.Encode(plaintext))), Encode(r.iv),
                      keys[recipients[k].user], senderKey, reader)
            == Some(Utf8.Delivered(plaintext))
  {
    WrapKeysAgree(c, sender, reader, senderKey, recipients[k].publicKey);
    var wrapKey := WrapKey(c, sender, recipients[k].publicKey);
    assert Entries(c, sender, recipients, r)[k] == Some(keys[recipients[k].user]);
    EntryOpens(c, wrapKey.value, r.wrapIvs[k], r, Utf8.Encode(plaintext));
    Utf8.DecodeEncode(plaintext);
  }

  /** That is the plaintext itself exactly when it has no lone surrogate and no leading U+FEFF. */
  lemma RecoveredExactlyIff(plaintext: Text)
    ensures Utf8.Delivered(plaintext) == plaintext <==>
            Utf8.WellFormed(plaintext) && !(plaintext != [] && plaintext[0] == Utf8.BOM)
  {
    Utf8.DecodeEncode(plaintext);
    Utf8.SurvivesIff(plaintext);
  }

  // ---------- what fails ----------

  /** A wrap key comes of exactly a 32-byte public key the agreement does not reject. */
  lemma WrapKeyComesIff(c: Crypto, mine: Private, peer: string, key: Bytes)
    ensures WrapKey(c, mine, peer) == Some(key) <==>
            && Decode(peer).Some? && |Decode(peer).value| == 32
            && c.agree(mine, Decode(peer).value).Some? && c.derive(c.agree(mine, Decode(peer).value).value) == key
  {}

  /** The message key comes out of an entry exactly when its bytes decode and open under the first 12 of
      them as iv, to a key of an AES length. */
  ghost predicate KeyComesOut(c: Crypto, wrapKey: Bytes, wrapped: string, key: Bytes) {
    && Decode(wrapped).Some?
    && var b := Decode(wrapped).value;
       var n := if |b| < 12 then |b| else 12;
       c.open(wrapKey, b[..n], b[n..]) == Some(key) && (|key| == 16 || |key| == 24 || |key| == 32)
  }

  /** The text comes out of a payload exactly when iv and payload decode, open under that key, and are
      text. */
  ghost predicate PayloadComesOut(c: Crypto, key: Bytes, ciphertext: string, iv: string, text: Text) {
    && Decode(iv).Some? && Decode(ciphertext).Some?
    && c.open(key, Decode(iv).value, Decode(ciphertext).value).Some?
    && Utf8.Decode(c.open(key, Decode(iv).value, Decode(ciphertext).value).value) == Some(text)
  }

  /** A text comes out of a message exactly when a wrap key, a message key and the payload do. */
  lemma TextComesOutIff(
    c: Crypto, ciphertext: string, iv: string, wrapped: string, sender: string, mine: Private, text: Text)
    ensures Decrypted(c, ciphertext, iv, wrapped, sender, mine) == Some(text) <==>
            exists wrapKey, key ::
              && WrapKey(c, mine, sender) == Some(wrapKey)
              && KeyComesOut(c, wrapKey, wrapped, key)
              && PayloadComesOut(c, key, ciphertext, iv, text)
  {
    var w := WrapKey(c, mine, sender);
    if w.Some? {
      OpenedIff(c, w.value, ciphertext, iv, wrapped, text);
    }
  }

  lemma OpenedIff(c: Crypto, wrapKey: Bytes, ciphertext: string, iv: string, wrapped: string, text: Text)
    ensures Opened(c, wrapKey, ciphertext, iv, wrapped) == Some(text) <==>
            exists key :: KeyComesOut(c, wrapKey, wrapped, key) && PayloadComesOut(c, key, ciphertext, iv, text)
  {
    if Decode(wrapped).Some? {
      var b := Decode(wrapped).value;
      assert |b| < 12 ==> b[..|b|] == b && b[|b|..] == [];
      var key := c.open(wrapKey, Head(b), Rest(b));
      assert key.Some? && (|key.value| == 16 || |key.value| == 24 || |key.value| == 32) ==>
               KeyComesOut(c, wrapKey, wrapped, key.value);
    }
  }
}
