/** The Noise Protocol Framework (revision 34) over symbolic terms: sections 5.1 to 5.3, and the two
    messages of the IK pattern of section 7.5, with an empty prologue and empty payloads. Perfect
    cryptography: different inputs give different terms, and a ciphertext opens only under the key,
    nonce and associated data it was sealed with. */
module Noise {
  import opened Protocol

  /** A public key either belongs to a private key or is some other byte string; the empty string is
      no key at all. */
  datatype PublicKey = Of(private: nat) | Raw(bytes: Bytes)

  datatype Term =
    | ProtocolName
    | Empty
    | Public(key: PublicKey)
    | Shared(low: nat, high: nat)
    | Hash(h: Term, data: Term)
    | Chain(ck: Term, input: Term)          // HKDF, first output
    | Derived(ck: Term, input: Term)        // HKDF, second output
    | Split1(ck: Term)
    | Split2(ck: Term)
    | Sealed(k: Term, n: nat, ad: Term, plain: Term)

  /** Both parties compute the same secret from their own private and the other's public key. */
  function DH(private: nat, public: PublicKey): Option<Term> {
    if public.Raw? then None
    else if private <= public.private then Some(Shared(private, public.private))
    else Some(Shared(public.private, private))
  }

  lemma DHAgrees(a: nat, b: nat)
    ensures DH(a, Of(b)) == DH(b, Of(a))
  {
  }

  function Open(k: Term, n: nat, ad: Term, c: Term): Option<Term> {
    if c.Sealed? && c.k == k && c.n == n && c.ad == ad then Some(c.plain) else None
  }

  // ----- section 5.2: SymmetricState -----

  datatype Symmetric = Symmetric(ck: Term, h: Term, k: Option<Term>, n: nat)

  const INITIAL := Symmetric(ProtocolName, ProtocolName, None, 0)

  function MixKey(s: Symmetric, input: Term): Symmetric {
    s.(ck := Chain(s.ck, input), k := Some(Derived(s.ck, input)), n := 0)
  }

  function MixHash(s: Symmetric, data: Term): Symmetric { s.(h := Hash(s.h, data)) }

  function EncryptAndHash(s: Symmetric, plain: Term): (Symmetric, Term) {
    if s.k.None? then (MixHash(s, plain), plain)
    else
      var c := Sealed(s.k.value, s.n, s.h, plain);
      (MixHash(s, c).(n := s.n + 1), c)
  }

  function DecryptAndHash(s: Symmetric, c: Term): Option<(Symmetric, Term)> {
    if s.k.None? then Some((MixHash(s, c), c))
    else
      var plain := Open(s.k.value, s.n, s.h, c);
      if plain.None? then None else Some((MixHash(s, c).(n := s.n + 1), plain.value))
  }

  // ----- section 5.3: HandshakeState, for IK -----

  /** `s` and `e` are private keys; `rs` and `re` the remote public keys. */
  datatype Handshake = Handshake(sym: Symmetric, s: nat, e: nat, rs: PublicKey, re: PublicKey)

  datatype Message = Message1(e: PublicKey, s: Term, payload: Term) | Message2(e: PublicKey, payload: Term)

  const NOBODY := Raw([])

  /** Initialize, with the pre-message `<- s`. */
  function Initialize(responder: PublicKey, s: nat, e: nat, rs: PublicKey): Handshake {
    Handshake(MixHash(MixHash(INITIAL, Empty), Public(responder)), s, e, rs, NOBODY)
  }

  /** `-> e, es, s, ss` */
  function WriteMessage1(hs: Handshake): Option<(Handshake, Message)> {
    var sym0 := MixHash(hs.sym, Public(Of(hs.e)));
    var es := DH(hs.e, hs.rs);
    if es.None? then None else
    var (sym1, s) := EncryptAndHash(MixKey(sym0, es.value), Public(Of(hs.s)));
    var ss := DH(hs.s, hs.rs);
    if ss.None? then None else
    var (sym2, payload) := EncryptAndHash(MixKey(sym1, ss.value), Empty);
    Some((hs.(sym := sym2), Message1(Of(hs.e), s, payload)))
  }

  function ReadMessage1(hs: Handshake, m: Message): Option<Handshake> {
    if !m.Message1? then None else
    var sym0 := MixHash(hs.sym, Public(m.e));
    var es := DH(hs.s, m.e);
    if es.None? then None else
    var identity := DecryptAndHash(MixKey(sym0, es.value), m.s);
    if identity.None? || !identity.value.1.Public? then None else
    var rs := identity.value.1.key;
    var ss := DH(hs.s, rs);
    if ss.None? then None else
    var payload := DecryptAndHash(MixKey(identity.value.0, ss.value), m.payload);
    if payload.None? then None else Some(hs.(sym := payload.value.0, rs := rs, re := m.e))
  }

  /** `<- e, ee, se`, and Split: the first key is for initiator to responder. */
  function WriteMessage2(hs: Handshake): Option<(Message, Term, Term)> {
    var sym0 := MixHash(hs.sym, Public(Of(hs.e)));
    var ee := DH(hs.e, hs.re);
    var se := DH(hs.e, hs.rs);
    if ee.None? || se.None? then None else
    var (sym1, payload) := EncryptAndHash(MixKey(MixKey(sym0, ee.value), se.value), Empty);
    Some((Message2(Of(hs.e), payload), Split1(sym1.ck), Split2(sym1.ck)))
  }

  function ReadMessage2(hs: Handshake, m: Message): Option<(Term, Term)> {
    if !m.Message2? then None else
    var sym0 := MixHash(hs.sym, Public(m.e));
    var ee := DH(hs.e, m.e);
    var se := DH(hs.s, m.e);
    if ee.None? || se.None? then None else
    var payload := DecryptAndHash(MixKey(MixKey(sym0, ee.value), se.value), m.payload);
    if payload.None? then None else Some((Split1(payload.value.0.ck), Split2(payload.value.0.ck)))
  }
}
