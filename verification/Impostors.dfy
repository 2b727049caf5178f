/** What an accepted handshake message proves, whoever sent it. Each message is accepted exactly if it was
    sealed with keys that need the private halves of the static keys it speaks for (sections 5.3 and 7.5 of
    the Noise Protocol Framework); so someone who has neither can only repeat what was sent. */
module Impostors {
  import opened Protocol
  import opened Noise

  /** The Diffie-Hellman secret of two private keys. */
  function Secret(a: nat, b: nat): Term { if a <= b then Shared(a, b) else Shared(b, a) }

  /** The hash of the transcript before the first message to the responder with key `r`. */
  function Prologue(r: nat): Term { Hash(Hash(ProtocolName, Empty), Public(Of(r))) }

  // ----- the first message: e, es, s, ss -----

  /** The message names `claimed`, under a key from `es`, and its payload is sealed under a key from `es` and
      `ss`: the second secret is that of the claimed key and the responder's. */
  predicate Proves1(m: Message, r: nat, claimed: nat) {
    && m.Message1? && m.e.Of?
    && var es, ss := Secret(r, m.e.private), Secret(r, claimed);
       var h := Hash(Prologue(r), Public(m.e));
       && m.s == Sealed(Derived(ProtocolName, es), 0, h, Public(Of(claimed)))
       && m.payload.Sealed? && m.payload.k == Derived(Chain(ProtocolName, es), ss)
       && m.payload.n == 0 && m.payload.ad == Hash(h, m.s)
  }

  /** The responder accepts a first message, as that of `claimed`, exactly if it proves it. */
  lemma FirstMessageProves(r: nat, e: nat, m: Message, claimed: nat)
    ensures var hs := ReadMessage1(Initialize(Of(r), r, e, NOBODY), m);
            (hs.Some? && hs.value.rs == Of(claimed)) <==> Proves1(m, r, claimed)
  {
  }

  lemma FirstMessageNamesAKey(r: nat, e: nat, m: Message)
    ensures var hs := ReadMessage1(Initialize(Of(r), r, e, NOBODY), m);
            hs.Some? ==> hs.value.rs.Of? && Proves1(m, r, hs.value.rs.private)
  {
  }

  // ----- the second message: e, ee, se -----

  /** The payload is sealed under a key from all four secrets: through `es` and `ss` it needs the responder's
      static key, and through `se` the initiator's. */
  predicate Proves2(m: Message, iStatic: nat, iEphemeral: nat, r: nat) {
    && m.Message2? && m.e.Of? && m.payload.Sealed? && m.payload.n == 0
    && m.payload.k == Derived(
         Chain(Chain(Chain(ProtocolName, Secret(iEphemeral, r)), Secret(iStatic, r)), Secret(iEphemeral, m.e.private)),
         Secret(iStatic, m.e.private))
  }

  /** The initiator that pinned `r` accepts a second message only if it proves this, and, for the right
      transcript, whenever it does. */
  lemma SecondMessageProves(iStatic: nat, iEphemeral: nat, r: nat, m: Message)
    ensures var out := WriteMessage1(Initialize(Of(r), iStatic, iEphemeral, Of(r)));
            && out.Some?
            && (ReadMessage2(out.value.0, m).Some?
                <==> Proves2(m, iStatic, iEphemeral, r) && m.payload.ad == Hash(out.value.0.sym.h, Public(m.e)))
  {
  }

  // ----- someone in between -----

  /** `t` can be made from the private keys `own` and the terms `known`. */
  predicate Makes(own: set<nat>, known: seq<Term>, t: Term) {
    || t.ProtocolName? || t.Empty? || t.Public?
    || (t.Shared? && (t.low in own || t.high in own))
    || (t.Hash? && t.h in known && t.data in known)
    || (t.Chain? && t.ck in known && t.input in known)
    || (t.Derived? && t.ck in known && t.input in known)
    || (t.Split1? && t.ck in known)
    || (t.Split2? && t.ck in known)
    || (t.Sealed? && t.k in known && t.ad in known && t.plain in known)
    || exists c | c in known :: c.Sealed? && c.plain == t && c.k in known
  }

  /** Each term of `ts` was seen on the wire or made from those before it. */
  predicate Derivation(own: set<nat>, seen: set<Term>, ts: seq<Term>) {
    forall i | 0 <= i < |ts| :: ts[i] in seen || Makes(own, ts[..i], ts[i])
  }

  /** What handshakes put on the wire: public keys, and sealed public keys and empty payloads. */
  predicate OnTheWire(seen: set<Term>) {
    forall t | t in seen :: t.Public? || (t.Sealed? && (t.plain.Public? || t.plain.Empty?))
  }

  /** `t` gives nothing away that needs `secret`, and nothing is sealed with it but what was seen. */
  predicate Clear(t: Term, secret: Term, seen: set<Term>) {
    match t
    case Shared(_, _) => t != secret
    case Chain(ck, input) => Clear(ck, secret, seen) && Clear(input, secret, seen)
    case Derived(ck, input) => Clear(ck, secret, seen) && Clear(input, secret, seen)
    case Split1(ck) => Clear(ck, secret, seen)
    case Split2(ck) => Clear(ck, secret, seen)
    case Sealed(k, _, _, plain) => (t in seen || Clear(k, secret, seen)) && Clear(plain, secret, seen)
    case _ => true
  }

  /** Without either private key nothing is made that needs their secret. */
  lemma {:induction false} DerivationsAreClear(own: set<nat>, seen: set<Term>, ts: seq<Term>, a: nat, b: nat)
    requires Derivation(own, seen, ts) && OnTheWire(seen) && a !in own && b !in own
    ensures forall t | t in ts :: Clear(t, Secret(a, b), seen)
    decreases |ts|
  {
    if ts != [] {
      var n := |ts| - 1;
      forall i | 0 <= i < n
        ensures ts[..n][i] in seen || Makes(own, ts[..n][..i], ts[..n][i])
      {
        assert ts[..n][..i] == ts[..i];
      }
      DerivationsAreClear(own, seen, ts[..n], a, b);
      MadeTermsAreClear(own, seen, ts[..n], ts[n], a, b);
      assert ts == ts[..n] + [ts[n]];
    }
  }

  lemma MadeTermsAreClear(own: set<nat>, seen: set<Term>, known: seq<Term>, t: Term, a: nat, b: nat)
    requires OnTheWire(seen) && a !in own && b !in own && (t in seen || Makes(own, known, t))
    requires forall u | u in known :: Clear(u, Secret(a, b), seen)
    ensures Clear(t, Secret(a, b), seen)
  {
  }

  /** What is sealed under a key that needs the secret was seen before. */
  lemma SealsAreSeen(own: set<nat>, seen: set<Term>, ts: seq<Term>, a: nat, b: nat, t: Term)
    requires Derivation(own, seen, ts) && OnTheWire(seen) && a !in own && b !in own && t in ts
    requires t.Sealed? && !Clear(t.k, Secret(a, b), seen)
    ensures t in seen
  {
    DerivationsAreClear(own, seen, ts, a, b);
    assert Clear(t, Secret(a, b), seen);
  }

  lemma FirstKeyIsSecret(m: Message, r: nat, claimed: nat, seen: set<Term>)
    requires Proves1(m, r, claimed)
    ensures m.payload.Sealed? && !Clear(m.payload.k, Secret(r, claimed), seen)
  {
  }

  lemma SecondKeyIsSecret(m: Message, iStatic: nat, iEphemeral: nat, r: nat, seen: set<Term>)
    requires Proves2(m, iStatic, iEphemeral, r)
    ensures m.payload.Sealed? && !Clear(m.payload.k, Secret(iEphemeral, r), seen)
  {
    var es := Secret(iEphemeral, r);
    assert !Clear(Chain(ProtocolName, es), es, seen);
    assert !Clear(Chain(Chain(ProtocolName, es), Secret(iStatic, r)), es, seen);
  }

  /** Nobody passes for another: if the responder `r` accepts a first message as that of `claimed`, and its
      sender has neither private key, then its payload is one that was on the wire before. */
  lemma NobodyPassesForAnInitiator(
    own: set<nat>, seen: set<Term>, ts: seq<Term>, r: nat, e: nat, m: Message, claimed: nat)
    requires Derivation(own, seen, ts) && OnTheWire(seen) && m.Message1? && m.payload in ts
    requires r !in own && claimed !in own
    requires var hs := ReadMessage1(Initialize(Of(r), r, e, NOBODY), m); hs.Some? && hs.value.rs == Of(claimed)
    ensures m.payload in seen
  {
    assert Proves1(m, r, claimed) by { FirstMessageProves(r, e, m, claimed); }
    FirstKeyIsSecret(m, r, claimed, seen);
    SealsAreSeen(own, seen, ts, r, claimed, m.payload);
  }

  /** If the initiator accepts a second message, and its sender has neither the pinned key nor the
      initiator's ephemeral one, then its payload is one that was on the wire before. */
  lemma NobodyPassesForAResponder(
    own: set<nat>, seen: set<Term>, ts: seq<Term>, iStatic: nat, iEphemeral: nat, r: nat, m: Message)
    requires Derivation(own, seen, ts) && OnTheWire(seen) && m.Message2? && m.payload in ts
    requires r !in own && iEphemeral !in own
    requires var out := WriteMessage1(Initialize(Of(r), iStatic, iEphemeral, Of(r)));
             out.Some? && ReadMessage2(out.value.0, m).Some?
    ensures m.payload in seen
  {
    assert Proves2(m, iStatic, iEphemeral, r) by { SecondMessageProves(iStatic, iEphemeral, r, m); }
    SecondKeyIsSecret(m, iStatic, iEphemeral, r, seen);
    SealsAreSeen(own, seen, ts, iEphemeral, r, m.payload);
  }

  lemma ResponderKeys(r: nat, e: nat, m: Message, claimed: nat)
    requires Proves1(m, r, claimed)
    ensures var hs := ReadMessage1(Initialize(Of(r), r, e, NOBODY), m);
            && hs.Some?
            && var out := WriteMessage2(hs.value);
               && out.Some?
               && var ck := Chain(Chain(Chain(Chain(ProtocolName, Secret(r, m.e.private)), Secret(r, claimed)),
                                        Secret(e, m.e.private)), Secret(e, claimed));
                  out.value.1 == Split1(ck) && out.value.2 == Split2(ck)
  {
  }

  /** A first message can be repeated. It gets its sender nothing: without the claimed private key and the
      responder's ephemeral one, the keys of the session stay out of reach. */
  lemma RepeatersGetNoKeys(
    own: set<nat>, seen: set<Term>, ts: seq<Term>, r: nat, e: nat, m: Message, claimed: nat)
    requires Derivation(own, seen, ts) && OnTheWire(seen) && claimed !in own && e !in own
    requires var hs := ReadMessage1(Initialize(Of(r), r, e, NOBODY), m); hs.Some? && hs.value.rs == Of(claimed)
    ensures var hs := ReadMessage1(Initialize(Of(r), r, e, NOBODY), m).value;
            && WriteMessage2(hs).Some?
            && WriteMessage2(hs).value.1 !in ts && WriteMessage2(hs).value.2 !in ts
  {
    assert Proves1(m, r, claimed) by { FirstMessageProves(r, e, m, claimed); }
    ResponderKeys(r, e, m, claimed);
    KeysAreOutOfReach(own, seen, ts, e, claimed,
      Chain(Chain(Chain(ProtocolName, Secret(r, m.e.private)), Secret(r, claimed)), Secret(e, m.e.private)));
  }

  lemma KeysAreOutOfReach(own: set<nat>, seen: set<Term>, ts: seq<Term>, a: nat, b: nat, ck: Term)
    requires Derivation(own, seen, ts) && OnTheWire(seen) && a !in own && b !in own
    ensures Split1(Chain(ck, Secret(a, b))) !in ts && Split2(Chain(ck, Secret(a, b))) !in ts
  {
    DerivationsAreClear(own, seen, ts, a, b);
    assert !Clear(Chain(ck, Secret(a, b)), Secret(a, b), seen);
    assert !Clear(Split1(Chain(ck, Secret(a, b))), Secret(a, b), seen);
    assert !Clear(Split2(Chain(ck, Secret(a, b))), Secret(a, b), seen);
  }

  /** With either private key the message can be made: what the theorem above asks for is needed. */
  lemma OwnersPass(r: nat, e: nat, own: nat, ephemeral: nat)
    ensures var out := WriteMessage1(Initialize(Of(r), own, ephemeral, Of(r)));
            && out.Some?
            && var hs := ReadMessage1(Initialize(Of(r), r, e, NOBODY), out.value.1);
               hs.Some? && hs.value.rs == Of(own)
  {
  }
}
