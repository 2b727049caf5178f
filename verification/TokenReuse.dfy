/** Why EveryAttachmentSpentAToken asks for a service that forgets no deletion: a run in which one token
    lets two connections in. The answer of CheckAgentToken does not depend on its save (store.go:183-184). */
module TokenReuse {
  import opened Protocol
  import opened Threads
  import opened Enrollment
  import N = Network
  import M = Multiplexing
  import R = Reattachment
  import S = Store
  import St = StoreRuns

  lemma Extend(js: seq<Joint>, j: Joint)
    requires Run(js).Some? && Can(Run(js).value, j)
    ensures Run(js + [j]) == Some(Enrollment.Next(Run(js).value, j))
  {
    assert (js + [j])[..|js|] == js;
  }

  /** A device connects and sends its token. */
  lemma Arrives(js: seq<Joint>, cfg: N.Registration) returns (more: seq<Joint>)
    requires Run(js).Some? && cfg.device != ""
    ensures Run(more) == Some(Run(js).value.(net := R.With(Run(js).value.net, R.Joining(cfg, BVerify, AAwait, []))))
    ensures js <= more && forall j | j in more[|js|..] :: j.Network?
  {
    var net := Run(js).value.net;
    var k := |net.conns|;
    R.RegisterFrame(cfg);
    R.Dials(net, cfg);
    R.LastAgentSteps(net, R.Joining(cfg, BRegister, ARegister, []), true);
    R.LastBrokerSteps(net, R.Joining(cfg, BRegister, AAwait, [Register(cfg.device, cfg.token)]), true);
    var j1, j2, j3 := Network(N.Dial(cfg)), Network(N.Agent(k, true, 0)), Network(N.Broker(k, true));
    Extend(js, j1);
    Extend(js + [j1], j2);
    Extend(js + [j1] + [j2], j3);
    more := js + [j1] + [j2] + [j3];
    assert more[|js|..] == [j1, j2, j3];
  }

  /** Its token is accepted, and it is placed in `b.agents`. */
  lemma Enrolls(js: seq<Joint>, cfg: N.Registration, now: S.Time, f: S.Fault) returns (more: seq<Joint>)
    requires Run(js).Some? && cfg.device != ""
    requires Run(js).value.store.mem.Some? && S.Accepts(Run(js).value.store.mem.value, cfg.token, now)
    ensures Run(more).Some?
    ensures var st, st' := Run(js).value, Run(more).value;
            var check := St.Do(S.CheckAgentToken(cfg.token, now), f);
            && St.Can(st.store, check) && st'.store == St.Next(st.store, check)
            && R.Joined(st.net, cfg, R.Joining(cfg, BAdd, AAwait, []), st'.net)
  {
    var st := Run(js).value;
    var k := |st.net.conns|;
    Reachable(js);
    more := Arrives(js, cfg);
    var request := Served(now, true, f);
    R.LastBrokerSteps(st.net, R.Joining(cfg, BVerify, AAwait, []), true);
    Extend(more, Verify(k, request));
    more := more + [Verify(k, request)];
    assert Run(more).value.net == R.With(st.net, R.Joining(cfg, BAttach, AAwait, []));
    R.Attaches(st.net, cfg);
    Extend(more, Network(N.Broker(k, true)));
    more := more + [Network(N.Broker(k, true))];
  }

  /** The check's save fails, the process stops, and the next one has the token again. */
  lemma TokenIsBack(s: St.Sys, tok: Token, now: S.Time)
    requires s.mem.Some? && S.Accepts(s.mem.value, tok, now) && S.Accepts(s.renamed, tok, now)
    requires S.Recover(s.disk) == Some(s.renamed)
    ensures var s1 := St.Next(s, St.Do(S.CheckAgentToken(tok, now), S.RenameFails));
            && St.Can(s1, St.Die) && St.Can(St.Next(s1, St.Die), St.Reopen)
            && var s2 := St.Next(St.Next(s1, St.Die), St.Reopen);
               s2.mem.Some? && S.Accepts(s2.mem.value, tok, now) && s2.minted == s.minted
  {
  }

  lemma Minted(tok: Token, now: S.Time, expires: S.Time) returns (js: seq<Joint>)
    requires now < expires
    ensures Run(js).Some? && Run(js).value.net == N.START
    ensures var s := Run(js).value.store;
            && s.mem.Some? && S.Accepts(s.mem.value, tok, now) && S.Accepts(s.renamed, tok, now)
            && S.Recover(s.disk) == Some(s.renamed) && s.minted == map[tok := expires]
  {
    var mint := Service(St.Do(S.CreateAgentToken(tok, expires), S.NoFault));
    Extend([], mint);
    js := [] + [mint];
  }

  /** A token is minted, and its deletion is lost in a failing save when the first device uses it. The
      service stops, starts again, and the same token lets a second connection in: two attachments, one
      token ever minted. */
  lemma OneTokenTwoAttachments(cfg: N.Registration, now: S.Time, expires: S.Time) returns (js: seq<Joint>)
    requires cfg.device != "" && now < expires
    ensures Run(js).Some?
    ensures var st := Run(js).value;
            && Placed(st.net) == {0, 1} && |st.net.conns| == 2
            && st.net.conns[0].reg.token == cfg.token && st.net.conns[1].reg.token == cfg.token
            && st.store.minted.Keys == {cfg.token}
            && |Placed(st.net)| > |st.store.minted.Keys|
  {
    var minted := Minted(cfg.token, now, expires);
    var first := Enrolls(minted, cfg, now, S.RenameFails);
    TokenIsBack(Run(minted).value.store, cfg.token, now);
    Extend(first, Service(St.Die));
    Extend(first + [Service(St.Die)], Service(St.Reopen));
    js := Enrolls(first + [Service(St.Die)] + [Service(St.Reopen)], cfg, now, S.NoFault);
    BothPlaced(Run(js).value.net, cfg.device);
    assert Run(js).value.store.minted == map[cfg.token := expires];
  }

  lemma BothPlaced(net: N.Net, d: DeviceId)
    requires net.log == [N.Attachment(d, 0), N.Attachment(d, 1)]
    ensures Placed(net) == {0, 1}
  {
    assert net.log[0] in net.log && net.log[1] in net.log;
  }
}
