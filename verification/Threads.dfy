/** What one step of each thread does to the session it is working for: the browser handler
    (`connectWS`), the shell goroutine (`openShell`), the agent's receive loop (`Run`) and the
    broker's loop for one agent (`agentWS`). A program counter names the next source line; a thread
    stops at every lock boundary, channel operation and socket or PTY call. */
module Threads {
  import opened Protocol

  /** A websocket frame; anything that is neither text nor binary is skipped. */
  datatype Frame = Data(bytes: Bytes) | Other

  function FrameBytes(f: Frame): Bytes { if f.Data? then f.bytes else [] }

  function InboxBytes(q: seq<Frame>): Bytes {
    if q == [] then [] else FrameBytes(q[0]) + InboxBytes(q[1..])
  }

  lemma {:induction false} InboxAppend(q: seq<Frame>, f: Frame)
    ensures InboxBytes(q + [f]) == InboxBytes(q) + FrameBytes(f)
  {
    if q == [] {
    } else {
      assert (q + [f])[1..] == q[1..] + [f];
      InboxAppend(q[1..], f);
    }
  }

  /** A browser's websocket. `typed`, `taken` and `shown` are histories: bytes the browser sent,
      bytes the handler has read, bytes written to the browser. `broken` records a failed write, `left`
      that the browser itself went away. */
  datatype Browser = Browser(
    inbox: seq<Frame>, typed: Bytes, taken: Bytes, shown: Bytes, closed: bool, broken: bool, left: bool)

  /** connectWS, broker.go:183-221. */
  datatype HandlerPc =
    | HUpgrade                 // 183
    | HInsert                  // 188-190
    | HOpen                    // 192
    | HRead                    // 199
    | HForward(data: Bytes)    // 206
    | HBye                     // 210
    | HDrop                    // 215-218
    | HHangup                  // 219-221
    | HDone

  /** The goroutine of openShell, agent.go:117-133, with closeShell inlined. */
  datatype PumpPc =
    | PIdle                             // not started yet
    | PRead                             // 120
    | PSend(chunk: Bytes, eof: bool)    // 122-130
    | PClaim                            // 146-149
    | PKill(victim: nat)                // 151
    | PBye                              // 152
    | PDone

  /** A shell started by the agent, with its goroutine. `unread` is output the PTY holds; `produced`,
      `read`, `sent` and `fed` are histories of the output produced, read, put on the channel, and of
      the input written. `closes` counts `Close` calls; `jammed` records a failed write. */
  datatype Shell = Shell(
    pump: PumpPc, unread: Bytes, produced: Bytes, read: Bytes, sent: Bytes, fed: Bytes,
    closes: nat, exited: bool, jammed: bool)

  const NEW_SHELL := Shell(PIdle, [], [], [], [], [], 0, false, false)
  const BUFFER_SIZE: nat := 4096

  /** Everything that belongs to one session. `upgraded`, `asked`, `refused`, `typedOn`, `byes` and `ends`
      are histories: whether the browser's websocket was accepted, whether `open` was put on the channel,
      whether the agent failed to start a shell, the keystrokes put on the channel, and the `close` frames
      put on it in each direction. `shells` lists every shell ever started for the session. */
  datatype Sess = Sess(
    owner: ConnId, h: HandlerPc, browser: Browser, upgraded: bool, asked: bool, refused: bool, typedOn: Bytes,
    byes: nat, ends: nat, shells: seq<Shell>)

  function NewSess(owner: ConnId): Sess {
    Sess(owner, HUpgrade, Browser([], [], [], [], false, false, false), false, false, false, [], 0, 0, [])
  }

  /** agent.Run, agent.go:55-93. */
  datatype AgentPc =
    | ARegister                                         // 55
    | AAwait                                            // 60-73
    | AServe                                            // 76
    | AGot(m: Msg)                                      // 85-92, and 107 for `open`
    | AStarted(session: SessionId, shell: nat)          // 112-117
    | ARefuse(session: SessionId)                       // 109
    | AFeed(session: SessionId, shell: nat, data: Bytes)  // 141
    | AKill(session: SessionId, shell: nat)             // 151
    | ABye(session: SessionId)                          // 152
    | AStop(todo: map<SessionId, nat>)                  // 161-163
    | ALeft

  /** agentWS, broker.go:107-164. */
  datatype BrokerPc =
    | BRegister                             // 107
    | BVerify                               // 117
    | BReject                               // 118
    | BQuit                                 // 109, 114, 119
    | BAttach                               // 124-129
    | BAdd                                  // 130
    | BAnnounce                             // 134
    | BServe                                // 138
    | BGot(m: Msg)                          // 146
    | BDeliver(session: SessionId, data: Bytes)  // 152
    | BHangup(session: SessionId)           // 220
    | BDetach                               // 159-163
    | BRemove                               // 164
    | BDone

  // ----- connectWS -----

  /** Whether the browser handler can take a step; `ok` is the outcome of its next call. */
  predicate HandlerCan(x: Sess, down: bool, ok: bool) {
    match x.h
    case HUpgrade => true
    case HOpen => ok || down
    case HRead => if ok then x.browser.inbox != [] else x.browser.closed
    case HForward(_) => ok || down
    case HBye => ok || down
    case HDone => false
    case _ => ok
  }

  /** The message the handler puts on the agent's channel in this step. */
  function HandlerSays(x: Sess, s: SessionId, ok: bool): Option<Msg> {
    if !ok then None else
    match x.h
    case HOpen => Some(Open(s))
    case HForward(d) => Some(Input(s, d))
    case HBye => Some(Close(s))
    case _ => None
  }

  /** `present`: the session is in `b.sessions`. */
  function HandlerDo(x: Sess, down: bool, present: bool, ok: bool): Sess
    requires HandlerCan(x, down, ok)
  {
    match x.h
    case HUpgrade => if ok then x.(h := HInsert, upgraded := true) else x.(h := HDone)
    case HInsert => x.(h := HOpen)
    case HOpen => if ok then x.(h := HRead, asked := true) else x.(h := HDrop)
    case HRead =>
      if !ok then x.(h := HBye) else
      var f := x.browser.inbox[0];
      x.(h := if f.Data? then HForward(f.bytes) else HRead,
         browser := x.browser.(inbox := x.browser.inbox[1..], taken := x.browser.taken + FrameBytes(f)))
    case HForward(d) => if ok then x.(h := HRead, typedOn := x.typedOn + d) else x.(h := HBye)
    case HBye => x.(h := HDrop, byes := x.byes + if ok then 1 else 0)
    case HDrop => x.(h := if present then HHangup else HDone)
    case HHangup => x.(h := HDone, browser := x.browser.(closed := true))
  }

  // ----- the shell goroutine -----

  predicate PumpCan(x: Sess, i: nat, down: bool, ok: bool, n: nat) {
    && i < |x.shells|
    && var sh := x.shells[i];
    match sh.pump
    case PRead => n <= |sh.unread| && n <= BUFFER_SIZE && if ok then 0 < n else sh.exited || 0 < sh.closes
    case PSend(_, _) => ok || down
    case PClaim => ok
    case PKill(j) => ok && j < |x.shells|
    case PBye => ok || down
    case _ => false
  }

  function PumpSays(x: Sess, s: SessionId, i: nat, ok: bool): Option<Msg>
    requires i < |x.shells|
  {
    if !ok then None else
    match x.shells[i].pump
    case PSend(d, _) => Some(Output(s, d))
    case PBye => Some(Close(s))
    case _ => None
  }

  /** `table` is this session's entry in `a.shells`; PClaim removes it. */
  function PumpDo(x: Sess, i: nat, down: bool, ok: bool, n: nat, table: Option<nat>): Sess
    requires PumpCan(x, i, down, ok, n)
  {
    var sh := x.shells[i];
    match sh.pump
    case PRead =>
      var sh' := sh.(unread := sh.unread[n..], read := sh.read + sh.unread[..n]);
      x.(shells := x.shells[i := sh'.(pump := if n == 0 then PClaim else PSend(sh.unread[..n], !ok))])
    case PSend(d, eof) =>
      var sh' := if ok then sh.(sent := sh.sent + d, pump := if eof then PClaim else PRead) else sh.(pump := PClaim);
      x.(shells := x.shells[i := sh'])
    case PClaim => x.(shells := x.shells[i := sh.(pump := if table.Some? then PKill(table.value) else PDone)])
    case PKill(j) =>
      var y := x.(shells := x.shells[i := sh.(pump := PBye)]);
      CloseShell(y, j)
    case PBye => x.(shells := x.shells[i := sh.(pump := PDone)], ends := x.ends + if ok then 1 else 0)
  }

  /** `sh.Close()`. */
  function CloseShell(x: Sess, i: nat): Sess
    requires i < |x.shells|
  {
    x.(shells := x.shells[i := x.shells[i].(closes := x.shells[i].closes + 1)])
  }

  // ----- the agent's receive loop, on the session it is working for -----

  /** The session the agent's loop is working for, if any. */
  function AgentSubject(a: AgentPc): Option<SessionId> {
    match a
    case AGot(m) => Subject(m)
    case AStarted(s, _) => Some(s)
    case ARefuse(s) => Some(s)
    case AFeed(s, _, _) => Some(s)
    case AKill(s, _) => Some(s)
    case ABye(s) => Some(s)
    case _ => None
  }

  /** A step of the loop at a program counter that names a session; `ok` and `n` are the outcomes of
      `shell.Start`, of a channel write, and the number of bytes a PTY write accepts. */
  predicate AgentCan(x: Sess, a: AgentPc, down: bool, ok: bool, n: nat) {
    match a
    case AGot(m) => m.Open? || ok
    case AStarted(_, i) => ok && i < |x.shells|
    case ARefuse(_) => ok || down
    case AFeed(_, i, d) =>
      && ok && i < |x.shells|
      && var sh := x.shells[i];
      && (n == |d| || (n < |d| && (sh.exited || sh.jammed || 0 < sh.closes)))
      && (sh.jammed || 0 < sh.closes ==> n == 0)
    case AKill(_, i) => ok && i < |x.shells|
    case ABye(_) => ok || down
    case _ => false
  }

  function AgentSays(a: AgentPc, ok: bool): Option<Msg> {
    match a
    case ARefuse(s) => if ok then Some(Close(s)) else None
    case ABye(s) => if ok then Some(Close(s)) else None
    case _ => None
  }

  function AgentDo(x: Sess, a: AgentPc, down: bool, ok: bool, n: nat): Sess
    requires AgentCan(x, a, down, ok, n)
  {
    match a
    case AGot(m) =>
      if !m.Open? then x else if ok then x.(shells := x.shells + [NEW_SHELL]) else x.(refused := true)
    case AStarted(_, i) => x.(shells := x.shells[i := x.shells[i].(pump := PRead)])
    case ARefuse(_) => x.(ends := x.ends + if ok then 1 else 0)
    case AFeed(_, i, d) =>
      var sh := x.shells[i];
      x.(shells := x.shells[i := sh.(fed := sh.fed + d[..n], jammed := sh.jammed || n < |d|)])
    case AKill(_, i) => CloseShell(x, i)
    case ABye(_) => x.(ends := x.ends + if ok then 1 else 0)
  }

  /** Where the loop goes next. */
  function AgentGoes(x: Sess, a: AgentPc, ok: bool, table: Option<nat>): AgentPc {
    match a
    case AGot(m) =>
      (match m
       case Open(s) => if ok then AStarted(s, |x.shells|) else ARefuse(s)
       case Input(s, d) => if table.Some? then AFeed(s, table.value, d) else AServe
       case Close(s) => if table.Some? then AKill(s, table.value) else AServe
       case _ => AServe)
    case AKill(s, _) => ABye(s)
    case _ => AServe
  }

  /** The session's entry in `a.shells` after the step. */
  function AgentTable(a: AgentPc, table: Option<nat>): Option<nat> {
    match a
    case AGot(m) => if m.Close? then None else table
    case AStarted(_, i) => Some(i)
    case _ => table
  }

  // ----- the broker's loop for one agent, on the session it is working for -----

  function BrokerSubject(b: BrokerPc): Option<SessionId> {
    match b
    case BGot(m) => Subject(m)
    case BDeliver(s, _) => Some(s)
    case BHangup(s) => Some(s)
    case _ => None
  }

  predicate BrokerCan(x: Sess, b: BrokerPc, ok: bool) {
    match b
    case BDeliver(_, _) => if ok then !x.browser.broken else x.browser.closed || x.browser.broken
    case _ => ok
  }

  function BrokerDo(x: Sess, b: BrokerPc, ok: bool): Sess {
    match b
    case BDeliver(_, d) =>
      x.(browser := if ok then x.browser.(shown := x.browser.shown + d) else x.browser.(broken := true))
    case BHangup(_) => x.(browser := x.browser.(closed := true))
    case _ => x
  }

  function BrokerGoes(b: BrokerPc, present: bool): BrokerPc {
    match b
    case BGot(m) =>
      if !present then BServe else
      (match m
       case Output(s, d) => BDeliver(s, d)
       case Close(s) => BHangup(s)
       case _ => BServe)
    case _ => BServe
  }

  // ----- browsers and shells -----

  function Typing(x: Sess, f: Frame): Sess {
    x.(browser := x.browser.(inbox := x.browser.inbox + [f], typed := x.browser.typed + FrameBytes(f)))
  }

  function Leaving(x: Sess): Sess { x.(browser := x.browser.(closed := true, left := true)) }

  function Producing(x: Sess, i: nat, d: Bytes): Sess
    requires i < |x.shells|
  {
    var sh := x.shells[i];
    x.(shells := x.shells[i := sh.(unread := sh.unread + d, produced := sh.produced + d)])
  }

  function Exiting(x: Sess, i: nat): Sess
    requires i < |x.shells|
  {
    x.(shells := x.shells[i := x.shells[i].(exited := true)])
  }
}
