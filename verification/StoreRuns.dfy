/** Runs of the store with crashes anywhere, reopenings, and saves that fail. */
module StoreRuns {
  import opened Protocol
  import opened Store

  /** `mem` is the data of the running process, if one runs. Histories: `renamed` is the data in memory
      at the last completed rename; `minted` the tokens minted with their expiry; `wins` the tokens for
      which CheckAgentToken returned true. */
  datatype Sys = Sys(
    mem: Option<Data>, disk: Disk, renamed: Data, minted: map<string, Time>, wins: seq<string>)

  const FIRST := Sys(Some(EMPTY), Disk(Absent, Absent), EMPTY, map[], [])

  datatype Event =
    | Do(op: Op, f: Fault)        // a method runs to its end
    | Touch(u: User)              // a caller edits, in place, a user record that GetUser gave it
    | Crash(op: Op, at: Point)    // the process dies inside a method
    | Die                         // the process dies between methods
    | Reopen

  /** `randomToken` returns fresh values. */
  predicate FreshToken(s: Sys, op: Op) {
    op.CreateAgentToken? ==> op.tok !in s.minted
  }

  predicate Can(s: Sys, e: Event) {
    match e
    case Do(op, _) => s.mem.Some? && FreshToken(s, op)
    case Touch(u) => s.mem.Some? && u.name in s.mem.value.users
    case Crash(op, _) => s.mem.Some? && FreshToken(s, op)
    case Die => s.mem.Some?
    case Reopen => s.mem.None? && Recover(s.disk).Some?
  }

  function Mint(s: Sys, op: Op): map<string, Time> {
    if op.CreateAgentToken? then s.minted[op.tok := op.expires] else s.minted
  }

  function Next(s: Sys, e: Event): Sys
    requires Can(s, e)
  {
    match e
    case Do(op, f) =>
      var d := s.mem.value;
      var d' := After(d, op);
      s.(mem := Some(d'),
         disk := if Saves(d, op) then SavedDisk(s.disk, d', f) else s.disk,
         renamed := if Saves(d, op) && f.NoFault? then d' else s.renamed,
         minted := Mint(s, op),
         wins := if op.CheckAgentToken? && Accepts(d, op.tok, op.now) then s.wins + [op.tok] else s.wins)
    case Touch(u) => s.(mem := Some(s.mem.value.(users := s.mem.value.users[u.name := u])))
    case Crash(op, at) =>
      var d := s.mem.value;
      s.(mem := None,
         disk := if Saves(d, op) then DiskAt(s.disk, After(d, op), at) else s.disk,
         renamed := if Saves(d, op) && at.Renamed? then After(d, op) else s.renamed,
         minted := Mint(s, op))
    case Die => s.(mem := None)
    case Reopen => s.(mem := Recover(s.disk))
  }

  function Run(events: seq<Event>): Option<Sys> {
    if events == [] then Some(FIRST) else
    var before := Run(events[..|events| - 1]);
    var e := events[|events| - 1];
    if before.Some? && Can(before.value, e) then Some(Next(before.value, e)) else None
  }

  /** A save gets as far as its rename. */
  predicate Renames(s: Sys, e: Event)
    requires Can(s, e)
  {
    || (e.Do? && Saves(s.mem.value, e.op) && e.f.NoFault?)
    || (e.Crash? && Saves(s.mem.value, e.op) && e.at.Renamed?)
  }

  /** The process ends. */
  predicate Dies(e: Event) { e.Crash? || e.Die? }

  lemma RunAppend(events: seq<Event>, e: Event)
    requires Run(events).Some? && Can(Run(events).value, e)
    ensures Run(events + [e]) == Some(Next(Run(events).value, e))
  {
    assert (events + [e])[..|events|] == events;
  }

  // ----- crash safety -----

  /** Whatever happened, the store file holds the data in memory at the last completed rename, and
      OpenStore recovers them. */
  lemma {:induction false} RecoversLastRename(events: seq<Event>)
    requires Run(events).Some?
    ensures Recover(Run(events).value.disk) == Some(Run(events).value.renamed)
  {
    if events != [] {
      RecoversLastRename(events[..|events| - 1]);
    }
  }

  lemma UnsavedIsUnchanged(d: Data, op: Op)
    requires !Saves(d, op)
    ensures After(d, op) == d
  {
    if op.CheckAgentToken? { assert d.agentTokens - {op.tok} == d.agentTokens; }
  }

  /** The crash inside `op` loses that method or nothing. */
  predicate BeforeOrAfter(s: Sys, op: Op, at: Point)
    requires Can(s, Crash(op, at))
  {
    var r := Recover(Next(s, Crash(op, at)).disk);
    r == Some(s.mem.value) || r == Some(After(s.mem.value, op))
  }

  /** In any run: if the rename of the interrupted method was done, the state after it is recovered. If it
      was not, the state before the method or after it is recovered exactly when the file had all that
      memory had, or already had what the method would have left. */
  lemma CrashBeforeTheRename(events: seq<Event>, op: Op, at: Point)
    requires Run(events).Some? && Can(Run(events).value, Crash(op, at))
    ensures var s := Run(events).value;
            && (Renames(s, Crash(op, at)) ==> Recover(Next(s, Crash(op, at)).disk) == Some(After(s.mem.value, op)))
            && (!Renames(s, Crash(op, at)) ==>
                  (BeforeOrAfter(s, op, at) <==> s.mem.value == s.renamed || After(s.mem.value, op) == s.renamed))
  {
    RecoversLastRename(events);
  }

  /** The step changes memory, and no rename follows in it: an edit in place, or a method whose save
      failed. */
  predicate Diverges(s: Sys, e: Event)
    requires Can(s, e)
  {
    (e.Do? || e.Touch?) && !Renames(s, e) && Next(s, e).mem != s.mem
  }

  /** No such step since the last completed rename or the last reopening. */
  predicate Clean(events: seq<Event>)
    requires Run(events).Some?
  {
    events == [] ||
    var before, e := events[..|events| - 1], events[|events| - 1];
    e.Reopen? || Renames(Run(before).value, e) || (Clean(before) && !Diverges(Run(before).value, e))
  }

  lemma {:induction false} CleanRunsAreSaved(events: seq<Event>)
    requires Run(events).Some? && Clean(events)
    ensures Run(events).value.mem.Some? ==> Run(events).value.mem.value == Run(events).value.renamed
  {
    if events != [] {
      var before, e := events[..|events| - 1], events[|events| - 1];
      RecoversLastRename(before);
      if !e.Reopen? && !Renames(Run(before).value, e) { CleanRunsAreSaved(before); }
    }
  }

  /** Every crash at every point of every method loses that method or nothing, exactly when memory has
      nothing that the file lacks. */
  lemma EveryCrashIsBeforeOrAfter(events: seq<Event>)
    requires Run(events).Some? && Run(events).value.mem.Some?
    ensures var s := Run(events).value;
            (forall op, at | Can(s, Crash(op, at)) :: BeforeOrAfter(s, op, at)) <==> s.mem.value == s.renamed
  {
    var s := Run(events).value;
    if s.mem.value == s.renamed {
      forall op, at | Can(s, Crash(op, at))
        ensures BeforeOrAfter(s, op, at)
      {
        CrashBeforeTheRename(events, op, at);
      }
    } else {
      var tok := FreshName(s.renamed.invites.Keys);
      CrashBeforeTheRename(events, CreateInvite(tok, "", 0), Untouched);
      assert !BeforeOrAfter(s, CreateInvite(tok, "", 0), Untouched);
    }
  }

  /** In terms of what happened: in a clean run every crash loses the interrupted method or nothing, and
      the first step that leaves memory and file apart makes some crash lose more. */
  lemma CrashIsBeforeOrAfter(events: seq<Event>, e: Event)
    requires Run(events).Some? && Clean(events) && Run(events).value.mem.Some?
    requires Can(Run(events).value, e) && Diverges(Run(events).value, e)
    ensures var s := Run(events).value;
            && (forall op, at | Can(s, Crash(op, at)) :: BeforeOrAfter(s, op, at))
            && var s' := Next(s, e);
               !forall op, at | Can(s', Crash(op, at)) :: BeforeOrAfter(s', op, at)
  {
    CleanRunsAreSaved(events);
    EveryCrashIsBeforeOrAfter(events);
    RunAppend(events, e);
    EveryCrashIsBeforeOrAfter(events + [e]);
  }

  /** No save returned an error, and no user record was edited without a method call. */
  predicate Smooth(events: seq<Event>) {
    forall i | 0 <= i < |events| :: (events[i].Do? ==> events[i].f.NoFault?) && !events[i].Touch?
  }

  lemma {:induction false} SmoothRunsAreClean(events: seq<Event>)
    requires Run(events).Some? && Smooth(events)
    ensures Clean(events)
  {
    if events != [] {
      var before, e := events[..|events| - 1], events[|events| - 1];
      SmoothRunsAreClean(before);
      var s := Run(before).value;
      if e.Do? && !Saves(s.mem.value, e.op) { UnsavedIsUnchanged(s.mem.value, e.op); }
    }
  }

  /** If no save returned an error and no record was edited in place, every crash loses the interrupted
      method or nothing. */
  lemma SmoothRunsAreCrashSafe(events: seq<Event>, op: Op, at: Point)
    requires Run(events).Some? && Smooth(events) && Can(Run(events).value, Crash(op, at))
    ensures BeforeOrAfter(Run(events).value, op, at)
  {
    SmoothRunsAreClean(events);
    CleanRunsAreSaved(events);
    EveryCrashIsBeforeOrAfter(events);
  }

  /** A record that was edited but not yet saved is lost, so the crash recovers neither the state before
      PutUser nor the state after it. */
  lemma EditsInPlaceAreLost(u: User, v: User)
    requires u.name == v.name && u != v && u == User(u.id, u.name, [], "")
    ensures var s := Run([Do(CreateUser(u.name, u.id), NoFault), Touch(v)]);
            && s.Some? && Can(s.value, Crash(PutUser(v), Untouched))
            && var r := Recover(Next(s.value, Crash(PutUser(v), Untouched)).disk);
               r.Some? && r.value != s.value.mem.value && r.value != After(s.value.mem.value, PutUser(v))
  {
    var e1, e2 := Do(CreateUser(u.name, u.id), NoFault), Touch(v);
    RunAppend([], e1);
    assert [] + [e1] == [e1] && [e1] + [e2] == [e1, e2];
    RunAppend([e1], e2);
    var s := Run([e1, e2]).value;
    assert s.mem.value.users[u.name] == v && s.renamed.users[u.name] == u;
    RecoversLastRename([e1, e2]);
  }

  // ----- tokens that were accepted and are still in the file -----

  predicate Accepting(s: Sys, e: Event, t: string) {
    s.mem.Some? && e.Do? && e.op.CheckAgentToken? && e.op.tok == t && Accepts(s.mem.value, t, e.op.now)
  }

  /** Tokens that the running process has accepted, that the file had at that time, with no rename since. */
  function Pending(events: seq<Event>): set<string>
    requires Run(events).Some?
  {
    if events == [] then {} else
    var before, e := events[..|events| - 1], events[|events| - 1];
    var s := Run(before).value;
    if Dies(e) || e.Reopen? || Renames(s, e) then {}
    else if e.Do? && e.op.CheckAgentToken? && Accepting(s, e, e.op.tok) && e.op.tok in s.renamed.agentTokens
    then Pending(before) + {e.op.tok}
    else Pending(before)
  }

  /** Some process ended while there were such tokens, and not in a rename. */
  predicate Forgets(events: seq<Event>)
    requires Run(events).Some?
  {
    events != [] &&
    var before, e := events[..|events| - 1], events[|events| - 1];
    Forgets(before) || (Dies(e) && !Renames(Run(before).value, e) && Pending(before) != {})
  }

  /** The acceptance at `i` has not reached the file. */
  predicate PendingFrom(events: seq<Event>, i: nat, t: string) {
    && i < |events| && Run(events[..i]).Some? && Accepting(Run(events[..i]).value, events[i], t)
    && t in Run(events[..i]).value.renamed.agentTokens
    && forall j | i <= j < |events| :: NoRenameAt(events, j)
  }

  predicate NoRenameAt(events: seq<Event>, j: nat) {
    && j < |events| && Run(events[..j]).Some? && Can(Run(events[..j]).value, events[j])
    && !Dies(events[j]) && !events[j].Reopen? && !Renames(Run(events[..j]).value, events[j])
  }

  lemma PendingEarlier(events: seq<Event>, n: nat, i: nat, t: string)
    requires n + 1 == |events|
    ensures PendingFrom(events, i, t) && i < n ==> PendingFrom(events[..n], i, t)
    ensures PendingFrom(events[..n], i, t) && NoRenameAt(events, n) ==> PendingFrom(events, i, t)
  {
    if i < n {
      assert events[..n][..i] == events[..i];
      forall j | i <= j < n
        ensures NoRenameAt(events[..n], j) <==> NoRenameAt(events, j)
      {
        assert events[..n][..j] == events[..j];
      }
    }
  }

  /** What Pending says of the run: the token was accepted at some event, the file had it then, and since
      then no rename was completed and the process has not ended. */
  lemma {:induction false} PendingMeans(events: seq<Event>, t: string)
    requires Run(events).Some?
    ensures t in Pending(events) <==> exists i: nat :: PendingFrom(events, i, t)
  {
    if events != [] {
      var n := |events| - 1;
      PendingMeans(events[..n], t);
      if t in Pending(events) {
        assert NoRenameAt(events, n);
        if t in Pending(events[..n]) {
          var i: nat :| PendingFrom(events[..n], i, t);
          PendingEarlier(events, n, i, t);
        } else {
          assert PendingFrom(events, n, t);
        }
      }
      if i: nat :| PendingFrom(events, i, t) {
        PendingEarlier(events, n, i, t);
        assert NoRenameAt(events, n);
        if i < n { assert PendingFrom(events[..n], i, t); }
      }
    }
  }

  /** At event `k` a process ends, and not in a rename, while the acceptance of `t` at `i` has not reached
      the file. */
  predicate ForgetsAt(events: seq<Event>, k: nat, i: nat, t: string) {
    && k < |events| && Run(events[..k]).Some? && Can(Run(events[..k]).value, events[k])
    && Dies(events[k]) && !Renames(Run(events[..k]).value, events[k]) && PendingFrom(events[..k], i, t)
  }

  /** What Forgets says of the run. */
  lemma {:induction false} ForgetsMeans(events: seq<Event>)
    requires Run(events).Some?
    ensures Forgets(events) <==> exists k: nat, i: nat, t: string :: ForgetsAt(events, k, i, t)
  {
    if events != [] {
      var n := |events| - 1;
      ForgetsMeans(events[..n]);
      forall k: nat | k < n
        ensures events[..n][..k] == events[..k]
      {
      }
      if Forgets(events) {
        if Forgets(events[..n]) {
          var k: nat, i: nat, t: string :| ForgetsAt(events[..n], k, i, t);
          assert ForgetsAt(events, k, i, t);
        } else {
          var t :| t in Pending(events[..n]);
          PendingMeans(events[..n], t);
          var i: nat :| PendingFrom(events[..n], i, t);
          assert ForgetsAt(events, n, i, t);
        }
      }
      if k: nat, i: nat, t: string :| ForgetsAt(events, k, i, t) {
        if k < n { assert ForgetsAt(events[..n], k, i, t); } else { PendingMeans(events[..n], t); }
      }
    }
  }

  // ----- single use -----

  /** A token in a table has been minted, with that expiry. */
  predicate Minted(s: Sys) {
    && (forall t | t in s.renamed.agentTokens :: t in s.minted && s.renamed.agentTokens[t].expires == s.minted[t])
    && (s.mem.Some? ==> forall t | t in s.mem.value.agentTokens ::
                          t in s.minted && s.mem.value.agentTokens[t].expires == s.minted[t])
    && (forall t | t in s.wins :: t in s.minted)
  }

  lemma StepKeepsMinted(s: Sys, e: Event)
    requires Minted(s) && Can(s, e) && Recover(s.disk) == Some(s.renamed)
    ensures Minted(Next(s, e))
  {
  }

  lemma {:induction false} AlwaysMinted(events: seq<Event>)
    requires Run(events).Some?
    ensures Minted(Run(events).value)
  {
    if events != [] {
      AlwaysMinted(events[..|events| - 1]);
      RecoversLastRename(events[..|events| - 1]);
      StepKeepsMinted(Run(events[..|events| - 1]).value, events[|events| - 1]);
    }
  }

  /** Tokens accepted by the running process are out of its table; `p` are those that the file still has. */
  predicate Tracked(s: Sys, p: set<string>) {
    && (forall t | t in p :: t in s.wins && t in s.renamed.agentTokens)
    && (s.mem.Some? ==> forall t | t in p :: t !in s.mem.value.agentTokens)
    && (s.mem.None? ==> p == {})
  }

  lemma {:induction false} AlwaysTracked(events: seq<Event>)
    requires Run(events).Some?
    ensures Tracked(Run(events).value, Pending(events))
  {
    if events != [] {
      AlwaysTracked(events[..|events| - 1]);
      AlwaysMinted(events[..|events| - 1]);
    }
  }

  /** Tokens accepted by the running process. */
  function Mine(events: seq<Event>): set<string>
    requires Run(events).Some?
  {
    if events == [] then {} else
    var before, e := events[..|events| - 1], events[|events| - 1];
    if Dies(e) || e.Reopen? then {}
    else if e.Do? && e.op.CheckAgentToken? && Accepting(Run(before).value, e, e.op.tok) then Mine(before) + {e.op.tok}
    else Mine(before)
  }

  /** In any run, the file still has a token accepted by the running process exactly when it had it at
      that time and no rename was completed since. */
  lemma {:induction false} MineAreOutOfMemory(events: seq<Event>)
    requires Run(events).Some?
    ensures var s := Run(events).value;
            forall t | t in Mine(events) ::
              && t in s.wins && t in s.minted && s.mem.Some? && t !in s.mem.value.agentTokens
              && (t in s.renamed.agentTokens <==> t in Pending(events))
  {
    if events != [] {
      MineAreOutOfMemory(events[..|events| - 1]);
      AlwaysMinted(events[..|events| - 1]);
      AlwaysTracked(events[..|events| - 1]);
    }
  }

  /** No accepted token is in memory, and of those in the file all are in `p`. */
  predicate Spent(s: Sys, p: set<string>) {
    && Distinct(s.wins)
    && (s.mem.Some? ==> forall t | t in s.wins :: t !in s.mem.value.agentTokens)
    && (forall t | t in s.wins && t in s.renamed.agentTokens :: t in p)
  }

  lemma DoKeepsSpent(s: Sys, op: Op, f: Fault, p: set<string>, p': set<string>)
    requires Spent(s, p) && Minted(s) && Can(s, Do(op, f))
    requires Renames(s, Do(op, f)) || p <= p'
    requires op.CheckAgentToken? && Accepting(s, Do(op, f), op.tok) ==>
               Renames(s, Do(op, f)) || op.tok !in s.renamed.agentTokens || op.tok in p'
    ensures Spent(Next(s, Do(op, f)), p')
  {
  }

  lemma {:induction false} AlwaysSpent(events: seq<Event>)
    requires Run(events).Some? && !Forgets(events)
    ensures Spent(Run(events).value, Pending(events))
  {
    if events != [] {
      var before, e := events[..|events| - 1], events[|events| - 1];
      AlwaysSpent(before);
      AlwaysMinted(before);
      AlwaysTracked(before);
      RecoversLastRename(before);
      if e.Do? { DoKeepsSpent(Run(before).value, e.op, e.f, Pending(before), Pending(events)); }
    }
  }

  /** Over any run, with any saves failing, in which no process ends before an accepted token's deletion
      has reached the file: each token is accepted at most once, and the file still has an accepted token
      exactly when the running process accepted it, the file had it then, and no rename was completed
      since. */
  lemma SingleUse(events: seq<Event>)
    requires Run(events).Some? && !Forgets(events)
    ensures var s := Run(events).value;
            && Distinct(s.wins)
            && forall t | t in s.wins ::
                 && t in s.minted
                 && (s.mem.Some? ==> t !in s.mem.value.agentTokens)
                 && (t in s.renamed.agentTokens <==> t in Pending(events))
  {
    AlwaysSpent(events);
    AlwaysMinted(events);
    AlwaysTracked(events);
  }

  /** Why no process may end before, in any run: when the process that accepted `t` ends in `e`, the next
      one accepts `t` again before its expiry exactly if `t` was pending and `e` completed no rename. The
      same goes for tokens of earlier processes, if those forgot nothing. */
  lemma ReuseNeedsALostSave(events: seq<Event>, e: Event, t: string, later: Time)
    requires Run(events).Some? && Dies(e) && Can(Run(events).value, e)
    requires t in Mine(events) || (!Forgets(events) && t in Run(events).value.wins)
    ensures var s := Run(events).value;
            var s1 := Next(s, e);
            && Can(s1, Reopen) && t in s.minted
            && (Accepts(Next(s1, Reopen).mem.value, t, later)
                <==> t in Pending(events) && !Renames(s, e) && later < s.minted[t])
  {
    if !Forgets(events) { SingleUse(events); }
    MineAreOutOfMemory(events);
    AlwaysTracked(events);
    RecoversLastRename(events);
    AlwaysMinted(events);
    if e.Crash? { AfterHasNoOther(Run(events).value, e.op, t); }
  }

  lemma AfterHasNoOther(s: Sys, op: Op, t: string)
    requires s.mem.Some? && t !in s.mem.value.agentTokens && t in s.minted && FreshToken(s, op)
    ensures t !in After(s.mem.value, op).agentTokens
  {
  }

  /** The run behind it, after any run at all: the process ends with `t` pending, and the next one accepts
      `t` a second time. */
  lemma ForgottenTokensComeBack(events: seq<Event>, e: Event, t: string, later: Time, f: Fault)
    requires Run(events).Some? && Dies(e) && Can(Run(events).value, e) && !Renames(Run(events).value, e)
    requires t in Pending(events)
    ensures t in Run(events).value.minted
    ensures later < Run(events).value.minted[t] ==>
              var again := events + [e] + [Reopen] + [Do(CheckAgentToken(t, later), f)];
              Run(again).Some? && Forgets(events + [e]) && !Distinct(Run(again).value.wins)
  {
    AlwaysTracked(events);
    AlwaysMinted(events);
    if later < Run(events).value.minted[t] {
      RunAppend(events, e);
      assert (events + [e])[..|events|] == events;
      RecoversLastRename(events + [e]);
      RunAppend(events + [e], Reopen);
      RunAppend(events + [e] + [Reopen], Do(CheckAgentToken(t, later), f));
      var s := Run(events).value;
      var i :| 0 <= i < |s.wins| && s.wins[i] == t;
      var again := events + [e] + [Reopen] + [Do(CheckAgentToken(t, later), f)];
      assert Run(again).value.wins == s.wins + [t];
      assert Run(again).value.wins[i] == Run(again).value.wins[|s.wins|];
    }
  }

  /** A token is accepted only strictly before the expiry it was minted with, whatever saves failed. */
  lemma AcceptedBeforeExpiry(events: seq<Event>, tok: string, now: Time)
    requires Run(events).Some? && Run(events).value.mem.Some? && Accepts(Run(events).value.mem.value, tok, now)
    ensures tok in Run(events).value.minted && now < Run(events).value.minted[tok]
    ensures !Forgets(events) ==> tok !in Run(events).value.wins
  {
    AlwaysMinted(events);
    if !Forgets(events) { AlwaysSpent(events); }
  }

  // ----- runs that forget nothing -----

  predicate Faultless(events: seq<Event>) {
    forall i | 0 <= i < |events| :: events[i].Do? ==> events[i].f.NoFault?
  }

  lemma {:induction false} FaultlessForgetsNothing(events: seq<Event>)
    requires Run(events).Some? && Faultless(events)
    ensures !Forgets(events) && Pending(events) == {}
  {
    if events != [] {
      FaultlessForgetsNothing(events[..|events| - 1]);
    }
  }

  predicate Deathless(events: seq<Event>) {
    forall i | 0 <= i < |events| :: !Dies(events[i])
  }

  lemma {:induction false} DeathlessForgetsNothing(events: seq<Event>)
    requires Run(events).Some? && Deathless(events)
    ensures !Forgets(events)
  {
    if events != [] {
      DeathlessForgetsNothing(events[..|events| - 1]);
    }
  }

  /** While one process runs, failing saves do no harm, whatever went before: it accepts no token twice,
      and what it accepted is out of its table. */
  predicate OneProcess(events: seq<Event>) {
    forall i | 0 <= i < |events| :: events[i].Do? || events[i].Touch?
  }

  lemma {:induction false} OneProcessSpendsOnce(before: seq<Event>, more: seq<Event>)
    requires Run(before).Some? && Run(before).value.mem.Some? && Run(before + more).Some? && OneProcess(more)
    ensures var w, s := Run(before).value.wins, Run(before + more).value;
            && w <= s.wins && s.mem.Some?
            && Distinct(s.wins[|w|..]) && forall t | t in s.wins[|w|..] :: t !in s.mem.value.agentTokens
    decreases |more|
  {
    if more == [] {
      assert before + more == before;
    } else {
      var rest, e := more[..|more| - 1], more[|more| - 1];
      assert (before + more)[..|before + more| - 1] == before + rest;
      OneProcessSpendsOnce(before, rest);
      AlwaysMinted(before + rest);
      ProcessStep(Run(before + rest).value, e, |Run(before).value.wins|);
    }
  }

  lemma ProcessStep(s: Sys, e: Event, n: nat)
    requires (e.Do? || e.Touch?) && Can(s, e) && Minted(s) && n <= |s.wins|
    requires Distinct(s.wins[n..]) && forall t | t in s.wins[n..] :: t !in s.mem.value.agentTokens
    ensures s.wins <= Next(s, e).wins
    ensures Distinct(Next(s, e).wins[n..])
    ensures forall t | t in Next(s, e).wins[n..] :: t !in Next(s, e).mem.value.agentTokens
  {
    var s' := Next(s, e);
    assert forall t | t in s.wins[n..] :: t in s.minted;
    if s'.wins != s.wins { assert s'.wins[n..] == s.wins[n..] + [e.op.tok]; }
  }
}
