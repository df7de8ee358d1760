/**
  Browser terminal sessions. Each Socket.IO connection (a `sid`) may own one
  shell running on a pty; the registry maps the sid to its session. The
  operating-system side is a trace of effects: signals to the shell's process
  group, closes of the two pty ends, writes and window-size changes. Every
  handler is one atomic step.
 */
module Sessions {
  import opened Wrappers
  import opened LogTail
  import opened InputRouter

  // ----------------------------------------------------------------------
  // Window geometry
  // ----------------------------------------------------------------------

  /** The `TIOCSWINSZ` payload: rows and columns (the pixel fields are 0). */
  datatype Winsize = Winsize(rows: int, cols: int)

  /** `struct.pack("H", v)` accepts exactly the unsigned 16-bit range. */
  predicate IsU16(v: int) {
    0 <= v < 0x1_0000
  }

  /** `_pty_resize` up to the ioctl: a zero size becomes 80 columns or 24 rows;
      a size outside the 16-bit range makes the packing raise (`None`). */
  function PtyResize(cols: int, rows: int): (r: Option<Winsize>)
    ensures r.Some? <==> IsU16(cols) && IsU16(rows)
    ensures r.Some? ==> 0 < r.value.cols && 0 < r.value.rows
    ensures r.Some? ==> r.value.cols == (if cols == 0 then 80 else cols)
    ensures r.Some? ==> r.value.rows == (if rows == 0 then 24 else rows)
  {
    var c := if cols == 0 then 80 else cols;
    var r := if rows == 0 then 24 else rows;
    if IsU16(c) && IsU16(r) then Some(Winsize(r, c)) else None
  }

  /** A `cols`/`rows` entry of an event's data: missing, a value `int()` accepts,
      or one it rejects. */
  datatype GeomField = Absent | Number(v: int) | NotANumber

  /** `int((data or {}).get(key, default))`; `None` when `int()` raises. */
  function GeomValue(f: GeomField, default: int): Option<int> {
    match f
    case Absent => Some(default)
    case Number(v) => Some(v)
    case NotANumber => None
  }

  // ----------------------------------------------------------------------
  // Operating-system effects
  // ----------------------------------------------------------------------

  datatype Sig = SigTerm | SigKill
  datatype PtyEnd = Master | Slave

  /** One operating-system call, naming the session (by serial number) it acts on. */
  datatype OsEffect =
    | Signal(session: nat, sig: Sig)
    | KillChild(session: nat)
    | Close(session: nat, end: PtyEnd)
    | Write(session: nat, data: string)
    | Resize(session: nat, size: Winsize)

  /** How the shell behaves while it is torn down: whether the process group can
      be signalled, whether the shell is gone after the grace period, and
      whether the group can still be sent SIGKILL. */
  datatype ProcEnv = ProcEnv(termReachesGroup: bool, exitedInGrace: bool, killReachesGroup: bool)

  /** The calls `_kill_session` makes on a live session, in order. `KillChild`
      is recorded as the call made; when that call raises, the source swallows
      the error and goes on to close the pty ends, so the trace is the same. */
  function Teardown(i: nat, env: ProcEnv): seq<OsEffect> {
    (if env.termReachesGroup then [Signal(i, SigTerm)] else [])
    + (if env.exitedInGrace then []
       else if env.killReachesGroup then [Signal(i, SigKill)]
       else [KillChild(i)])
    + [Close(i, Master), Close(i, Slave)]
  }

  /** Teardown acts on one session only, ends by closing the master and then the
      slave end, and sends SIGTERM (if at all) before anything else. */
  lemma TeardownShape(i: nat, env: ProcEnv)
    ensures var t := Teardown(i, env);
      2 <= |t| <= 4 &&
      (forall k :: 0 <= k < |t| ==> t[k].session == i) &&
      t[|t| - 2] == Close(i, Master) && t[|t| - 1] == Close(i, Slave) &&
      (forall k :: 0 <= k < |t| - 2 ==> !t[k].Close?) &&
      (forall k :: 0 < k < |t| ==> t[k] != Signal(i, SigTerm))
  {
  }

  /** What the trace says about session `i`: nothing of its teardown while it
      is alive; afterwards each end closed exactly once, at most one SIGTERM and
      at most one SIGKILL or child kill. */
  predicate SessionLedger(es: seq<OsEffect>, i: nat, alive: bool) {
    var m := multiset(es);
    var torn := if alive then 0 else 1;
    m[Close(i, Master)] == torn && m[Close(i, Slave)] == torn &&
    m[Signal(i, SigTerm)] <= torn && m[Signal(i, SigKill)] + m[KillChild(i)] <= torn
  }

  /** After a pty end of a session is closed, only closes follow for that session. */
  predicate NothingAfterClose(es: seq<OsEffect>) {
    forall j, k :: 0 <= j < k < |es| && es[j].Close? && es[k].session == es[j].session ==> es[k].Close?
  }

  lemma LedgerOther(es: seq<OsEffect>, block: seq<OsEffect>, i: nat, alive: bool)
    requires SessionLedger(es, i, alive)
    requires forall k :: 0 <= k < |block| ==> block[k].session != i
    ensures SessionLedger(es + block, i, alive)
  {
    assert multiset(es + block) == multiset(es) + multiset(block);
    assert Close(i, Master) !in block && Close(i, Slave) !in block;
    assert Signal(i, SigTerm) !in block && Signal(i, SigKill) !in block && KillChild(i) !in block;
  }

  lemma LedgerHarmless(es: seq<OsEffect>, block: seq<OsEffect>, i: nat, alive: bool)
    requires SessionLedger(es, i, alive)
    requires forall k :: 0 <= k < |block| ==> block[k].Write? || block[k].Resize?
    ensures SessionLedger(es + block, i, alive)
  {
    assert multiset(es + block) == multiset(es) + multiset(block);
    assert Close(i, Master) !in block && Close(i, Slave) !in block;
    assert Signal(i, SigTerm) !in block && Signal(i, SigKill) !in block && KillChild(i) !in block;
  }

  lemma LedgerTeardown(es: seq<OsEffect>, i: nat, env: ProcEnv)
    requires SessionLedger(es, i, true)
    ensures SessionLedger(es + Teardown(i, env), i, false)
  {
    var t := Teardown(i, env);
    assert multiset(es + t) == multiset(es) + multiset(t);
  }

  /** Appending effects for a session none of whose ends is closed yet keeps
      the order property, provided the appended block keeps it too. */
  lemma AppendKeepsOrder(es: seq<OsEffect>, block: seq<OsEffect>, i: nat)
    requires NothingAfterClose(es) && NothingAfterClose(block)
    requires forall k :: 0 <= k < |block| ==> block[k].session == i
    requires Close(i, Master) !in es && Close(i, Slave) !in es
    ensures NothingAfterClose(es + block)
  {
    var all := es + block;
    forall j, k | 0 <= j < k < |all| && all[j].Close?
      ensures all[k].session == all[j].session ==> all[k].Close?
    {
      if k >= |es| {
        assert all[k] == block[k - |es|];
        if j < |es| {
          assert all[j] == es[j];
          var e := es[j];
          assert e == Close(e.session, e.end);
          if e.session == i {
            if e.end == Master {
              assert false;
            } else {
              assert false;
            }
          }
        } else {
          assert all[j] == block[j - |es|];
        }
      } else {
        assert all[j] == es[j] && all[k] == es[k];
      }
    }
  }

  lemma TeardownOrder(i: nat, env: ProcEnv)
    ensures NothingAfterClose(Teardown(i, env))
  {
    TeardownShape(i, env);
  }

  /** The whole trace against the `alive` flags of every session spawned so far
      (indexed by serial number). */
  predicate LedgerOf(es: seq<OsEffect>, alive: seq<bool>) {
    LedgerAt(es, alive, 1)
  }

  /** `LedgerOf` unfolds through one extra step so that its quantified body stays
      out of sight of callers until `LedgerOfEach` opens it; the step count
      carries no meaning. */
  predicate LedgerAt(es: seq<OsEffect>, alive: seq<bool>, d: nat)
    decreases d
  {
    if d > 0 then LedgerAt(es, alive, d - 1) else
    (forall k :: 0 <= k < |es| ==> es[k].session < |alive|) && NothingAfterClose(es) &&
    forall i :: 0 <= i < |alive| ==> SessionLedger(es, i, alive[i])
  }

  lemma LedgerOfEach(es: seq<OsEffect>, alive: seq<bool>)
    ensures LedgerOf(es, alive) <==>
      (forall k :: 0 <= k < |es| ==> es[k].session < |alive|) && NothingAfterClose(es) &&
      forall i :: 0 <= i < |alive| ==> SessionLedger(es, i, alive[i])
  {
    assert LedgerAt(es, alive, 1) == LedgerAt(es, alive, 0);
  }

  /** Tearing down a live session keeps the trace in step with the flags. */
  lemma LedgerKill(es: seq<OsEffect>, alive: seq<bool>, i: nat, env: ProcEnv)
    requires LedgerOf(es, alive) && i < |alive| && alive[i]
    ensures LedgerOf(es + Teardown(i, env), alive[i := false])
  {
    var t := Teardown(i, env);
    var after := alive[i := false];
    LedgerOfEach(es, alive);
    LedgerOfEach(es + t, after);
    TeardownShape(i, env);
    forall j | 0 <= j < |after|
      ensures SessionLedger(es + t, j, after[j])
    {
      if j == i {
        LedgerTeardown(es, i, env);
      } else {
        LedgerOther(es, t, j, after[j]);
      }
    }
    assert SessionLedger(es, i, true);
    TeardownOrder(i, env);
    AppendKeepsOrder(es, t, i);
  }

  /** A new session starts with nothing in the trace. */
  lemma LedgerSpawn(es: seq<OsEffect>, alive: seq<bool>)
    requires LedgerOf(es, alive)
    ensures LedgerOf(es, alive + [true])
  {
    var i := |alive|;
    LedgerOfEach(es, alive);
    LedgerOfEach(es, alive + [true]);
    assert Close(i, Master) !in es && Close(i, Slave) !in es;
    assert Signal(i, SigTerm) !in es && Signal(i, SigKill) !in es && KillChild(i) !in es;
    assert SessionLedger(es, i, true);
    forall j | 0 <= j < |alive| + 1
      ensures SessionLedger(es, j, (alive + [true])[j])
    {
      if j < |alive| {
        assert (alive + [true])[j] == alive[j];
      }
    }
  }

  /** Writes and resizes for a live session keep the trace in step. */
  lemma LedgerUse(es: seq<OsEffect>, alive: seq<bool>, block: seq<OsEffect>, i: nat)
    requires LedgerOf(es, alive) && i < |alive| && alive[i]
    requires forall k :: 0 <= k < |block| ==> block[k].session == i && (block[k].Write? || block[k].Resize?)
    ensures LedgerOf(es + block, alive)
  {
    LedgerOfEach(es, alive);
    LedgerOfEach(es + block, alive);
    forall j | 0 <= j < |alive|
      ensures SessionLedger(es + block, j, alive[j])
    {
      LedgerHarmless(es, block, j, alive[j]);
    }
    assert SessionLedger(es, i, true);
    AppendKeepsOrder(es, block, i);
  }

  /** The pty writes of one `term_in` event. */
  function PtyWrites(i: nat, ws: seq<string>): (es: seq<OsEffect>)
    ensures |es| == |ws|
    ensures forall k :: 0 <= k < |ws| ==> es[k] == Write(i, ws[k])
  {
    seq(|ws|, k requires 0 <= k < |ws| => Write(i, ws[k]))
  }

  // ----------------------------------------------------------------------
  // Sessions and the registry
  // ----------------------------------------------------------------------

  /** A `term_out` emit to one connection. */
  datatype Emit = Emit(sid: string, text: string)

  const Connected: string := "\r\n[connected]\r\n"

  /** The line buffer of a connection (`term_line_buffers.get(sid, "")`). */
  function BufferOf(buffers: map<string, string>, sid: string): string {
    if sid in buffers then buffers[sid] else []
  }

  /** The log-tail replies of one `term_in` event, given today's log file. */
  function Replies(sid: string, file: Option<seq<LogLine>>, counts: seq<int>): (out: seq<Emit>)
    ensures |out| == |counts|
    ensures forall k :: 0 <= k < |counts| ==> out[k] == Emit(sid, Frame(LogTailLines(file, counts[k])))
  {
    seq(|counts|, k requires 0 <= k < |counts| => Emit(sid, Frame(LogTailLines(file, counts[k]))))
  }

  /** The registry holds live sessions, each under its own sid (`owner` and
      `alive` give each spawned session's `sid` and `alive` fields). */
  predicate Registered(sessions: map<string, nat>, owner: seq<string>, alive: seq<bool>) {
    |owner| == |alive| &&
    forall s :: s in sessions ==> sessions[s] < |alive| && owner[sessions[s]] == s && alive[sessions[s]]
  }

  /** Every live session is the one registered under its sid: no shell runs
      without a registry entry through which it can be reached and torn down. */
  predicate Covered(sessions: map<string, nat>, owner: seq<string>, alive: seq<bool>) {
    |owner| == |alive| &&
    forall i :: 0 <= i < |alive| && alive[i] ==> owner[i] in sessions && sessions[owner[i]] == i
  }

  /** Killing session `i` and popping its sid. The registry stays consistent;
      every live session stays reachable exactly when the popped entry was
      session `i`'s own. */
  lemma KillAndPop(sessions: map<string, nat>, owner: seq<string>, alive: seq<bool>, i: nat)
    requires Registered(sessions, owner, alive) && i < |alive|
    ensures Registered(sessions - {owner[i]}, owner, alive[i := false])
    ensures Covered(sessions, owner, alive) && (owner[i] in sessions ==> sessions[owner[i]] == i) ==>
      Covered(sessions - {owner[i]}, owner, alive[i := false])
    ensures owner[i] in sessions && sessions[owner[i]] != i ==>
      !Covered(sessions - {owner[i]}, owner, alive[i := false])
  {
    if owner[i] in sessions && sessions[owner[i]] != i {
      var j := sessions[owner[i]];
      assert alive[i := false][j] && owner[j] !in sessions - {owner[i]};
    }
  }

  /** Killing session `i` while its sid is registered to another session. */
  lemma KillAndKeep(sessions: map<string, nat>, owner: seq<string>, alive: seq<bool>, i: nat)
    requires Registered(sessions, owner, alive) && i < |alive|
    requires owner[i] in sessions ==> sessions[owner[i]] != i
    ensures Registered(sessions, owner, alive[i := false])
    ensures Covered(sessions, owner, alive) ==> Covered(sessions, owner, alive[i := false])
  {
  }

  /** Registering a newly spawned session under a free sid. */
  lemma RegisterNew(sessions: map<string, nat>, owner: seq<string>, alive: seq<bool>, sid: string)
    requires Registered(sessions, owner, alive) && sid !in sessions
    ensures Registered(sessions[sid := |alive|], owner + [sid], alive + [true])
    ensures Covered(sessions, owner, alive) ==> Covered(sessions[sid := |alive|], owner + [sid], alive + [true])
  {
  }

  /** The reader exit as written, on the state left by opening a terminal twice
      under one sid: the old session's exit pops the entry of the new, live
      session, which is then unreachable. */
  lemma PopBySidOrphans()
    ensures var sessions, owner, alive := map["a" := 1], ["a", "a"], [false, true];
      Registered(sessions, owner, alive) && Covered(sessions, owner, alive) &&
      Registered(sessions - {owner[0]}, owner, alive[0 := false]) &&
      !Covered(sessions - {owner[0]}, owner, alive[0 := false])
  {
    var sessions, owner, alive := map["a" := 1], ["a", "a"], [false, true];
    var after := sessions - {owner[0]};
    assert after == map[];
    assert alive[0 := false][1];
  }

  /** The terminal side of the server. A session (a shell on a pty) is named by
      its serial number, which stands for its process and its two pty file
      descriptors; `owner` and `alive` hold each session's `sid` and `alive`
      fields. The registry maps a connection to the serial of its session. */
  class TermServer {
    /** `term_sessions`: sid to session. */
    var sessions: map<string, nat>
    /** `term_line_buffers`. */
    var lineBuffers: map<string, string>
    /** Every operating-system call made so far. */
    var effects: seq<OsEffect>
    /** Every `term_out` emitted so far. */
    var outbox: seq<Emit>
    /** The `sid` of every session spawned so far, by serial number. */
    var owner: seq<string>
    /** The `alive` flag of every session spawned so far, by serial number. */
    var alive: seq<bool>

    /** The effect trace agrees with the flags, and the registry holds live
        sessions, each under its own sid. */
    predicate Valid()
      reads this
    {
      LedgerOf(effects, alive) && Registered(sessions, owner, alive)
    }

    predicate Tracked()
      reads this
    {
      Covered(sessions, owner, alive)
    }

    constructor ()
      ensures Valid() && Tracked()
      ensures sessions == map[] && lineBuffers == map[] && effects == [] && outbox == []
      ensures owner == [] && alive == []
    {
      sessions, lineBuffers, effects, outbox := map[], map[], [], [];
      owner, alive := [], [];
    }

    /** `_kill_session`: the first call on a live session marks it dead and
        records its teardown; any later call does nothing. */
    method KillSession(i: nat, env: ProcEnv)
      requires Valid() && i < |alive|
      modifies this
      ensures alive == old(alive)[i := false]
      ensures effects == if old(alive)[i] then old(effects) + Teardown(i, env) else old(effects)
      ensures sessions == old(sessions) && lineBuffers == old(lineBuffers) && outbox == old(outbox)
      ensures owner == old(owner)
      ensures LedgerOf(effects, alive)
    {
      if !alive[i] {
        assert alive[i := false] == alive;
        return;
      }
      LedgerKill(effects, alive, i, env);
      alive := alive[i := false];
      effects := effects + Teardown(i, env);
    }

    /** Spawning a shell: a new live session for `sid`, sized when `size` packs. */
    method Spawn(sid: string, size: Option<Winsize>) returns (i: nat)
      requires |owner| == |alive| && LedgerOf(effects, alive)
      modifies this
      ensures i == old(|alive|)
      ensures owner == old(owner) + [sid] && alive == old(alive) + [true]
      ensures effects == if size.Some? then old(effects) + [Resize(i, size.value)] else old(effects)
      ensures sessions == old(sessions) && lineBuffers == old(lineBuffers) && outbox == old(outbox)
      ensures LedgerOf(effects, alive)
    {
      i := |alive|;
      LedgerSpawn(effects, alive);
      owner := owner + [sid];
      alive := alive + [true];
      if size.Some? {
        LedgerUse(effects, alive, [Resize(i, size.value)], i);
        effects := effects + [Resize(i, size.value)];
      }
    }

    /** The `disconnect` handler: tear down the connection's session and
        unregister it. The line buffer is kept. */
    method OnDisconnect(sid: string, env: ProcEnv)
      requires Valid()
      modifies this
      ensures Valid()
      ensures old(Tracked()) ==> Tracked()
      ensures sessions == old(sessions) - {sid}
      ensures alive == if sid in old(sessions) then old(alive)[old(sessions)[sid] := false] else old(alive)
      ensures effects == if sid in old(sessions)
        then old(effects) + Teardown(old(sessions)[sid], env) else old(effects)
      ensures owner == old(owner) && lineBuffers == old(lineBuffers) && outbox == old(outbox)
    {
      if sid in sessions {
        var i := sessions[sid];
        KillAndPop(sessions, owner, alive, i);
        KillSession(i, env);
        sessions := sessions - {sid};
      }
    }

    /** The `term_open` handler. A geometry `int()` rejects aborts it before
        anything happens. Otherwise the sid's current session, if any, is torn
        down and unregistered; then, if the shell spawns, a new session is sized
        (when the geometry packs), registered and announced. The line buffer is
        neither removed nor reset. */
    method OnTermOpen(sid: string, cols: GeomField, rows: GeomField, spawned: bool, env: ProcEnv)
      requires Valid()
      modifies this
      ensures Valid()
      ensures old(Tracked()) ==> Tracked()
      ensures lineBuffers == old(lineBuffers)
      ensures owner == if GeomValue(cols, 80).Some? && GeomValue(rows, 24).Some? && spawned
        then old(owner) + [sid] else old(owner)
      ensures GeomValue(cols, 80).None? || GeomValue(rows, 24).None? ==>
        sessions == old(sessions) && effects == old(effects) && outbox == old(outbox) && alive == old(alive)
      ensures GeomValue(cols, 80).Some? && GeomValue(rows, 24).Some? ==>
        var dead := if sid in old(sessions) then old(alive)[old(sessions)[sid] := false] else old(alive);
        var torn := if sid in old(sessions) then old(effects) + Teardown(old(sessions)[sid], env) else old(effects);
        var size := PtyResize(GeomValue(cols, 80).value, GeomValue(rows, 24).value);
        if spawned then
          sessions == (old(sessions) - {sid})[sid := |dead|] && alive == dead + [true] &&
          effects == (if size.Some? then torn + [Resize(|dead|, size.value)] else torn) &&
          outbox == old(outbox) + [Emit(sid, Connected)]
        else
          sessions == old(sessions) - {sid} && alive == dead &&
          effects == torn && outbox == old(outbox)
    {
      var c := GeomValue(cols, 80);
      var r := GeomValue(rows, 24);
      if c.None? || r.None? {
        return;
      }
      OnDisconnect(sid, env);
      if spawned {
        Attach(sid, PtyResize(c.value, r.value));
      }
    }

    /** The end of `term_open` once the shell has spawned: register the new
        session under `sid` and announce it. */
    method Attach(sid: string, size: Option<Winsize>)
      requires Valid() && sid !in sessions
      modifies this
      ensures Valid()
      ensures old(Tracked()) ==> Tracked()
      ensures sessions == old(sessions)[sid := old(|alive|)]
      ensures owner == old(owner) + [sid] && alive == old(alive) + [true]
      ensures effects == if size.Some? then old(effects) + [Resize(old(|alive|), size.value)] else old(effects)
      ensures outbox == old(outbox) + [Emit(sid, Connected)] && lineBuffers == old(lineBuffers)
    {
      RegisterNew(sessions, owner, alive, sid);
      var i := Spawn(sid, size);
      sessions := sessions[sid := i];
      outbox := outbox + [Emit(sid, Connected)];
    }

    /** The end of `_term_reader_loop` as written: tear the session down, then
        pop whatever is registered under its sid. */
    method OnReaderExit(i: nat, env: ProcEnv)
      requires Valid() && i < |alive|
      modifies this
      ensures Valid()
      ensures sessions == old(sessions) - {old(owner)[i]}
      ensures old(Tracked()) && (old(owner)[i] in old(sessions) ==> old(sessions)[old(owner)[i]] == i) ==> Tracked()
      ensures alive == old(alive)[i := false]
      ensures effects == if old(alive)[i] then old(effects) + Teardown(i, env) else old(effects)
      ensures owner == old(owner) && lineBuffers == old(lineBuffers) && outbox == old(outbox)
    {
      KillAndPop(sessions, owner, alive, i);
      KillSession(i, env);
      sessions := sessions - {owner[i]};
    }

    /** The reader exit with an identity check: pop the sid only while it still
        maps to this session. */
    method OnReaderExitChecked(i: nat, env: ProcEnv)
      requires Valid() && i < |alive|
      modifies this
      ensures Valid()
      ensures old(Tracked()) ==> Tracked()
      ensures sessions == if old(owner)[i] in old(sessions) && old(sessions)[old(owner)[i]] == i
        then old(sessions) - {old(owner)[i]} else old(sessions)
      ensures alive == old(alive)[i := false]
      ensures effects == if old(alive)[i] then old(effects) + Teardown(i, env) else old(effects)
      ensures owner == old(owner) && lineBuffers == old(lineBuffers) && outbox == old(outbox)
    {
      if owner[i] in sessions && sessions[owner[i]] == i {
        OnReaderExit(i, env);
      } else {
        KillAndKeep(sessions, owner, alive, i);
        KillSession(i, env);
      }
    }

    /** The `term_in` handler: route the text through the sid's line buffer,
        write to the session's pty and emit the log-tail replies asked for.
        Nothing happens for an empty payload or a sid without a session. */
    method OnTermIn(sid: string, payload: Payload, file: Option<seq<LogLine>>)
      requires Valid()
      modifies this
      ensures Valid()
      ensures old(Tracked()) ==> Tracked()
      ensures sessions == old(sessions) && owner == old(owner) && alive == old(alive)
      ensures Normalize(payload).None? || sid !in old(sessions) ==>
        lineBuffers == old(lineBuffers) && effects == old(effects) && outbox == old(outbox)
      ensures Normalize(payload).Some? && sid in old(sessions) ==>
        var r := FeedAll(Routed(BufferOf(old(lineBuffers), sid), [], []), Normalize(payload).value);
        lineBuffers == old(lineBuffers)[sid := r.buf] &&
        effects == old(effects) + PtyWrites(old(sessions)[sid], r.writes) &&
        outbox == old(outbox) + Replies(sid, file, r.requests)
    {
      var text := Normalize(payload);
      if text.None? || sid !in sessions {
        return;
      }
      var i := sessions[sid];
      var buf, writes, requests := Route(BufferOf(lineBuffers, sid), text.value);
      lineBuffers := lineBuffers[sid := buf];
      var block := PtyWrites(i, writes);
      LedgerUse(effects, alive, block, i);
      effects := effects + block;
      outbox := outbox + Replies(sid, file, requests);
    }

    /** The `term_resize` handler: resize the sid's pty when the geometry parses
        and packs; otherwise (or without a session) nothing happens. */
    method OnTermResize(sid: string, cols: GeomField, rows: GeomField)
      requires Valid()
      modifies this
      ensures Valid()
      ensures old(Tracked()) ==> Tracked()
      ensures sessions == old(sessions) && owner == old(owner) && alive == old(alive)
      ensures lineBuffers == old(lineBuffers) && outbox == old(outbox)
      ensures var c, r := GeomValue(cols, 80), GeomValue(rows, 24);
        effects ==
          if sid in old(sessions) && c.Some? && r.Some? && PtyResize(c.value, r.value).Some?
          then old(effects) + [Resize(old(sessions)[sid], PtyResize(c.value, r.value).value)]
          else old(effects)
    {
      if sid !in sessions {
        return;
      }
      var c := GeomValue(cols, 80);
      var r := GeomValue(rows, 24);
      if c.None? || r.None? {
        return;
      }
      var size := PtyResize(c.value, r.value);
      if size.None? {
        return;
      }
      var i := sessions[sid];
      var block := [Resize(i, size.value)];
      LedgerUse(effects, alive, block, i);
      effects := effects + block;
    }
  }

  /** Reopening a terminal and then letting the old reader finish leaves the new
      shell running with no registry entry: the old reader pops the sid, which
      by then names the new session. */
  method StaleReaderExitOrphans() returns (srv: TermServer, orphan: nat)
    ensures srv.Valid() && orphan < |srv.alive| && srv.alive[orphan]
    ensures srv.owner[orphan] !in srv.sessions
    ensures !srv.Tracked()
  {
    var env := ProcEnv(true, true, true);
    srv := new TermServer();
    assert GeomValue(Absent, 80) == Some(80) && GeomValue(Absent, 24) == Some(24);
    srv.OnTermOpen("a", Absent, Absent, true, env);
    assert |srv.alive| == 1 && srv.sessions["a"] == 0;
    srv.OnTermOpen("a", Absent, Absent, true, env);
    assert |srv.alive| == 2 && srv.alive[1] && srv.owner[1] == "a" && srv.sessions["a"] == 1;
    orphan := 1;
    srv.OnReaderExit(0, env);
  }

  /** The same steps with the identity check keep the new shell registered. */
  method StaleReaderExitChecked() returns (srv: TermServer, live: nat)
    ensures srv.Valid() && srv.Tracked()
    ensures live < |srv.alive| && srv.alive[live]
    ensures "a" in srv.sessions && srv.sessions["a"] == live
  {
    var env := ProcEnv(true, true, true);
    srv := new TermServer();
    assert GeomValue(Absent, 80) == Some(80) && GeomValue(Absent, 24) == Some(24);
    srv.OnTermOpen("a", Absent, Absent, true, env);
    assert |srv.alive| == 1 && srv.sessions["a"] == 0;
    srv.OnTermOpen("a", Absent, Absent, true, env);
    assert |srv.alive| == 2 && srv.alive[1] && srv.owner[1] == "a" && srv.sessions["a"] == 1;
    live := 1;
    srv.OnReaderExitChecked(0, env);
  }
}
