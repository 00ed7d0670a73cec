/**
 * stopBot, in both its forms (a registered child, or only a PID file left
 * behind), and cleanupOrphanedProcesses' treatment of one PID file.
 *
 * The grace periods are not timed: a child's close event arrives during a
 * wait exactly when the child is no longer alive.
 */
module Stopping {
  import opened Optional
  import opened JsNumbers
  import opened Buffers
  import opened BotConfigs
  import opened Os
  import opened Supervisor

  // stopBot with a registered child

  /** `process.kill(-child.pid, sig)`, and `child.kill(sig)` when that throws. */
  function AfterSignalChild(m: Machine, pid: Option<int>, sig: Sig): Machine {
    var group := Neg(PidNum(pid));
    var m1 := AfterKill(m, group, sig);
    if !Deliverable(group, m.live) && pid.Some? then AfterKill(m1, Int(pid.value), sig) else m1
  }

  /** A wait: the close event of a child that is no longer alive arrives,
      with the exit code the child left. */
  function AfterAwaitClose(w: World, id: BotId, pid: Option<int>, now: string): World {
    if pid.Some? && pid.value !in w.os.live then
      AfterClose(w, id, if pid.value in w.os.exitStatus then w.os.exitStatus[pid.value] else None, now)
    else w
  }

  /** SIGKILL, and the wait after it. */
  function AfterForceStop(w: World, id: BotId, pid: Option<int>, now: string): World {
    AfterAwaitClose(w.(os := AfterSignalChild(w.os, pid, Kill)), id, pid, now)
  }

  /** The wait after SIGTERM, then SIGKILL while the bot is still registered. */
  function AfterGrace(w: World, id: BotId, pid: Option<int>, now: string): World {
    var w1 := AfterAwaitClose(w, id, pid, now);
    if id in w1.botProcesses then AfterForceStop(w1, id, pid, now) else w1
  }

  /** stopBot with a registered child: SIGTERM, the grace period, then the
      PID file and the registration are removed. */
  function AfterStopChild(w: World, id: BotId, now: string): World
    requires id in w.botProcesses
  {
    var pid := w.botProcesses[id].pid;
    var w1 := AfterGrace(w.(os := AfterSignalChild(w.os, pid, Term)), id, pid, now);
    w1.(os := AfterUnlink(w1.os, id), botProcesses := w1.botProcesses - {id})
  }

  /** The calls of process.kill stopBot makes for a registered child, given
      the processes alive when it starts: SIGTERM to the group, a direct
      SIGTERM when that throws, and SIGKILL to the group when the child is
      still registered after the grace period. */
  function StopSignals(pid: Option<int>, live: set<int>, onTerm: map<int, TermReaction>): seq<Attempt> {
    match pid
    case None => [Attempt(NaN, Term, false), Attempt(NaN, Kill, false)]
    case Some(p) =>
      if p in live then
        [Attempt(Int(-p), Term, true)] + if Dies(p, Term, onTerm) then [] else [Attempt(Int(-p), Kill, true)]
      else [Attempt(Int(-p), Term, false), Attempt(Int(p), Term, false)]
  }

  /** stopBot escalates to SIGKILL exactly when the child outlived SIGTERM (or
      there is no process to address), and each signal is delivered at most once. */
  lemma StopEscalatesOnlyWhenNeeded(pid: Option<int>, live: set<int>, onTerm: map<int, TermReaction>)
    ensures var s := StopSignals(pid, live, onTerm);
      (exists i | 0 <= i < |s| :: s[i].signal == Kill) <==> pid.None? || (pid.value in live && !Dies(pid.value, Term, onTerm))
    ensures var s := StopSignals(pid, live, onTerm);
      forall i, j | 0 <= i < j < |s| :: s[i].delivered && s[j].delivered ==> s[i].signal != s[j].signal
    ensures var s := StopSignals(pid, live, onTerm);
      s[0].signal == Term && s[0].target == Neg(PidNum(pid))
  {
    var s := StopSignals(pid, live, onTerm);
    if pid.None? {
      assert s[1].signal == Kill;
    } else if pid.value in live && !Dies(pid.value, Term, onTerm) {
      assert s[1].signal == Kill;
    }
  }

  /** The exit code the child's close event carries during stopBot: the one
      SIGTERM made it exit with (null when a signal ended it), or the one it
      already left when it was dead before the stop. */
  function CloseCode(p: int, live: set<int>, exitStatus: map<int, Option<int>>, onTerm: map<int, TermReaction>): Option<int> {
    if p in live then TermExitCode(p, onTerm)
    else if p in exitStatus then exitStatus[p]
    else None
  }

  /** A signal to a child ends it, when alive, exactly as the signal would the
      process itself; a child that is gone, or never had a pid, receives
      nothing and both attempts are recorded as failed. */
  lemma SignalChildEffect(m: Machine, pid: Option<int>, sig: Sig)
    requires pid.Some? ==> IsPid(pid.value)
    ensures AfterSignalChild(m, pid, sig) == match pid
      case None => m.(sent := m.sent + [Attempt(NaN, sig, false)])
      case Some(p) =>
        if p in m.live then AfterKill(m, Int(-p), sig)
        else m.(sent := m.sent + [Attempt(Int(-p), sig, false), Attempt(Int(p), sig, false)])
  {
    var group := Neg(PidNum(pid));
    match pid {
      case None =>
        KillMissed(m, group, sig);
      case Some(p) =>
        PidTextTargetsProcess(p, m.live);
        assert group == Int(-p);
        if p in m.live {
          assert Deliverable(group, m.live);
        } else {
          KillMissed(m, group, sig);
          var m1 := AfterKill(m, group, sig);
          KillMissed(m1, Int(p), sig);
          assert m.sent + [Attempt(Int(-p), sig, false)] + [Attempt(Int(p), sig, false)]
            == m.sent + [Attempt(Int(-p), sig, false), Attempt(Int(p), sig, false)];
        }
    }
  }

  /** The grace period and what follows ends a child with a pid, logging its
      exit code once and reporting it stopped; SIGKILL goes only to a child
      that is still registered, that is, still alive. */
  lemma GraceEffect(w: World, id: BotId, pid: Option<int>, now: string)
    requires id in w.botProcesses
    requires pid.Some? ==> IsPid(pid.value)
    ensures var w' := AfterGrace(w, id, pid, now);
      && w'.os.sent == w.os.sent + (match pid
        case None => [Attempt(NaN, Kill, false)]
        case Some(p) => if p in w.os.live then [Attempt(Int(-p), Kill, true)] else [])
      && w'.os.live == (if pid.Some? then w.os.live - {pid.value} else w.os.live)
      && w'.os.pidFiles == (if pid.Some? then w.os.pidFiles - {id} else w.os.pidFiles)
      && w'.botProcesses == (if pid.Some? then w.botProcesses - {id} else w.botProcesses)
      && w'.os.onTerm == w.os.onTerm && w'.os.dirs == w.os.dirs
      && w'.bots == w.bots && w'.botErrors == w.botErrors && w'.io == w.io && w'.root == w.root
  {
    var w1 := AfterAwaitClose(w, id, pid, now);
    if pid.Some? && pid.value in w.os.live {
      SignalChildEffect(w1.os, pid, Kill);
    } else if pid.None? {
      SignalChildEffect(w1.os, pid, Kill);
    }
  }

  /** What the grace period logs and emits: the child's exit, once. */
  lemma GraceLogs(w: World, id: BotId, pid: Option<int>, now: string)
    requires id in w.botProcesses
    requires pid.Some? ==> IsPid(pid.value)
    ensures var w' := AfterGrace(w, id, pid, now);
      && (pid.Some? ==>
        var p := pid.value;
        var code := if p in w.os.live then None else if p in w.os.exitStatus then w.os.exitStatus[p] else None;
        var entry := LogEntry(now, Info, ExitMessage(code));
        && w'.botLogs == AppendAt(w.botLogs, id, [entry], LogCap)
        && w'.events == w.events + if w.io then [LogEvent(id, entry), StatusEvent(id, Stopped)] else [])
      && (pid.None? ==> w'.botLogs == w.botLogs && w'.events == w.events)
  {
    if pid.Some? && pid.value in w.os.live {
      SignalChildEffect(w.os, pid, Kill);
    } else if pid.None? {
      SignalChildEffect(w.os, pid, Kill);
    }
  }

  /** stopBot with a registered child leaves it unregistered and without a
      PID file, and changes no configuration, error history or directory. */
  lemma StopChildRegistry(w: World, id: BotId, now: string)
    requires id in w.botProcesses
    requires var pid := w.botProcesses[id].pid; pid.Some? ==> IsPid(pid.value)
    ensures var w' := AfterStopChild(w, id, now);
      && w'.botProcesses == w.botProcesses - {id}
      && w'.os.pidFiles == w.os.pidFiles - {id}
      && w'.os.onTerm == w.os.onTerm && w'.os.dirs == w.os.dirs
      && w'.bots == w.bots && w'.botErrors == w.botErrors && w'.io == w.io && w'.root == w.root
  {
    var pid := w.botProcesses[id].pid;
    var signalled := w.(os := AfterSignalChild(w.os, pid, Term));
    SignalChildEffect(w.os, pid, Term);
    GraceEffect(signalled, id, pid, now);
  }

  /** ... leaves the child dead, having sent exactly StopSignals. */
  lemma StopChildSignals(w: World, id: BotId, now: string)
    requires id in w.botProcesses
    requires var pid := w.botProcesses[id].pid; pid.Some? ==> IsPid(pid.value)
    ensures var w' := AfterStopChild(w, id, now);
      var pid := w.botProcesses[id].pid;
      && w'.os.live == (if pid.Some? then w.os.live - {pid.value} else w.os.live)
      && w'.os.sent == w.os.sent + StopSignals(pid, w.os.live, w.os.onTerm)
  {
    var pid := w.botProcesses[id].pid;
    var signalled := w.(os := AfterSignalChild(w.os, pid, Term));
    SignalChildEffect(w.os, pid, Term);
    GraceEffect(signalled, id, pid, now);
    var w1 := AfterGrace(signalled, id, pid, now);
    assert AfterStopChild(w, id, now).os == AfterUnlink(w1.os, id);
    assert AfterUnlink(w1.os, id).sent == w1.os.sent && AfterUnlink(w1.os, id).live == w1.os.live;
    match pid {
      case None =>
      case Some(p) =>
        if p in w.os.live {
          var m1 := AfterKill(w.os, Int(-p), Term);
          assert Deliverable(Int(-p), w.os.live);
          assert m1.sent == w.os.sent + [Attempt(Int(-p), Term, true)];
          assert p in m1.live <==> !Dies(p, Term, w.os.onTerm);
          if !Dies(p, Term, w.os.onTerm) {
            assert [Attempt(Int(-p), Term, true)] + [Attempt(Int(-p), Kill, true)]
              == [Attempt(Int(-p), Term, true), Attempt(Int(-p), Kill, true)];
          }
        }
    }
  }

  /** ... and logs its exit code, then reports it stopped; a child that never
      had a pid has no close event. */
  lemma StopChildLogs(w: World, id: BotId, now: string)
    requires id in w.botProcesses
    requires var pid := w.botProcesses[id].pid; pid.Some? ==> IsPid(pid.value)
    ensures var w' := AfterStopChild(w, id, now);
      var pid := w.botProcesses[id].pid;
      && (pid.Some? ==>
        var entry := LogEntry(now, Info, ExitMessage(CloseCode(pid.value, w.os.live, w.os.exitStatus, w.os.onTerm)));
        && w'.botLogs == AppendAt(w.botLogs, id, [entry], LogCap)
        && w'.events == w.events + if w.io then [LogEvent(id, entry), StatusEvent(id, Stopped)] else [])
      && (pid.None? ==> w'.botLogs == w.botLogs && w'.events == w.events)
  {
    var pid := w.botProcesses[id].pid;
    var signalled := w.(os := AfterSignalChild(w.os, pid, Term));
    SignalChildEffect(w.os, pid, Term);
    GraceLogs(signalled, id, pid, now);
  }

  // stopBot without a registered child

  /** SIGTERM and SIGKILL to the group the PID file names, removing the file
      only when SIGTERM was delivered; an unreadable file is left alone. */
  function AfterStopByPidFile(m: Machine, id: BotId): Machine {
    if id in m.pidFiles && m.pidFiles[id].Readable? then
      var target := Neg(ParseInt(m.pidFiles[id].text));
      var m1 := AfterEscalate(m, target);
      if Deliverable(target, m.live) then AfterUnlink(m1, id) else m1
    else m
  }

  /** A PID file that reaches a live group ends it and is removed; any other
      is left in place, as is everything else. */
  lemma StopByPidFileEffect(m: Machine, id: BotId)
    ensures var m' := AfterStopByPidFile(m, id);
      var f := FileAt(m.pidFiles, id);
      && m'.live == AfterMarker(f, m.live)
      && m'.pidFiles == (if MarkerKills(f, m.live) then m.pidFiles - {id} else m.pidFiles)
      && m'.dirs == m.dirs && m'.onTerm == m.onTerm
  {
    if id in m.pidFiles && m.pidFiles[id].Readable? {
      EscalateEffect(m, Neg(ParseInt(m.pidFiles[id].text)));
    }
  }

  /** stopBot. */
  function AfterStop(w: World, id: BotId, now: string): World {
    if id in w.botProcesses then AfterStopChild(w, id, now)
    else w.(os := AfterStopByPidFile(w.os, id))
  }

  /** What stopBot returns: it always reports success. */
  function StopResult(w: World, id: BotId): Outcome {
    Ok
  }

  /** Whichever path stopBot takes, the bot is no longer registered and no
      other registration, configuration or error history changes; no process
      but the bot's own is signalled to death. */
  lemma StopDeregisters(w: World, id: BotId, now: string)
    requires id in w.botProcesses ==> var pid := w.botProcesses[id].pid; pid.Some? ==> IsPid(pid.value)
    ensures var w' := AfterStop(w, id, now);
      && w'.botProcesses == w.botProcesses - {id}
      && w'.bots == w.bots && w'.botErrors == w.botErrors
      && w'.os.dirs == w.os.dirs && w'.os.onTerm == w.os.onTerm && w'.os.live <= w.os.live
      && w'.io == w.io && w'.root == w.root
  {
    if id in w.botProcesses {
      StopChildRegistry(w, id, now);
      StopChildSignals(w, id, now);
    } else {
      StopByPidFileEffect(w.os, id);
    }
  }

  // cleanupOrphanedProcesses, one PID file

  /** `process.kill(pid, 0)`, and when that finds the process, SIGTERM and
      SIGKILL to its group. */
  function AfterProbeAndReap(m: Machine, pid: Num): Machine {
    var m1 := AfterKill(m, pid, Probe);
    if Deliverable(pid, m.live) then AfterEscalate(m1, Neg(pid)) else m1
  }

  /** One bot directory's PID file: probed and reaped when readable, and
      removed in every case. */
  function AfterReapOrphan(m: Machine, id: BotId): Machine {
    if id !in m.pidFiles then m
    else
      var m1 := match m.pidFiles[id]
        case Readable(text) => AfterProbeAndReap(m, ParseInt(text))
        case Unreadable => m;
      AfterUnlink(m1, id)
  }

  /** The calls of process.kill cleanupOrphanedProcesses makes for a pid it
      read: a probe and, only if the probe finds the process, SIGTERM to its
      group and, when that is delivered, SIGKILL. */
  function ProbeSignals(pid: Num, live: set<int>, onTerm: map<int, TermReaction>): seq<Attempt> {
    if !Deliverable(pid, live) then [Attempt(pid, Probe, false)]
    else
      var group := Neg(pid);
      [Attempt(pid, Probe, true), Attempt(group, Term, Deliverable(group, live))]
        + if Deliverable(group, live) then [Attempt(group, Kill, !Dies(Unit(group.n), Term, onTerm))] else []
  }

  /** The same for one PID file; an unreadable one is only removed. */
  function OrphanSignals(f: PidFile, live: set<int>, onTerm: map<int, TermReaction>): seq<Attempt> {
    match f
    case Unreadable => []
    case Readable(text) => ProbeSignals(ParseInt(text), live, onTerm)
  }

  /** The processes a PID file kills when cleanupOrphanedProcesses reaches it. */
  predicate OrphanKills(f: PidFile, live: set<int>) {
    f.Readable? && Deliverable(ParseInt(f.text), live)
  }

  /** The live set after cleanupOrphanedProcesses dealt with one PID file. */
  function AfterOrphan(f: PidFile, live: set<int>): set<int> {
    if OrphanKills(f, live) then live - {Unit(ParseInt(f.text).n)} else live
  }

  /** Every SIGTERM in the calls from index `from` on goes, right after a
      delivered probe, to the group of the probed process. */
  predicate TermsFollowProbes(s: seq<Attempt>, from: nat) {
    forall i | from <= i < |s| && s[i].signal == Term ::
      from < i && s[i - 1].signal == Probe && s[i - 1].delivered && s[i].target == Neg(s[i - 1].target)
  }

  /** A termination signal is sent for a PID file exactly when the probe of
      its pid succeeds, and then to that pid's group; a live process a file
      names is gone afterwards. */
  lemma OrphanProbedFirst(f: PidFile, live: set<int>, onTerm: map<int, TermReaction>)
    requires forall p | p in live :: IsPid(p)
    ensures var s := OrphanSignals(f, live, onTerm);
      (exists i | 0 <= i < |s| :: s[i].signal == Term) <==> OrphanKills(f, live)
    ensures TermsFollowProbes(OrphanSignals(f, live, onTerm), 0)
    ensures OrphanKills(f, live) ==>
      Deliverable(Neg(ParseInt(f.text)), live) && Unit(ParseInt(f.text).n) !in AfterOrphan(f, live)
    ensures AfterOrphan(f, live) <= live
  {
    var s := OrphanSignals(f, live, onTerm);
    if OrphanKills(f, live) {
      assert s[1].signal == Term;
    }
  }

  /** Calls for one more PID file keep the property for the whole run. */
  lemma TermsFollowProbesAppend(s: seq<Attempt>, from: nat, t: seq<Attempt>)
    requires from <= |s| && TermsFollowProbes(s, from) && TermsFollowProbes(t, 0)
    ensures TermsFollowProbes(s + t, from)
  {
    forall i | from <= i < |s + t| && (s + t)[i].signal == Term
      ensures from < i && (s + t)[i - 1].signal == Probe && (s + t)[i - 1].delivered && (s + t)[i].target == Neg((s + t)[i - 1].target)
    {
      if i >= |s| {
        assert (s + t)[i] == t[i - |s|];
        assert t[i - |s|].signal == Term;
        assert (s + t)[i - 1] == t[i - 1 - |s|];
      }
    }
  }

  /** A pid read from a PID file: the probe, and only when it finds the
      process, its death. */
  lemma ProbeAndReapEffect(m: Machine, pid: Num)
    requires Sane(m)
    ensures var m' := AfterProbeAndReap(m, pid);
      && m'.live == (if Deliverable(pid, m.live) then m.live - {Unit(pid.n)} else m.live)
      && m'.sent == m.sent + ProbeSignals(pid, m.live, m.onTerm)
      && m'.pidFiles == m.pidFiles && m'.dirs == m.dirs && m'.onTerm == m.onTerm
  {
    if Deliverable(pid, m.live) {
      assert IsPid(Unit(pid.n));
      assert Deliverable(Neg(pid), m.live);
      var m1 := AfterKill(m, pid, Probe);
      EscalateEffect(m1, Neg(pid));
    } else {
      KillMissed(m, pid, Probe);
    }
  }

  /** One PID file: it is removed whatever it holds, the process it names is
      killed exactly when the probe finds it, and the signals are OrphanSignals. */
  lemma ReapOrphanEffect(m: Machine, id: BotId)
    requires Sane(m)
    ensures var m' := AfterReapOrphan(m, id);
      && m'.pidFiles == m.pidFiles - {id}
      && m'.live == (if id in m.pidFiles then AfterOrphan(m.pidFiles[id], m.live) else m.live)
      && m'.sent == m.sent + (if id in m.pidFiles then OrphanSignals(m.pidFiles[id], m.live, m.onTerm) else [])
      && m'.dirs == m.dirs && m'.onTerm == m.onTerm
  {
    if id in m.pidFiles && m.pidFiles[id].Readable? {
      ProbeAndReapEffect(m, ParseInt(m.pidFiles[id].text));
    }
  }
}
