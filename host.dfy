/**
 * The part of the operating system the supervisor acts on: the live
 * processes it can signal, how each reacts to SIGTERM, the exit status a
 * dead process leaves for its parent, and the bots' working directories
 * with their PID files.
 *
 * A bot is spawned detached, so it leads its own process group whose id is
 * its pid; `process.kill(-pid, sig)` and `process.kill(pid, sig)` reach the
 * same unit here, the group's descendants being folded into their leader.
 */
module Os {
  import opened Optional
  import opened JsNumbers
  import opened BotConfigs

  /** Signal 0 (an existence probe), SIGTERM and SIGKILL. */
  datatype Sig = Probe | Term | Kill

  /** How a live process answers SIGTERM when it has a handler: it ignores
      the signal, or it exits with a code. A process without an entry in
      `onTerm` is killed by the signal and leaves no exit code. */
  datatype TermReaction = Ignores | ExitsWith(code: int)

  /** A bot's bot.pid file: its text, or a file that cannot be read. */
  datatype PidFile = Readable(text: string) | Unreadable

  /** One call of process.kill: its target, the signal, and whether it was
      delivered (a call that is not delivered throws). */
  datatype Attempt = Attempt(target: Num, signal: Sig, delivered: bool)

  /** The pids a bot can have: positive 32-bit integers other than init's. */
  predicate IsPid(p: int) {
    1 < p <= 0x7FFF_FFFF
  }

  predicate InInt32(t: int) {
    -0x8000_0000 <= t <= 0x7FFF_FFFF
  }

  /** The process a pid or a (negated) process-group id names. */
  function Unit(t: int): (u: nat)
    ensures u == t || u == -t
  {
    if t < 0 then -t else t
  }

  /** process.kill(target, sig) does not throw: the target is an integer in
      the 32-bit range (NaN and wider numbers raise a type error) that names
      a live process or group (otherwise ESRCH). */
  predicate Deliverable(target: Num, live: set<int>) {
    target.Int? && InInt32(target.n) && Unit(target.n) in live
  }

  /** Whether a live process dies on receiving the signal. */
  predicate Dies(p: int, sig: Sig, onTerm: map<int, TermReaction>) {
    sig == Kill || (sig == Term && !(p in onTerm && onTerm[p].Ignores?))
  }

  /** The exit code a process that SIGTERM ends leaves; null when the signal
      itself killed it. */
  function TermExitCode(p: int, onTerm: map<int, TermReaction>): Option<int> {
    if p in onTerm && onTerm[p].ExitsWith? then Some(onTerm[p].code) else None
  }

  /** The live set after a call of process.kill. */
  function LiveAfter(live: set<int>, onTerm: map<int, TermReaction>, target: Num, sig: Sig): set<int> {
    if Deliverable(target, live) && Dies(Unit(target.n), sig, onTerm) then live - {Unit(target.n)} else live
  }

  /** A delivered signal only ever removes its own target from the live set;
      SIGKILL and signal 0 never leave anything to chance. */
  lemma LiveAfterRemovesAtMostTarget(live: set<int>, onTerm: map<int, TermReaction>, target: Num, sig: Sig)
    ensures LiveAfter(live, onTerm, target, sig) <= live
    ensures forall p :: p in live && p !in LiveAfter(live, onTerm, target, sig) ==> target.Int? && p == Unit(target.n)
    ensures sig == Probe ==> LiveAfter(live, onTerm, target, sig) == live
    ensures sig == Kill && Deliverable(target, live) ==> Unit(target.n) !in LiveAfter(live, onTerm, target, sig)
    ensures !Deliverable(target, live) ==> LiveAfter(live, onTerm, target, sig) == live
  {
  }

  /** A pid written as text and read back with parseInt is a valid target for
      a signal to that process and, negated, to its group. */
  lemma PidTextTargetsProcess(p: int, live: set<int>)
    requires IsPid(p)
    ensures ParseInt(PidText(Some(p))) == Int(p)
    ensures Deliverable(Int(p), live) <==> p in live
    ensures Deliverable(Neg(Int(p)), live) <==> p in live
  {
    ParseIntOfIntText(p);
  }

  /** Everything of the host the supervisor observes or changes. */
  datatype Machine = Machine(
    live: set<int>,
    onTerm: map<int, TermReaction>,
    exitStatus: map<int, Option<int>>,
    dirs: map<BotId, map<string, Content>>,
    pidFiles: map<BotId, PidFile>,
    /** Every call of process.kill, in order. */
    sent: seq<Attempt>)

  /** Live processes have pids, and every PID file lies in a bot directory. */
  predicate Sane(m: Machine) {
    && (forall p | p in m.live :: IsPid(p))
    && m.pidFiles.Keys <= m.dirs.Keys
  }

  /** The host after process.kill(target, sig): a delivered SIGTERM or
      SIGKILL that ends the process records its exit, and the call is logged
      with whether it was delivered. */
  function AfterKill(m: Machine, target: Num, sig: Sig): Machine {
    var dies := Deliverable(target, m.live) && Dies(Unit(target.n), sig, m.onTerm);
    m.(live := LiveAfter(m.live, m.onTerm, target, sig),
       exitStatus := if dies
         then m.exitStatus[Unit(target.n) := if sig == Term then TermExitCode(Unit(target.n), m.onTerm) else None]
         else m.exitStatus,
       sent := m.sent + [Attempt(target, sig, Deliverable(target, m.live))])
  }

  /** A call of process.kill that throws changes nothing but the record of calls. */
  lemma KillMissed(m: Machine, target: Num, sig: Sig)
    requires !Deliverable(target, m.live)
    ensures AfterKill(m, target, sig) == m.(sent := m.sent + [Attempt(target, sig, false)])
  {
  }

  /** SIGTERM, a grace period, then SIGKILL, attempted only when SIGTERM was
      delivered (its own failure being ignored). */
  function AfterEscalate(m: Machine, target: Num): Machine {
    var m1 := AfterKill(m, target, Term);
    if Deliverable(target, m.live) then AfterKill(m1, target, Kill) else m1
  }

  /** An escalation ends a target it reaches, whatever its SIGTERM handler
      does, and leaves the exit code SIGTERM would; SIGKILL is delivered
      exactly when the target survived SIGTERM. Nothing but processes changes. */
  lemma EscalateEffect(m: Machine, target: Num)
    ensures var m' := AfterEscalate(m, target);
      var reached := Deliverable(target, m.live);
      && m'.live == (if reached then m.live - {Unit(target.n)} else m.live)
      && m'.exitStatus == (if reached then m.exitStatus[Unit(target.n) := TermExitCode(Unit(target.n), m.onTerm)] else m.exitStatus)
      && m'.sent == m.sent + [Attempt(target, Term, reached)]
        + (if reached then [Attempt(target, Kill, !Dies(Unit(target.n), Term, m.onTerm))] else [])
      && m'.onTerm == m.onTerm && m'.dirs == m.dirs && m'.pidFiles == m.pidFiles
  {
  }

  /** A process ending on its own with an exit code (null: killed from elsewhere). */
  function AfterExit(m: Machine, p: int, code: Option<int>): Machine {
    m.(live := m.live - {p}, exitStatus := m.exitStatus[p := code])
  }

  /** spawn() creating the process `p`. */
  function AfterSpawn(m: Machine, p: int): Machine {
    m.(live := m.live + {p}, exitStatus := m.exitStatus - {p})
  }

  /** fs.ensureDir of a bot directory. */
  function AfterMakeDir(m: Machine, id: BotId): Machine {
    if id in m.dirs then m else m.(dirs := m.dirs[id := map[]])
  }

  /** Files written into a bot directory, replacing those of the same name; a
      write into a directory that does not exist fails and changes nothing. */
  function AfterWrite(m: Machine, id: BotId, files: map<string, Content>): Machine {
    if id in m.dirs then m.(dirs := m.dirs[id := m.dirs[id] + files]) else m
  }

  /** Writing the text of a bot's PID file into its directory. */
  function AfterWritePid(m: Machine, id: BotId, text: string): Machine {
    if id in m.dirs then m.(pidFiles := m.pidFiles[id := Readable(text)]) else m
  }

  /** fs.unlinkSync of a bot's PID file, when it exists. */
  function AfterUnlink(m: Machine, id: BotId): Machine {
    m.(pidFiles := m.pidFiles - {id})
  }

  /** fs.remove of a bot directory, with the PID file inside it. */
  function AfterRemoveDir(m: Machine, id: BotId): Machine {
    m.(dirs := m.dirs - {id}, pidFiles := m.pidFiles - {id})
  }

  /** Every step of the host keeps it sane. */
  lemma StepsKeepSane(m: Machine, target: Num, sig: Sig, id: BotId, files: map<string, Content>, text: string)
    requires Sane(m)
    ensures Sane(AfterKill(m, target, sig)) && Sane(AfterEscalate(m, target))
    ensures Sane(AfterMakeDir(m, id)) && Sane(AfterWrite(m, id, files)) && Sane(AfterWritePid(m, id, text))
    ensures Sane(AfterUnlink(m, id)) && Sane(AfterRemoveDir(m, id))
  {
  }

  class Host {
    var live: set<int>
    var onTerm: map<int, TermReaction>
    var exitStatus: map<int, Option<int>>
    var dirs: map<BotId, map<string, Content>>
    var pidFiles: map<BotId, PidFile>
    ghost var sent: seq<Attempt>

    ghost function State(): Machine
      reads this
    {
      Machine(live, onTerm, exitStatus, dirs, pidFiles, sent)
    }

    ghost predicate Valid()
      reads this
    {
      Sane(State())
    }

    constructor (live: set<int>, onTerm: map<int, TermReaction>, dirs: map<BotId, map<string, Content>>, pidFiles: map<BotId, PidFile>)
      requires Sane(Machine(live, onTerm, map[], dirs, pidFiles, []))
      ensures Valid()
      ensures State() == Machine(live, onTerm, map[], dirs, pidFiles, [])
    {
      this.live := live;
      this.onTerm := onTerm;
      this.exitStatus := map[];
      this.dirs := dirs;
      this.pidFiles := pidFiles;
      this.sent := [];
    }

    /** process.kill(target, sig): reports whether it was delivered. */
    method Signal(target: Num, sig: Sig) returns (delivered: bool)
      requires Valid()
      modifies this
      ensures Valid()
      ensures delivered == Deliverable(target, old(live))
      ensures State() == AfterKill(old(State()), target, sig)
    {
      delivered := Deliverable(target, live);
      if delivered {
        var p := Unit(target.n);
        if Dies(p, sig, onTerm) {
          live := live - {p};
          exitStatus := exitStatus[p := if sig == Term then TermExitCode(p, onTerm) else None];
        }
      }
      sent := sent + [Attempt(target, sig, delivered)];
    }

    /** SIGTERM then SIGKILL; reports whether SIGTERM was delivered. */
    method Escalate(target: Num) returns (termDelivered: bool)
      requires Valid()
      modifies this
      ensures Valid()
      ensures termDelivered == Deliverable(target, old(live))
      ensures State() == AfterEscalate(old(State()), target)
    {
      termDelivered := Signal(target, Term);
      if termDelivered {
        var _ := Signal(target, Kill);
      }
    }

    /** A process ends on its own. */
    method Exit(p: int, code: Option<int>)
      requires Valid() && p in live
      modifies this
      ensures Valid()
      ensures State() == AfterExit(old(State()), p, code)
    {
      live := live - {p};
      exitStatus := exitStatus[p := code];
    }

    /** spawn(): a new process. */
    method Spawned(p: int)
      requires Valid() && IsPid(p) && p !in live
      modifies this
      ensures Valid()
      ensures State() == AfterSpawn(old(State()), p)
    {
      live := live + {p};
      exitStatus := exitStatus - {p};
    }

    method MakeDir(id: BotId)
      requires Valid()
      modifies this
      ensures Valid()
      ensures State() == AfterMakeDir(old(State()), id)
    {
      if id !in dirs {
        dirs := dirs[id := map[]];
      }
    }

    method WriteFiles(id: BotId, files: map<string, Content>)
      requires Valid()
      modifies this
      ensures Valid()
      ensures State() == AfterWrite(old(State()), id, files)
    {
      if id in dirs {
        dirs := dirs[id := dirs[id] + files];
      }
    }

    method WritePidFile(id: BotId, text: string)
      requires Valid()
      modifies this
      ensures Valid()
      ensures State() == AfterWritePid(old(State()), id, text)
    {
      if id in dirs {
        pidFiles := pidFiles[id := Readable(text)];
      }
    }

    method RemovePidFile(id: BotId)
      requires Valid()
      modifies this
      ensures Valid()
      ensures State() == AfterUnlink(old(State()), id)
    {
      pidFiles := pidFiles - {id};
    }

    method RemoveDir(id: BotId)
      requires Valid()
      modifies this
      ensures Valid()
      ensures State() == AfterRemoveDir(old(State()), id)
    {
      dirs := dirs - {id};
      pidFiles := pidFiles - {id};
    }
  }
}
