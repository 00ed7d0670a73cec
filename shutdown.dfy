/**
 * The two sweeps over all bots: stopAllBots, which stops every registered
 * bot in turn, and cleanupOrphanedProcesses, which deals with every PID file
 * left in the bots directory when the host starts.
 *
 * The order of each sweep is an input: the insertion order of the registry
 * for the first, the order in which the directory listing returns its
 * entries for the second. What is proved holds in every order.
 */
module Shutdown {
  import opened Optional
  import opened JsNumbers
  import opened Buffers
  import opened BotConfigs
  import opened Os
  import opened Supervisor
  import opened Stopping

  // stopAllBots

  /** stopBot for each id of `order`, first to last. */
  function AfterStopAll(w: World, order: seq<BotId>, now: string): World
    decreases |order|
  {
    if order == [] then w
    else AfterStop(AfterStopAll(w, order[..|order| - 1], now), order[|order| - 1], now)
  }

  /** `order` lists the keys of the registry, each once. */
  predicate ListsRegistry(w: World, order: seq<BotId>) {
    && (forall id | id in w.botProcesses :: id in order)
    && (forall i | 0 <= i < |order| :: order[i] in w.botProcesses)
    && (forall i, j | 0 <= i < j < |order| :: order[i] != order[j])
  }

  predicate PidsValid(w: World) {
    forall id | id in w.botProcesses && w.botProcesses[id].pid.Some? :: IsPid(w.botProcesses[id].pid.value)
  }

  /** The elements of a sequence, as a set. */
  function Elements<T>(s: seq<T>): set<T> {
    set x | x in s
  }

  /** The elements of a sequence grow by its last one. */
  lemma ElementsSnoc<T>(s: seq<T>)
    requires s != []
    ensures Elements(s) == Elements(s[..|s| - 1]) + {s[|s| - 1]}
  {
    forall x | x in s
      ensures x == s[|s| - 1] || x in s[..|s| - 1]
    {
      var i :| 0 <= i < |s| && s[i] == x;
      if i < |s| - 1 {
        assert s[..|s| - 1][i] == x;
      }
    }
  }

  /** In a sequence without repetitions, the last element is not among the others. */
  lemma LastIsNew<T>(s: seq<T>)
    requires s != []
    requires forall i, j | 0 <= i < j < |s| :: s[i] != s[j]
    ensures s[|s| - 1] !in s[..|s| - 1]
  {
    var prefix := s[..|s| - 1];
    forall i | 0 <= i < |prefix| ensures prefix[i] != s[|s| - 1] {
      assert prefix[i] == s[i];
    }
  }

  /** `w'` is `w` after stopping the registered bots `ids`: none of them is
      registered or has a PID file, and none of their processes is alive; the
      other registrations, PID files and logs, every configuration, error
      history and directory are as they were, and no process starts. */
  predicate StoppedAll(w: World, w': World, ids: set<BotId>) {
    && PidsValid(w')
    && w'.botProcesses == w.botProcesses - ids
    && (forall id | id in ids :: id !in w'.os.pidFiles)
    && (forall id | id in ids && id in w.botProcesses && w.botProcesses[id].pid.Some? :: w.botProcesses[id].pid.value !in w'.os.live)
    && (forall id | id in w.os.pidFiles && id !in ids :: id in w'.os.pidFiles && w'.os.pidFiles[id] == w.os.pidFiles[id])
    && (forall id | id in w.botLogs && id !in ids :: id in w'.botLogs && w'.botLogs[id] == w.botLogs[id])
    && w'.bots == w.bots && w'.botErrors == w.botErrors
    && w'.os.dirs == w.os.dirs && w'.os.onTerm == w.os.onTerm && w'.os.live <= w.os.live
    && w'.io == w.io && w'.root == w.root
  }

  /** Stopping one more registered bot. */
  lemma StopAllStep(w: World, w1: World, ids: set<BotId>, x: BotId, now: string)
    requires StoppedAll(w, w1, ids) && x in w.botProcesses && x !in ids
    ensures StoppedAll(w, AfterStop(w1, x, now), ids + {x})
  {
    assert x in w1.botProcesses && w1.botProcesses[x] == w.botProcesses[x];
    StopChildRegistry(w1, x, now);
    StopChildSignals(w1, x, now);
    StopChildLogs(w1, x, now);
  }

  /** Stopping the bots of `order`, the registered ones each once, stops
      exactly those and leaves everything else as StoppedAll says. */
  lemma {:induction false} StopAllEffect(w: World, order: seq<BotId>, now: string)
    requires PidsValid(w)
    requires forall i | 0 <= i < |order| :: order[i] in w.botProcesses
    requires forall i, j | 0 <= i < j < |order| :: order[i] != order[j]
    ensures StoppedAll(w, AfterStopAll(w, order, now), Elements(order))
    decreases |order|
  {
    if order == [] {
      assert Elements(order) == {};
    } else {
      var prefix := order[..|order| - 1];
      var x := order[|order| - 1];
      assert forall i | 0 <= i < |prefix| :: prefix[i] == order[i];
      StopAllEffect(w, prefix, now);
      LastIsNew(order);
      ElementsSnoc(order);
      StopAllStep(w, AfterStopAll(w, prefix, now), Elements(prefix), x, now);
    }
  }

  /** stopAllBots stops the bots registered when it starts, each once: none
      is registered afterwards, and StoppedAll holds for all of them. */
  lemma StopAllClearsRegistry(w: World, order: seq<BotId>, now: string)
    requires PidsValid(w) && ListsRegistry(w, order)
    ensures AfterStopAll(w, order, now).botProcesses == map[]
    ensures StoppedAll(w, AfterStopAll(w, order, now), w.botProcesses.Keys)
  {
    StopAllEffect(w, order, now);
    assert Elements(order) == w.botProcesses.Keys;
  }

  // cleanupOrphanedProcesses

  /** The PID file of each entry of `order` dealt with, first to last. */
  function AfterSweep(m: Machine, order: seq<BotId>): Machine
    decreases |order|
  {
    if order == [] then m
    else AfterReapOrphan(AfterSweep(m, order[..|order| - 1]), order[|order| - 1])
  }

  /** The processes the readable PID files of the bots `ids` name that the
      probe finds alive in `live`. */
  function OrphanVictims(files: map<BotId, PidFile>, ids: set<BotId>, live: set<int>): set<int> {
    set id | id in files && id in ids && OrphanKills(files[id], live) :: Unit(ParseInt(files[id].text).n)
  }

  /** One more bot adds the process its file names, if the probe finds it. */
  lemma OrphanVictimsAdd(files: map<BotId, PidFile>, ids: set<BotId>, x: BotId, live: set<int>)
    ensures OrphanVictims(files, ids + {x}, live)
      == OrphanVictims(files, ids, live)
        + if x in files && OrphanKills(files[x], live) then {Unit(ParseInt(files[x].text).n)} else {}
  {
    var before := OrphanVictims(files, ids, live);
    forall v | v in OrphanVictims(files, ids + {x}, live)
      ensures v in before || (x in files && OrphanKills(files[x], live) && v == Unit(ParseInt(files[x].text).n))
    {
      var id :| id in files && id in ids + {x} && OrphanKills(files[id], live) && v == Unit(ParseInt(files[id].text).n);
      if id != x {
        assert id in ids;
      }
    }
    forall v | v in before
      ensures v in OrphanVictims(files, ids + {x}, live)
    {
      var id :| id in files && id in ids && OrphanKills(files[id], live) && v == Unit(ParseInt(files[id].text).n);
      assert id in ids + {x};
    }
  }

  /** Dealing with a PID file after others removes its process exactly when
      the probe against the original live set would have found it. */
  lemma OrphanStep(f: PidFile, live: set<int>, gone: set<int>)
    ensures AfterOrphan(f, live - gone)
      == live - (gone + if OrphanKills(f, live) then {Unit(ParseInt(f.text).n)} else {})
  {
    if OrphanKills(f, live) && !OrphanKills(f, live - gone) {
      assert Unit(ParseInt(f.text).n) in gone;
    }
  }

  /** `m'` is `m` after dealing with the PID files of the bots `ids`: those
      files are gone, exactly the processes their readable files name that
      were alive are dead, and directories and reactions stay. */
  predicate SweptFiles(m: Machine, m': Machine, ids: set<BotId>) {
    && Sane(m')
    && m'.pidFiles == m.pidFiles - ids
    && m'.live == m.live - OrphanVictims(m.pidFiles, ids, m.live)
    && m'.dirs == m.dirs && m'.onTerm == m.onTerm
  }

  /** The signals sent before are kept, and every SIGTERM sent since follows
      a delivered probe of the process whose group it targets. */
  predicate SweptSignals(m: Machine, m': Machine) {
    && |m.sent| <= |m'.sent| && m'.sent[..|m.sent|] == m.sent
    && TermsFollowProbes(m'.sent, |m.sent|)
  }

  /** One more directory entry, for the PID files and processes... */
  lemma SweepStepFiles(m: Machine, m1: Machine, ids: set<BotId>, x: BotId)
    requires SweptFiles(m, m1, ids)
    ensures SweptFiles(m, AfterReapOrphan(m1, x), ids + {x})
  {
    var m' := AfterReapOrphan(m1, x);
    ReapOrphanEffect(m1, x);
    OrphanVictimsAdd(m.pidFiles, ids, x, m.live);
    assert m'.pidFiles == m.pidFiles - (ids + {x});
    if x in m1.pidFiles {
      OrphanStep(m1.pidFiles[x], m.live, OrphanVictims(m.pidFiles, ids, m.live));
    }
  }

  /** ... and for the signals. */
  lemma SweepStepSignals(m: Machine, m1: Machine, x: BotId)
    requires Sane(m1) && SweptSignals(m, m1)
    ensures SweptSignals(m, AfterReapOrphan(m1, x))
  {
    var m' := AfterReapOrphan(m1, x);
    ReapOrphanEffect(m1, x);
    if x in m1.pidFiles {
      var f := m1.pidFiles[x];
      OrphanProbedFirst(f, m1.live, m1.onTerm);
      TermsFollowProbesAppend(m1.sent, |m.sent|, OrphanSignals(f, m1.live, m1.onTerm));
      assert m'.sent[..|m.sent|] == m1.sent[..|m.sent|];
    } else {
      assert m'.sent == m1.sent;
    }
  }

  /** The sweep over `order`, in any order and with repetitions or entries
      without a PID file, deals with the PID files of the entries it lists as
      SweptFiles and SweptSignals say; when it lists every bot directory, no
      PID file is left at all. */
  lemma {:induction false} SweepEffect(m: Machine, order: seq<BotId>)
    requires Sane(m)
    ensures SweptFiles(m, AfterSweep(m, order), Elements(order))
    ensures SweptSignals(m, AfterSweep(m, order))
    ensures (forall id | id in m.dirs :: id in order) ==> AfterSweep(m, order).pidFiles == map[]
    decreases |order|
  {
    var listed := Elements(order);
    if order == [] {
      assert listed == {};
      assert OrphanVictims(m.pidFiles, listed, m.live) == {};
      assert m.pidFiles - listed == m.pidFiles;
    } else {
      var prefix := order[..|order| - 1];
      SweepEffect(m, prefix);
      ElementsSnoc(order);
      SweepStepFiles(m, AfterSweep(m, prefix), Elements(prefix), order[|order| - 1]);
      SweepStepSignals(m, AfterSweep(m, prefix), order[|order| - 1]);
    }
    var m' := AfterSweep(m, order);
    if forall id | id in m.dirs :: id in order {
      assert m.pidFiles.Keys <= listed;
      assert m'.pidFiles.Keys == {};
    }
  }
}
