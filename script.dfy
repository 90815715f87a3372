/**
 * Scripts and the script manager's bookkeeping: which script instances are
 * loaded, which events each one listens for, which one holds the network
 * exclusively, which scripts each loaded class is required by, and which
 * timer tasks each instance has scheduled.
 *
 * A script class is identified by its fully qualified name. Making an
 * instance (reflection), running its initialization methods (user code, on
 * the Swing thread) and dispatching events to it are outside the model: an
 * instance is handed to LoadScript already made. Text written to the network
 * is appended to the manager's `sent` list.
 */
module Scripts {
  import opened Wrappers
  import opened JavaInt
  import opened Parameters
  import Databases
  import DataParsing

  type Event = DataParsing.ScriptEvent

  // ---------------------------------------------------------------------
  // Default script names

  /** String.lastIndexOf(c): the last position of c, or -1. */
  function LastIndexOf(s: string, c: char): (r: int)
    ensures r == -1 <==> c !in s
    ensures r != -1 ==> 0 <= r < |s| && s[r] == c && c !in s[r + 1..]
  {
    if s == [] then -1
    else if s[|s| - 1] == c then |s| - 1
    else
      var k := LastIndexOf(s[..|s| - 1], c);
      assert k != -1 ==> s[k + 1..] == s[..|s| - 1][k + 1..] + [s[|s| - 1]];
      k
  }

  /** getScriptName's default: the class name after its last '.'. */
  function ScriptName(className: string): (r: string)
    ensures '.' !in r && |r| <= |className|
    ensures '.' !in className ==> r == className
    ensures '.' in className ==> |r| < |className| && className == className[..|className| - |r| - 1] + "." + r
  {
    var k := LastIndexOf(className, '.');
    assert '.' in className ==> className == className[..k] + "." + className[k + 1..];
    className[k + 1..]
  }

  /** String.replaceAll("\\.", "|"): every '.' becomes '|'. */
  function DotsToBars(s: string): (r: string)
    ensures |r| == |s| && '.' !in r
  {
    if s == [] then [] else DotsToBars(s[..|s| - 1]) + [if s[|s| - 1] == '.' then '|' else s[|s| - 1]]
  }

  /** The reverse replacement, '|' back to '.'. */
  function BarsToDots(s: string): (r: string)
    ensures |r| == |s| && '|' !in r
  {
    if s == [] then [] else BarsToDots(s[..|s| - 1]) + [if s[|s| - 1] == '|' then '.' else s[|s| - 1]]
  }

  /** A package name without '|' comes back from its menu path. */
  lemma {:induction false} BarsToDotsInverse(s: string)
    requires '|' !in s
    ensures BarsToDots(DotsToBars(s)) == s
  {
    if s != [] {
      var p := s[..|s| - 1];
      BarsToDotsInverse(p);
      var t := DotsToBars(p) + [if s[|s| - 1] == '.' then '|' else s[|s| - 1]];
      assert t[..|t| - 1] == DotsToBars(p);
    }
  }

  /**
   * getMenuPath's default: the package part of the class name with '.'
   * replaced by '|'; substring(0, -1) throws for a class in no package.
   */
  function MenuPath(className: string): (r: Result<string>)
    ensures r.Err? <==> '.' !in className
    ensures r.Err? ==> r.error == IndexOutOfBounds
    ensures r.Ok? ==> '.' !in r.value && |r.value| + 1 + |ScriptName(className)| == |className|
  {
    var k := LastIndexOf(className, '.');
    if k == -1 then Err(IndexOutOfBounds) else Ok(DotsToBars(className[..k]))
  }

  /** The menu path and the script name together give back the class name. */
  lemma MenuPathAndName(className: string)
    requires '.' in className && '|' !in className
    ensures MenuPath(className).Ok?
    ensures BarsToDots(MenuPath(className).value) + "." + ScriptName(className) == className
  {
    var k := LastIndexOf(className, '.');
    assert '|' !in className[..k];
    BarsToDotsInverse(className[..k]);
    assert className == className[..k] + "." + className[k + 1..];
  }

  // ---------------------------------------------------------------------
  // Listener maps

  function Elements<T>(s: seq<T>): set<T>
  {
    set x | x in s
  }

  function ListenersOf(m: map<Event, set<Script>>, e: Event): set<Script>
  {
    if e in m then m[e] else {}
  }

  /** addEventListener for an initialized script: s listens for every event of es, and nothing else changes. */
  function Registered(m: map<Event, set<Script>>, es: set<Event>, s: Script): (r: map<Event, set<Script>>)
    ensures forall e :: e in r <==> e in m || e in es
    ensures forall e :: e in es ==> s in ListenersOf(r, e)
    ensures forall e :: ListenersOf(r, e) - {s} == ListenersOf(m, e) - {s}
    ensures forall e :: e !in es ==> ListenersOf(r, e) == ListenersOf(m, e)
  {
    map e | e in m.Keys + es :: ListenersOf(m, e) + (if e in es then {s} else {})
  }

  lemma RegisteredStep(m: map<Event, set<Script>>, es: set<Event>, e: Event, s: Script)
    ensures Registered(m, es + {e}, s) ==
      Registered(m, es, s)[e := ListenersOf(Registered(m, es, s), e) + {s}]
  {
  }

  /** One event's listeners without s; an event left with no listener is dropped. */
  function Without(m: map<Event, set<Script>>, e: Event, s: Script): map<Event, set<Script>>
  {
    if e !in m then m
    else if m[e] - {s} == {} then m - {e}
    else m[e := m[e] - {s}]
  }

  /** removeEventListener for an initialized script: s stops listening for es; events with no listener left are dropped. */
  function Unregistered(m: map<Event, set<Script>>, es: set<Event>, s: Script): (r: map<Event, set<Script>>)
    ensures forall e :: e in r <==> e in m && (e !in es || m[e] - {s} != {})
    ensures forall e :: e in es ==> s !in ListenersOf(r, e)
    ensures forall e :: ListenersOf(r, e) - {s} == ListenersOf(m, e) - {s}
    ensures forall e :: e !in es ==> ListenersOf(r, e) == ListenersOf(m, e)
  {
    map e | e in m && (e !in es || m[e] - {s} != {}) :: if e in es then m[e] - {s} else m[e]
  }

  lemma UnregisteredStep(m: map<Event, set<Script>>, es: set<Event>, e: Event, s: Script)
    ensures Unregistered(m, es + {e}, s) == Without(Unregistered(m, es, s), e, s)
  {
    var a, b := Unregistered(m, es + {e}, s), Without(Unregistered(m, es, s), e, s);
    assert a.Keys == b.Keys;
    forall x | x in a
      ensures a[x] == b[x]
    {
    }
  }

  predicate NoEmptySets(m: map<Event, set<Script>>)
  {
    forall e :: e in m ==> m[e] != {}
  }

  // ---------------------------------------------------------------------
  // Timer tasks

  /** A ScriptTimerTask and the script that scheduled it. */
  datatype Task = Task(id: nat, script: Script)

  /** Each loaded class maps to an instance of that class. */
  predicate KeyedByClass(instances: map<string, Script>)
  {
    forall k :: k in instances ==> instances[k].className == k
  }

  /** isLoaded(instance): the instance is the one filed under its class. */
  predicate LoadedIn(instances: map<string, Script>, s: Script)
  {
    s.className in instances && instances[s.className] == s
  }

  /** Only loaded instances have timer tasks on record. */
  predicate TasksOfLoaded(instances: map<string, Script>, tasks: map<Script, set<Task>>)
  {
    forall s :: s in tasks ==> LoadedIn(instances, s)
  }

  /**
   * unloadScript as written looks the tasks up under the class, but they are
   * filed under the instance, so they stay on record (and scheduled) after
   * the instance is unloaded.
   */
  lemma UnloadStrandsTasks(instances: map<string, Script>, tasks: map<Script, set<Task>>, k: string)
    requires KeyedByClass(instances) && k in instances && instances[k] in tasks
    ensures !TasksOfLoaded(instances - {k}, tasks)
  {
    assert !LoadedIn(instances - {k}, instances[k]);
  }

  /** Dropping the instance's own tasks with it keeps every task's script loaded. */
  lemma UnloadDropsTasks(instances: map<string, Script>, tasks: map<Script, set<Task>>, k: string)
    requires KeyedByClass(instances) && TasksOfLoaded(instances, tasks) && k in instances
    ensures TasksOfLoaded(instances - {k}, tasks - {instances[k]})
  {
    forall s | s in tasks - {instances[k]}
      ensures LoadedIn(instances - {k}, s)
    {
      assert LoadedIn(instances, s);
    }
  }

  // ---------------------------------------------------------------------
  // Scripts

  class Script {
    const className: string
    const manager: ScriptManager
    var parameters: seq<Parameter>
    var burst: string
    var initialized: bool

    constructor (className: string, manager: ScriptManager)
      ensures this.className == className && this.manager == manager
      ensures parameters == [] && burst == "" && !initialized
    {
      this.className, this.manager := className, manager;
      parameters, burst, initialized := [], "", false;
    }

    /** registerParameter: null throws; a parameter already registered is not added again. */
    method RegisterParameter(p: Parameter?) returns (r: Result<()>)
      modifies this`parameters
      ensures p == null ==> r == Err(NullPointer) && parameters == old(parameters)
      ensures p != null ==> r == Ok(()) && parameters == (if p in old(parameters) then old(parameters) else old(parameters) + [p])
    {
      if p == null {
        return Err(NullPointer);
      }
      if p !in parameters {
        parameters := parameters + [p];
      }
      return Ok(());
    }

    /** setInitialized: called once the initialization methods have all succeeded. */
    method SetInitialized()
      modifies this`initialized
      ensures initialized
    {
      initialized := true;
    }

    /** appendBurst: the text (obj.toString()) is added to the burst buffer. */
    method AppendBurst(text: string)
      modifies this`burst
      ensures burst == old(burst) + text
    {
      burst := burst + text;
    }

    /** clearBurst. */
    method ClearBurst()
      modifies this`burst
      ensures burst == ""
    {
      burst := "";
    }

    /**
     * sendBurst: sends the buffer through the manager, then clears it; when
     * the network is locked against this script the exception propagates and
     * the buffer is kept.
     */
    method SendBurst() returns (r: Result<()>)
      modifies this`burst, manager`sent
      ensures r.Err? <==> old(manager.MayNotWrite(this))
      ensures r.Err? ==> r.error == NetworkLocked && burst == old(burst)
      ensures r.Ok? ==> burst == ""
      ensures manager.sent == old(manager.sent) + (if old(manager.Writes(this)) then [old(burst)] else [])
    {
      r := manager.WriteToNetwork(burst, this);
      if r.Ok? {
        ClearBurst();
      }
    }

    /**
     * createSectorParameter: an integer parameter bounded by 1 and the
     * number of sectors; it throws before the database is initialized.
     */
    method CreateSectorParameter(db: Databases.Database, title: string, sector: int) returns (r: Result<Parameter>)
      requires db.SectorsValid() && IsInt32(sector)
      ensures r.Err? <==> !db.IsInitialized()
      ensures r.Err? ==> r.error == ScriptFailure
      ensures r.Ok? ==> (
        var n := db.sectors.Length;
        fresh(r.value) && r.value.Valid() && r.value.kind == IntegerType && r.value.caption == title &&
        r.value.minValue == Min(1, n) && r.value.maxValue == n &&
        r.value.value == IntValue(if n < 1 then n else Clamp(sector, 1, n)))
    {
      if !db.IsInitialized() {
        return Err(ScriptFailure);
      }
      var p := new Parameter.OfInteger(title, sector);
      var _ := p.SetMinValue(1);
      var _ := p.SetMaxValue(db.GetNumSectors());
      return Ok(p);
    }
  }

  // ---------------------------------------------------------------------
  // The script manager

  class ScriptManager {
    /** The script classes found on the script class path. */
    const scriptClasses: set<string>
    var instances: map<string, Script>
    /** For each loaded class, the classes that required it; None for the user interface. */
    var deps: map<string, set<Option<string>>>
    var timerTasks: map<Script, set<Task>>
    var pendingEventRegs: map<Script, set<Event>>
    var eventListeners: map<Event, set<Script>>
    var exclusiveScript: Script?
    var networkLocked: bool
    var sent: seq<string>

    constructor (scriptClasses: set<string>)
      ensures Valid() && this.scriptClasses == scriptClasses
      ensures instances == map[] && deps == map[] && timerTasks == map[]
      ensures pendingEventRegs == map[] && eventListeners == map[]
      ensures exclusiveScript == null && !networkLocked && sent == []
    {
      this.scriptClasses := scriptClasses;
      instances, deps, timerTasks := map[], map[], map[];
      pendingEventRegs, eventListeners := map[], map[];
      exclusiveScript, networkLocked, sent := null, false, [];
    }

    predicate IsLoaded(s: Script)
      reads this
    {
      LoadedIn(instances, s)
    }

    /** Everything but the timer tasks. */
    ghost predicate Consistent()
      reads this
    {
      KeyedByClass(instances) && NoEmptySets(eventListeners) &&
      (exclusiveScript != null ==> IsLoaded(exclusiveScript))
    }

    ghost predicate Valid()
      reads this
    {
      Consistent() && TasksOfLoaded(instances, timerTasks)
    }

    /** Another script holds the exclusive lock. */
    predicate HeldByOther(s: Script)
      reads this
    {
      exclusiveScript != null && exclusiveScript != s
    }

    /** writeToNetwork throws NetworkLockedException for this loaded sender. */
    predicate MayNotWrite(s: Script)
      reads this
    {
      IsLoaded(s) && (networkLocked || HeldByOther(s))
    }

    /** writeToNetwork sends this sender's text. */
    predicate Writes(s: Script)
      reads this
    {
      IsLoaded(s) && !networkLocked && !HeldByOther(s)
    }

    /** The caller's class as recorded in deps: null for the user interface. */
    static function CallerClass(caller: Script?): Option<string>
    {
      if caller == null then None else Some(caller.className)
    }

    function RequiredBy(k: string): set<Option<string>>
      reads this
    {
      if k in deps then deps[k] else {}
    }

    /**
     * loadScript's bookkeeping: a caller that is not loaded is ignored, an
     * unknown class throws, a loaded class only records the requirement, and
     * otherwise `instance` (the new instance of the class) is filed as loaded.
     */
    method LoadScript(classToLoad: string, caller: Script?, instance: Script) returns (r: Result<()>)
      requires Valid() && instance.className == classToLoad
      modifies this`instances, this`deps
      ensures Valid()
      ensures caller != null && !old(IsLoaded(caller)) ==> r == Ok(()) && instances == old(instances) && deps == old(deps)
      ensures (caller == null || old(IsLoaded(caller))) && classToLoad !in scriptClasses ==>
        r == Err(ScriptFailure) && instances == old(instances) && deps == old(deps)
      ensures (caller == null || old(IsLoaded(caller))) && classToLoad in scriptClasses ==> (
        r == Ok(()) && deps == old(deps)[classToLoad := old(RequiredBy(classToLoad)) + {CallerClass(caller)}] &&
        instances == (if classToLoad in old(instances) then old(instances) else old(instances)[classToLoad := instance]))
    {
      if caller != null && !IsLoaded(caller) {
        return Ok(());
      }
      if classToLoad !in scriptClasses {
        return Err(ScriptFailure);
      }
      if classToLoad !in instances {
        instances := instances[classToLoad := instance];
      }
      deps := deps[classToLoad := RequiredBy(classToLoad) + {CallerClass(caller)}];
      return Ok(());
    }

    /**
     * loadScript(String, Script): an unknown class name throws before the
     * caller is looked at; a known one goes on as loadScript(Class, Script).
     */
    method LoadScriptByName(className: string, caller: Script?, instance: Script) returns (r: Result<()>)
      requires Valid() && instance.className == className
      modifies this`instances, this`deps
      ensures Valid()
      ensures className !in scriptClasses ==> r == Err(ScriptFailure) && instances == old(instances) && deps == old(deps)
      ensures className in scriptClasses && caller != null && !old(IsLoaded(caller)) ==>
        r == Ok(()) && instances == old(instances) && deps == old(deps)
      ensures className in scriptClasses && (caller == null || old(IsLoaded(caller))) ==> (
        r == Ok(()) && deps == old(deps)[className := old(RequiredBy(className)) + {CallerClass(caller)}] &&
        instances == (if className in old(instances) then old(instances) else old(instances)[className := instance]))
    {
      if className !in scriptClasses {
        return Err(ScriptFailure);
      }
      r := LoadScript(className, caller, instance);
    }

    /**
     * addEventListener: ignored for a script that is not loaded; an
     * initialized script listens at once, another one has the events kept
     * pending until activateEvents.
     */
    method AddEventListener(listener: Script, events: seq<Event>)
      requires Valid()
      modifies this`eventListeners, this`pendingEventRegs
      ensures Valid()
      ensures !IsLoaded(listener) ==> eventListeners == old(eventListeners) && pendingEventRegs == old(pendingEventRegs)
      ensures IsLoaded(listener) && listener.initialized ==>
        eventListeners == Registered(old(eventListeners), Elements(events), listener) &&
        pendingEventRegs == old(pendingEventRegs)
      ensures IsLoaded(listener) && !listener.initialized ==>
        eventListeners == old(eventListeners) &&
        pendingEventRegs == old(pendingEventRegs)[listener := PendingOf(old(pendingEventRegs), listener) + Elements(events)]
    {
      if !IsLoaded(listener) {
        return;
      }
      if listener.initialized {
        ghost var m0 := eventListeners;
        var i := 0;
        while i < |events|
          invariant 0 <= i <= |events|
          invariant eventListeners == Registered(m0, Elements(events[..i]), listener)
          invariant pendingEventRegs == old(pendingEventRegs)
        {
          var e := events[i];
          assert Elements(events[..i + 1]) == Elements(events[..i]) + {e} by {
            assert events[..i + 1] == events[..i] + [e];
          }
          RegisteredStep(m0, Elements(events[..i]), e, listener);
          eventListeners := eventListeners[e := ListenersOf(eventListeners, e) + {listener}];
          i := i + 1;
        }
        assert events[..i] == events;
      } else {
        var pending := PendingOf(pendingEventRegs, listener);
        ghost var p0 := pending;
        var i := 0;
        while i < |events|
          invariant 0 <= i <= |events|
          invariant pending == p0 + Elements(events[..i])
        {
          assert events[..i + 1] == events[..i] + [events[i]];
          pending := pending + {events[i]};
          i := i + 1;
        }
        assert events[..i] == events;
        pendingEventRegs := pendingEventRegs[listener := pending];
      }
    }

    static function PendingOf(m: map<Script, set<Event>>, s: Script): set<Event>
    {
      if s in m then m[s] else {}
    }

    /**
     * removeEventListener(listener, events): an initialized script stops
     * listening for the events, and events left with no listener are
     * dropped; otherwise the events leave its pending set, if it has one.
     */
    method RemoveEventListener(listener: Script, events: seq<Event>)
      requires Valid()
      modifies this`eventListeners, this`pendingEventRegs
      ensures Valid()
      ensures listener.initialized ==>
        eventListeners == Unregistered(old(eventListeners), Elements(events), listener) &&
        pendingEventRegs == old(pendingEventRegs)
      ensures !listener.initialized ==>
        eventListeners == old(eventListeners) &&
        pendingEventRegs == (if listener in old(pendingEventRegs)
                             then old(pendingEventRegs)[listener := old(pendingEventRegs)[listener] - Elements(events)]
                             else old(pendingEventRegs))
    {
      if listener.initialized {
        ghost var m0 := eventListeners;
        assert Unregistered(m0, {}, listener) == m0;
        var i := 0;
        while i < |events|
          invariant 0 <= i <= |events|
          invariant eventListeners == Unregistered(m0, Elements(events[..i]), listener)
          invariant pendingEventRegs == old(pendingEventRegs)
        {
          var e := events[i];
          assert Elements(events[..i + 1]) == Elements(events[..i]) + {e} by {
            assert events[..i + 1] == events[..i] + [e];
          }
          UnregisteredStep(m0, Elements(events[..i]), e, listener);
          Drop(e, listener);
          i := i + 1;
        }
        assert events[..i] == events;
      } else if listener in pendingEventRegs {
        var pending := pendingEventRegs[listener];
        ghost var p0 := pending;
        var i := 0;
        while i < |events|
          invariant 0 <= i <= |events|
          invariant pending == p0 - Elements(events[..i])
        {
          assert events[..i + 1] == events[..i] + [events[i]];
          pending := pending - {events[i]};
          i := i + 1;
        }
        assert events[..i] == events;
        pendingEventRegs := pendingEventRegs[listener := pending];
      }
    }

    /** The body of the removal loops: one event loses the listener, and is dropped once it has none. */
    method Drop(e: Event, listener: Script)
      modifies this`eventListeners
      ensures eventListeners == Without(old(eventListeners), e, listener)
    {
      if e in eventListeners {
        var listeners := eventListeners[e] - {listener};
        if listeners == {} {
          eventListeners := eventListeners - {e};
        } else {
          eventListeners := eventListeners[e := listeners];
        }
      }
    }

    /**
     * removeEventListener(listener): an initialized script stops listening
     * for every event; another one loses its pending registrations.
     */
    method RemoveAllEvents(listener: Script)
      requires NoEmptySets(eventListeners)
      modifies this`eventListeners, this`pendingEventRegs
      ensures NoEmptySets(eventListeners)
      ensures listener.initialized ==>
        eventListeners == Unregistered(old(eventListeners), old(eventListeners).Keys, listener) &&
        pendingEventRegs == old(pendingEventRegs)
      ensures !listener.initialized ==>
        eventListeners == old(eventListeners) && pendingEventRegs == old(pendingEventRegs) - {listener}
    {
      if listener.initialized {
        ghost var m0 := eventListeners;
        var keys := eventListeners.Keys;
        assert Unregistered(m0, {}, listener) == m0;
        while keys != {}
          invariant keys <= m0.Keys
          invariant eventListeners == Unregistered(m0, m0.Keys - keys, listener)
          invariant pendingEventRegs == old(pendingEventRegs)
          decreases keys
        {
          var e :| e in keys;
          UnregisteredStep(m0, m0.Keys - keys, e, listener);
          assert m0.Keys - (keys - {e}) == (m0.Keys - keys) + {e};
          Drop(e, listener);
          keys := keys - {e};
        }
      } else {
        pendingEventRegs := pendingEventRegs - {listener};
      }
    }

    /**
     * activateEvents: once the script is initialized, its pending events are
     * registered (if it is still loaded) and its pending entry is dropped.
     */
    method ActivateEvents(listener: Script)
      requires Valid()
      modifies this`eventListeners, this`pendingEventRegs
      ensures Valid()
      ensures !listener.initialized || listener !in old(pendingEventRegs) ==>
        eventListeners == old(eventListeners) && pendingEventRegs == old(pendingEventRegs)
      ensures listener.initialized && listener in old(pendingEventRegs) ==>
        pendingEventRegs == old(pendingEventRegs) - {listener} &&
        eventListeners == (if IsLoaded(listener) then Registered(old(eventListeners), old(pendingEventRegs)[listener], listener)
                           else old(eventListeners))
    {
      if !listener.initialized {
        return;
      }
      if listener in pendingEventRegs {
        var events := ToSeq(pendingEventRegs[listener]);
        AddEventListener(listener, events);
        pendingEventRegs := pendingEventRegs - {listener};
      }
    }

    /** Set.toArray: the elements of a set, in some order. */
    static method ToSeq(s: set<Event>) returns (r: seq<Event>)
      ensures Elements(r) == s
    {
      r := [];
      var rest := s;
      while rest != {}
        invariant Elements(r) + rest == s
        decreases rest
      {
        var e :| e in rest;
        assert Elements(r + [e]) == Elements(r) + {e};
        r := r + [e];
        rest := rest - {e};
      }
    }

    /** writeToNetwork: ignored for a script that is not loaded; refused while the network is locked against the sender. */
    method WriteToNetwork(text: string, sender: Script) returns (r: Result<()>)
      modifies this`sent
      ensures r.Err? <==> MayNotWrite(sender)
      ensures r.Err? ==> r.error == NetworkLocked
      ensures sent == old(sent) + (if Writes(sender) then [text] else [])
    {
      if !IsLoaded(sender) {
        return Ok(());
      }
      if networkLocked || (exclusiveScript != null && exclusiveScript != sender) {
        return Err(NetworkLocked);
      }
      sent := sent + [text];
      return Ok(());
    }

    /** lockNetwork: ignored for a script that is not loaded; refused while another script holds the lock. */
    method LockNetwork(script: Script) returns (r: Result<()>)
      requires Valid()
      modifies this`exclusiveScript
      ensures Valid()
      ensures r.Err? <==> old(IsLoaded(script) && HeldByOther(script))
      ensures r.Err? ==> r.error == NetworkLocked && exclusiveScript == old(exclusiveScript)
      ensures r.Ok? ==> exclusiveScript == (if IsLoaded(script) then script else old(exclusiveScript))
    {
      if !IsLoaded(script) {
        return Ok(());
      }
      if exclusiveScript != null && exclusiveScript != script {
        return Err(NetworkLocked);
      }
      exclusiveScript := script;
      return Ok(());
    }

    /** unlockNetwork: refused while another script holds the lock; otherwise the lock is released. */
    method UnlockNetwork(script: Script) returns (r: Result<()>)
      requires Valid()
      modifies this`exclusiveScript
      ensures Valid()
      ensures r.Err? <==> old(HeldByOther(script))
      ensures r.Err? ==> r.error == NetworkLocked && exclusiveScript == old(exclusiveScript)
      ensures r.Ok? ==> exclusiveScript == null
    {
      if exclusiveScript != null && exclusiveScript != script {
        return Err(NetworkLocked);
      }
      exclusiveScript := null;
      return Ok(());
    }

    /** scheduleTask's bookkeeping: a loaded script's task is filed under the script. */
    method ScheduleTask(task: Task)
      requires Valid()
      modifies this`timerTasks
      ensures Valid()
      ensures !IsLoaded(task.script) ==> timerTasks == old(timerTasks)
      ensures IsLoaded(task.script) ==> timerTasks == old(timerTasks)[task.script := TasksOf(old(timerTasks), task.script) + {task}]
    {
      if !IsLoaded(task.script) {
        return;
      }
      timerTasks := timerTasks[task.script := TasksOf(timerTasks, task.script) + {task}];
    }

    static function TasksOf(m: map<Script, set<Task>>, s: Script): set<Task>
    {
      if s in m then m[s] else {}
    }

    /**
     * unloadScript as written: the instance leaves the loaded map, its
     * listeners and the exclusive lock, but its timer tasks are looked up by
     * class and so are never found.
     */
    method UnloadScriptAsWritten(classToUnload: string)
      requires Valid()
      modifies this`instances, this`eventListeners, this`pendingEventRegs, this`exclusiveScript
      ensures Consistent() && timerTasks == old(timerTasks)
      ensures classToUnload !in old(instances) ==>
        instances == old(instances) && eventListeners == old(eventListeners) &&
        pendingEventRegs == old(pendingEventRegs) && exclusiveScript == old(exclusiveScript)
      ensures classToUnload in old(instances) ==> Unloaded(old(instances)[classToUnload], old(instances), old(eventListeners),
                                                          old(pendingEventRegs), old(exclusiveScript))
    {
      if classToUnload !in instances {
        return;
      }
      var instance := instances[classToUnload];
      instances := instances - {classToUnload};
      RemoveAllEvents(instance);
      if exclusiveScript == instance {
        exclusiveScript := null;
      }
    }

    /** The state once `instance` is unloaded, timer tasks aside. */
    ghost predicate Unloaded(instance: Script, instances0: map<string, Script>, listeners0: map<Event, set<Script>>,
                             pending0: map<Script, set<Event>>, exclusive0: Script?)
      reads this, instance
    {
      instances == instances0 - {instance.className} &&
      (instance.initialized ==> eventListeners == Unregistered(listeners0, listeners0.Keys, instance) && pendingEventRegs == pending0) &&
      (!instance.initialized ==> eventListeners == listeners0 && pendingEventRegs == pending0 - {instance}) &&
      exclusiveScript == (if exclusive0 == instance then null else exclusive0)
    }

    /**
     * unloadScript: nothing happens to a class that is not loaded; otherwise
     * the instance's timer tasks are cancelled, and it leaves the loaded map,
     * its listeners and the exclusive lock.
     */
    method UnloadScript(classToUnload: string)
      requires Valid()
      modifies this`instances, this`timerTasks, this`eventListeners, this`pendingEventRegs, this`exclusiveScript
      ensures Valid()
      ensures classToUnload !in old(instances) ==>
        instances == old(instances) && timerTasks == old(timerTasks) && eventListeners == old(eventListeners) &&
        pendingEventRegs == old(pendingEventRegs) && exclusiveScript == old(exclusiveScript)
      ensures classToUnload in old(instances) ==>
        timerTasks == old(timerTasks) - {old(instances)[classToUnload]} &&
        Unloaded(old(instances)[classToUnload], old(instances), old(eventListeners), old(pendingEventRegs), old(exclusiveScript))
    {
      if classToUnload !in instances {
        return;
      }
      var instance := instances[classToUnload];
      UnloadDropsTasks(instances, timerTasks, classToUnload);
      timerTasks := timerTasks - {instance};
      instances := instances - {classToUnload};
      RemoveAllEvents(instance);
      if exclusiveScript == instance {
        exclusiveScript := null;
      }
    }

    /**
     * cancelRequirement: the caller's class no longer requires the class,
     * which is unloaded once nothing requires it.
     */
    method CancelRequirement(requiredClass: string, caller: Script)
      requires Valid()
      modifies this`deps, this`instances, this`timerTasks, this`eventListeners, this`pendingEventRegs, this`exclusiveScript
      ensures Valid()
      ensures requiredClass !in old(deps) ==>
        deps == old(deps) && instances == old(instances) && exclusiveScript == old(exclusiveScript)
      ensures requiredClass in old(deps) ==>
        deps == old(deps)[requiredClass := old(deps)[requiredClass] - {Some(caller.className)}]
      ensures requiredClass in old(deps) && deps[requiredClass] != {} ==> instances == old(instances)
      ensures requiredClass in old(deps) && deps[requiredClass] == {} ==> instances == old(instances) - {requiredClass}
    {
      if requiredClass in deps {
        var left := deps[requiredClass] - {Some(caller.className)};
        deps := deps[requiredClass := left];
        if left == {} {
          UnloadScript(requiredClass);
        }
      }
    }
  }
}
