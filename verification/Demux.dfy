/** One UDP port shared by many tasks: a remote is mapped to a task by the user name of its first STUN packet. */
module Demux {
  import opened Options
  import opened Sequences

  type Addr = nat
  type Task = nat

  /** The value of the four maps between two calls. */
  datatype Port = Port(
    remotes: map<Addr, Task>,
    lists: map<Task, seq<Addr>>,
    ufrags: map<string, Task>,
    reverse: map<Task, string>)

  function AddUfrag(p: Port, ufrag: string, task: Task): Port {
    p.(ufrags := p.ufrags[ufrag := task], reverse := p.reverse[task := ufrag])
  }

  function Addresses(list: seq<Addr>): set<Addr> {
    set a | a in list
  }

  /** Each lookup that fails ends the removal where it stands. */
  function RemoveTask(p: Port, task: Task): (Port, bool) {
    if task !in p.reverse then (p, false)
    else
      var ufrag := p.reverse[task];
      var p1 := p.(reverse := p.reverse - {task});
      if ufrag !in p.ufrags then (p1, false)
      else
        var p2 := p1.(ufrags := p.ufrags - {ufrag});
        if task !in p.lists then (p2, false)
        else (p2.(lists := p.lists - {task}, remotes := p.remotes - Addresses(p.lists[task])), true)
  }

  /** `username` is the part of a STUN packet's user name before the colon, if the packet has one. */
  function MapRemote(p: Port, remote: Addr, username: Option<string>): (Port, Option<Task>) {
    if remote in p.remotes then (p, Some(p.remotes[remote]))
    else if username.None? || username.value !in p.ufrags then (p, None)
    else
      var task := p.ufrags[username.value];
      var list := if task in p.lists then p.lists[task] else [];
      (p.(remotes := p.remotes[remote := task], lists := p.lists[task := list + [remote]]), Some(task))
  }

  class SharedUdpPort {
    var taskRemotes: map<Addr, Task>
    var taskRemotesMap: map<Task, seq<Addr>>
    var taskUfrags: map<string, Task>
    var taskUfragsReverse: map<Task, string>

    function State(): Port
      reads this
    {
      Port(taskRemotes, taskRemotesMap, taskUfrags, taskUfragsReverse)
    }

    constructor ()
      ensures State() == Empty()
    {
      taskRemotes, taskRemotesMap, taskUfrags, taskUfragsReverse := map[], map[], map[], map[];
    }

    method Add(ufrag: string, task: Task)
      modifies this
      ensures State() == AddUfrag(old(State()), ufrag, task)
      ensures taskUfrags == old(taskUfrags)[ufrag := task] && taskUfragsReverse == old(taskUfragsReverse)[task := ufrag]
      ensures taskRemotes == old(taskRemotes) && taskRemotesMap == old(taskRemotesMap)
    {
      taskUfrags := taskUfrags[ufrag := task];
      taskUfragsReverse := taskUfragsReverse[task := ufrag];
    }

    method Remove(task: Task) returns (ok: bool)
      modifies this
      ensures (State(), ok) == RemoveTask(old(State()), task)
    {
      if task !in taskUfragsReverse {
        return false;
      }
      var ufrag := taskUfragsReverse[task];
      taskUfragsReverse := taskUfragsReverse - {task};
      if ufrag !in taskUfrags {
        return false;
      }
      taskUfrags := taskUfrags - {ufrag};
      if task !in taskRemotesMap {
        return false;
      }
      var list := taskRemotesMap[task];
      taskRemotesMap := taskRemotesMap - {task};
      ghost var before := taskRemotes;
      for i := 0 to |list|
        invariant taskRemotes == before - Addresses(list[..i])
        invariant taskRemotesMap == old(taskRemotesMap) - {task}
        invariant taskUfrags == old(taskUfrags) - {ufrag} && taskUfragsReverse == old(taskUfragsReverse) - {task}
      {
        assert Addresses(list[..i + 1]) == Addresses(list[..i]) + {list[i]};
        taskRemotes := taskRemotes - {list[i]};
      }
      assert list[..|list|] == list;
      return true;
    }

    method Map(remote: Addr, username: Option<string>) returns (task: Option<Task>)
      modifies this
      ensures (State(), task) == MapRemote(old(State()), remote, username)
      ensures remote in old(taskRemotes) ==> task == Some(old(taskRemotes)[remote]) && State() == old(State())
      ensures remote !in old(taskRemotes) && (username.None? || username.value !in old(taskUfrags)) ==>
                task.None? && State() == old(State())
      ensures remote !in old(taskRemotes) && username.Some? && username.value in old(taskUfrags) ==>
                && task == Some(old(taskUfrags)[username.value])
                && taskRemotes == old(taskRemotes)[remote := task.value]
                && task.value in taskRemotesMap
                && taskRemotesMap[task.value]
                   == (if task.value in old(taskRemotesMap) then old(taskRemotesMap)[task.value] else []) + [remote]
                && taskRemotesMap - {task.value} == old(taskRemotesMap) - {task.value}
      ensures taskUfrags == old(taskUfrags) && taskUfragsReverse == old(taskUfragsReverse)
    {
      if remote in taskRemotes {
        return Some(taskRemotes[remote]);
      }
      if username.None? || username.value !in taskUfrags {
        return None;
      }
      var t := taskUfrags[username.value];
      taskRemotes := taskRemotes[remote := t];
      taskRemotesMap := taskRemotesMap[t := (if t in taskRemotesMap then taskRemotesMap[t] else []) + [remote]];
      return Some(t);
    }
  }

  function Empty(): Port {
    Port(map[], map[], map[], map[])
  }

  // ---------- the invariant ----------

  /** The two user-name maps undo each other. */
  ghost predicate UfragsInverse(p: Port) {
    && (forall u :: u in p.ufrags ==> p.ufrags[u] in p.reverse && p.reverse[p.ufrags[u]] == u)
    && (forall t :: t in p.reverse ==> p.reverse[t] in p.ufrags && p.ufrags[p.reverse[t]] == t)
  }

  /** A remote is mapped to a task exactly when it is in the task's list; so no two lists share one. */
  ghost predicate RemotesInverse(p: Port) {
    && (forall a :: a in p.remotes ==> p.remotes[a] in p.lists && a in p.lists[p.remotes[a]])
    && (forall t, a :: t in p.lists && a in p.lists[t] ==> a in p.remotes && p.remotes[a] == t)
    && (forall t :: t in p.lists ==> Distinct(p.lists[t]))
  }

  ghost predicate Inv(p: Port) {
    UfragsInverse(p) && RemotesInverse(p) && forall t :: t in p.lists ==> t in p.reverse
  }

  /** Neither the user name nor the task is in use, or they already belong together. */
  predicate MayAdd(p: Port, ufrag: string, task: Task) {
    (ufrag !in p.ufrags && task !in p.reverse) || (ufrag in p.ufrags && p.ufrags[ufrag] == task)
  }

  /** Adding keeps the maps inverse exactly when the pair is new or is the one already there. */
  lemma AddKeepsInvIff(p: Port, ufrag: string, task: Task)
    requires Inv(p)
    ensures Inv(AddUfrag(p, ufrag, task)) <==> MayAdd(p, ufrag, task)
  {
    var q := AddUfrag(p, ufrag, task);
    if MayAdd(p, ufrag, task) {
      assert UfragsInverse(q) && RemotesInverse(q);
    } else if ufrag in p.ufrags {
      var other := p.ufrags[ufrag];
      assert other in q.reverse && q.reverse[other] == ufrag && q.ufrags[ufrag] == task;
    } else {
      var other := p.reverse[task];
      assert other in q.ufrags && q.ufrags[other] == task && q.reverse[task] == ufrag;
    }
  }

  /** Every map without what mentions `task`. */
  ghost function Without(p: Port, task: Task): Port {
    Port(
      map a | a in p.remotes && p.remotes[a] != task :: p.remotes[a],
      p.lists - {task},
      map u | u in p.ufrags && p.ufrags[u] != task :: p.ufrags[u],
      p.reverse - {task})
  }

  /** The remotes of a task are those in its list, and none when it has no list. */
  lemma RemotesWithout(p: Port, task: Task)
    requires RemotesInverse(p)
    ensures Without(p, task).remotes == if task in p.lists then p.remotes - Addresses(p.lists[task]) else p.remotes
  {
    hide Distinct;
    forall a | a in p.remotes
      ensures p.remotes[a] == task <==> task in p.lists && a in p.lists[task]
    {
    }
  }

  lemma UfragsWithout(p: Port, task: Task)
    requires UfragsInverse(p)
    ensures Without(p, task).ufrags == if task in p.reverse then p.ufrags - {p.reverse[task]} else p.ufrags
  {
    forall u | u in p.ufrags
      ensures p.ufrags[u] == task <==> task in p.reverse && u == p.reverse[task]
    {
    }
  }

  /** Removing takes out exactly what mentions the task, and says whether it had been mapped to a remote. */
  lemma RemoveTakesExactly(p: Port, task: Task)
    requires Inv(p)
    ensures RemoveTask(p, task).0 == Without(p, task)
    ensures RemoveTask(p, task).1 <==> task in p.lists
  {
    RemotesWithout(p, task);
    UfragsWithout(p, task);
    var lists := p.lists - {task};
    assert task !in p.lists ==> lists == p.lists;
    assert task !in p.reverse ==> p.reverse - {task} == p.reverse;
    hide RemotesInverse;
  }

  ghost predicate Mentions(p: Port, task: Task) {
    || task in p.lists || task in p.reverse
    || (exists a :: a in p.remotes && p.remotes[a] == task) || (exists u :: u in p.ufrags && p.ufrags[u] == task)
  }

  lemma RemoveKeepsInv(p: Port, task: Task)
    requires Inv(p)
    ensures Inv(RemoveTask(p, task).0) && !Mentions(RemoveTask(p, task).0, task)
  {
    hide RemoveTask;
    RemoveTakesExactly(p, task);
  }

  lemma MapKeepsInv(p: Port, remote: Addr, username: Option<string>)
    requires Inv(p)
    ensures Inv(MapRemote(p, remote, username).0)
    ensures var (q, t) := MapRemote(p, remote, username);
            t.Some? ==> remote in q.remotes && q.remotes[remote] == t.value && t.value in q.reverse
  {
    var (q, t) := MapRemote(p, remote, username);
    if remote !in p.remotes && t.Some? {
      var old', list := if t.value in p.lists then p.lists[t.value] else [], q.lists[t.value];
      assert forall a :: a in list <==> a in old' || a == remote;
      assert Distinct(list);
      assert RemotesInverse(q);
    }
  }

  // ---------- runs ----------

  datatype Event = Add(ufrag: string, task: Task) | Remove(task: Task) | Packet(remote: Addr, username: Option<string>)

  /** New tasks and user names are not in use; nothing else is asked. */
  predicate Enabled(p: Port, e: Event) {
    e.Add? ==> e.ufrag !in p.ufrags && e.task !in p.reverse
  }

  function Step(p: Port, e: Event): Port {
    match e
    case Add(ufrag, task) => AddUfrag(p, ufrag, task)
    case Remove(task) => RemoveTask(p, task).0
    case Packet(remote, username) => MapRemote(p, remote, username).0
  }

  predicate IsRun(es: seq<Event>, states: seq<Port>) {
    && |states| == |es| + 1 && states[0] == Empty()
    && forall i :: 0 <= i < |es| ==> Enabled(states[i], es[i]) && states[i + 1] == Step(states[i], es[i])
  }

  lemma {:induction false} RunKeepsInv(es: seq<Event>, states: seq<Port>, n: nat)
    requires IsRun(es, states) && n < |states|
    ensures Inv(states[n])
    ensures n > 0 && es[n - 1].Remove? ==> !Mentions(states[n], es[n - 1].task)
  {
    hide Inv, AddUfrag, RemoveTask, MapRemote, Mentions;
    if n == 0 {
      EmptyInv();
    } else {
      RunKeepsInv(es, states, n - 1);
      var p := states[n - 1];
      match es[n - 1]
      case Add(ufrag, task) => AddKeepsInvIff(p, ufrag, task);
      case Remove(task) => RemoveKeepsInv(p, task);
      case Packet(remote, username) => MapKeepsInv(p, remote, username);
    }
  }

  lemma EmptyInv()
    ensures Inv(Empty())
  {
  }

  /** Packet `k` named `task` by the user name it still has, and the task has not been removed since. */
  ghost predicate Earned(es: seq<Event>, states: seq<Port>, n: nat, remote: Addr, task: Task, k: nat)
    requires IsRun(es, states) && n < |states|
  {
    && k < n && es[k].Packet? && es[k].remote == remote && es[k].username.Some?
    && es[k].username.value in states[k].ufrags && states[k].ufrags[es[k].username.value] == task
    && task in states[n].reverse && states[n].reverse[task] == es[k].username.value
    && forall i :: k <= i < n ==> es[i] != Remove(task)
  }

  lemma EarnedStays(es: seq<Event>, states: seq<Port>, n: nat, remote: Addr, task: Task, k: nat)
    requires IsRun(es, states) && 0 < n < |states| && Inv(states[n - 1]) && Inv(states[n])
    requires Earned(es, states, n - 1, remote, task, k) && remote in states[n].remotes
    requires states[n].remotes[remote] == task
    ensures Earned(es, states, n, remote, task, k)
  {
    var e := es[n - 1];
    assert states[n] == Step(states[n - 1], e);
    assert states[n].remotes[remote] in states[n].lists;
    assert task in states[n].reverse;
  }

  /** A remote gets a task's packets only after a packet of its own named the task, which has been there ever since. */
  lemma {:induction false} MappedRemotesEarnedIt(es: seq<Event>, states: seq<Port>, n: nat,
                                                 remote: Addr) returns (k: nat)
    requires IsRun(es, states) && n < |states| && remote in states[n].remotes
    ensures Earned(es, states, n, remote, states[n].remotes[remote], k)
    decreases n
  {
    hide Inv, RemoveTask, MapRemote, Earned;
    RunKeepsInv(es, states, n);
    RunKeepsInv(es, states, n - 1);
    if remote in states[n - 1].remotes {
      k := MappedRemotesEarnedIt(es, states, n - 1, remote);
      StepKeepsTask(states[n - 1], es[n - 1], remote);
      EarnedStays(es, states, n, remote, states[n].remotes[remote], k);
    } else {
      k := n - 1;
      EarnedNow(es, states, n, remote);
    }
  }

  lemma StepKeepsTask(p: Port, e: Event, remote: Addr)
    requires remote in p.remotes && remote in Step(p, e).remotes
    ensures Step(p, e).remotes[remote] == p.remotes[remote]
  {
  }

  lemma EarnedNow(es: seq<Event>, states: seq<Port>, n: nat, remote: Addr)
    requires IsRun(es, states) && 0 < n < |states| && Inv(states[n - 1]) && remote in states[n].remotes
    requires remote !in states[n - 1].remotes
    ensures Earned(es, states, n, remote, states[n].remotes[remote], n - 1)
  {
    hide RemotesInverse;
    assert states[n] == Step(states[n - 1], es[n - 1]);
  }

  /** A mapped remote stays with its task until the task is removed. */
  lemma {:induction false} MappingStays(es: seq<Event>, states: seq<Port>, a: nat, b: nat, remote: Addr, task: Task)
    requires IsRun(es, states) && a <= b < |states|
    requires remote in states[a].remotes && states[a].remotes[remote] == task
    requires forall i :: a <= i < b ==> es[i] != Remove(task)
    ensures remote in states[b].remotes && states[b].remotes[remote] == task
    decreases b
  {
    if a < b {
      MappingStays(es, states, a, b - 1, remote, task);
      RunKeepsInv(es, states, b - 1);
      StepKeepsMapping(states[b - 1], es[b - 1], remote);
    }
  }

  lemma StepKeepsMapping(p: Port, e: Event, remote: Addr)
    requires Inv(p) && remote in p.remotes && e != Remove(p.remotes[remote])
    ensures var q := Step(p, e); remote in q.remotes && q.remotes[remote] == p.remotes[remote]
  {
    hide Distinct;
  }

  /** Once a packet got an answer, every later packet of that remote gets the same one until the task is removed. */
  lemma AnswerStays(es: seq<Event>, states: seq<Port>, a: nat, b: nat, task: Task)
    requires IsRun(es, states) && a < b < |es| && es[a].Packet? && es[b].Packet? && es[b].remote == es[a].remote
    requires MapRemote(states[a], es[a].remote, es[a].username).1 == Some(task)
    requires forall i :: a <= i < b ==> es[i] != Remove(task)
    ensures MapRemote(states[b], es[b].remote, es[b].username) == (states[b], Some(task))
  {
    assert states[a + 1] == Step(states[a], es[a]);
    MappingStays(es, states, a + 1, b, es[a].remote, task);
  }

  // ---------- removing undoes adding ----------

  /** Packets that name one user. */
  function Packets(p: Port, remotes: seq<Addr>, ufrag: string): Port {
    if remotes == [] then p
    else MapRemote(Packets(p, remotes[..|remotes| - 1], ufrag), remotes[|remotes| - 1], Some(ufrag)).0
  }

  lemma {:induction false} PacketsOnlyAddToTask(p: Port, remotes: seq<Addr>, ufrag: string)
    requires Inv(p) && ufrag in p.ufrags
    ensures var q := Packets(p, remotes, ufrag);
            Inv(q) && q.ufrags == p.ufrags && Without(q, p.ufrags[ufrag]) == Without(p, p.ufrags[ufrag])
    decreases |remotes|
  {
    if remotes != [] {
      var n, task := |remotes| - 1, p.ufrags[ufrag];
      PacketsOnlyAddToTask(p, remotes[..n], ufrag);
      var q := Packets(p, remotes[..n], ufrag);
      MapKeepsInv(q, remotes[n], Some(ufrag));
      OnePacketMore(q, remotes[n], ufrag);
    }
  }

  lemma OnePacketMore(q: Port, remote: Addr, ufrag: string)
    requires Inv(q) && ufrag in q.ufrags
    ensures Without(MapRemote(q, remote, Some(ufrag)).0, q.ufrags[ufrag]) == Without(q, q.ufrags[ufrag])
  {
    var task, r := q.ufrags[ufrag], MapRemote(q, remote, Some(ufrag)).0;
    assert Without(r, task).remotes == Without(q, task).remotes;
    assert Without(r, task).lists == Without(q, task).lists;
  }

  /** A task added, reached by any packets that name it, and removed leaves the port as it was. */
  lemma RemoveUndoesAdd(p: Port, ufrag: string, task: Task, remotes: seq<Addr>)
    requires Inv(p) && ufrag !in p.ufrags && task !in p.reverse
    ensures RemoveTask(Packets(AddUfrag(p, ufrag, task), remotes, ufrag), task).0 == p
  {
    hide RemoveTask, Without, Inv;
    var q := AddUfrag(p, ufrag, task);
    AddKeepsInvIff(p, ufrag, task);
    PacketsOnlyAddToTask(q, remotes, ufrag);
    RemoveTakesExactly(Packets(q, remotes, ufrag), task);
    WithoutNewTask(p, ufrag, task);
  }

  lemma WithoutNewTask(p: Port, ufrag: string, task: Task)
    requires Inv(p) && ufrag !in p.ufrags && task !in p.reverse
    ensures Without(AddUfrag(p, ufrag, task), task) == p
  {
    hide Distinct;
    var q := Without(AddUfrag(p, ufrag, task), task);
    assert q.ufrags == p.ufrags;
    assert q.reverse == p.reverse;
    assert q.lists == p.lists;
    assert q.remotes == p.remotes;
  }
}
