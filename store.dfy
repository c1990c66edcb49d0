/** The in-memory task list that both the tool server and the HTTP
    collection route keep as a module-level array: its seed, the
    `findIndex` search, the field merge of an update, and the three in-place
    changes the handlers make to it (`push`, indexed assignment, `splice`). */
module Store {
  import opened Basics
  import opened Types

  /** 2024-01-15T10:00:00Z and 2024-01-15T11:00:00Z in milliseconds. */
  const SeedTime1: Timestamp := 1705312800000
  const SeedTime2: Timestamp := 1705316400000

  const Seed: seq<Task> := [
    Task("1", "Setup API Server", "Create HTTP API endpoints for task management", true, SeedTime1, SeedTime1),
    Task("2", "Implement MCP Server", "Create MCP server with WebSocket support", false, SeedTime2, SeedTime2)
  ]

  predicate HasId(s: seq<Task>, id: string) {
    exists i :: 0 <= i < |s| && s[i].id == id
  }

  /** The intended invariant: no two tasks share an id (nothing enforces it). */
  predicate UniqueIds(s: seq<Task>) {
    forall i, j :: 0 <= i < j < |s| ==> s[i].id != s[j].id
  }

  lemma SeedIsWellFormed()
    ensures |Seed| == 2 && UniqueIds(Seed)
    ensures Seed[0].id == "1" && Seed[0].completed
    ensures Seed[1].id == "2" && !Seed[1].completed
  {
  }

  /** `s.findIndex(t => t.id === id)`, with -1 written as `None`. */
  function FindIndex(s: seq<Task>, id: string): (r: Option<nat>)
    ensures r.Some? ==> r.value < |s| && s[r.value].id == id
    ensures r.Some? ==> forall j :: 0 <= j < r.value ==> s[j].id != id
    ensures r.None? <==> !HasId(s, id)
  {
    if s == [] then None
    else if s[0].id == id then Some(0)
    else match FindIndex(s[1..], id)
      case None => None
      case Some(k) => Some(k + 1)
  }

  /** With unique ids the first match is the only match. */
  lemma FindIndexUnique(s: seq<Task>, id: string, i: nat)
    requires UniqueIds(s) && i < |s| && s[i].id == id
    ensures FindIndex(s, id) == Some(i)
  {
  }

  /** The update merge: `{...t, title: p.title ?? t.title, …, updatedAt: now}`.
      A supplied value (even `""` or `false`) replaces the old one; an absent
      one keeps it; `id` and `createdAt` never change. */
  function ApplyPatch(t: Task, p: UpdateTaskRequest, now: Timestamp): (r: Task)
    ensures r.id == t.id && r.createdAt == t.createdAt && r.updatedAt == now
    ensures p.title.Some? ==> r.title == p.title.value
    ensures p.title.None? ==> r.title == t.title
    ensures p.description.Some? ==> r.description == p.description.value
    ensures p.description.None? ==> r.description == t.description
    ensures p.completed.Some? ==> r.completed == p.completed.value
    ensures p.completed.None? ==> r.completed == t.completed
  {
    t.(title := p.title.GetOr(t.title),
       description := p.description.GetOr(t.description),
       completed := p.completed.GetOr(t.completed),
       updatedAt := now)
  }

  /** An empty patch changes nothing but the modification time. */
  lemma EmptyPatchTouchesOnlyUpdatedAt(t: Task, now: Timestamp)
    ensures ApplyPatch(t, NoChange, now) == t.(updatedAt := now)
  {
  }

  /** Applying the same patch twice is the same as applying it once, later. */
  lemma PatchIdempotent(t: Task, p: UpdateTaskRequest, first: Timestamp, second: Timestamp)
    ensures ApplyPatch(ApplyPatch(t, p, first), p, second) == ApplyPatch(t, p, second)
  {
  }

  /** `s.splice(i, 1)` seen from the array that remains. */
  function RemoveAt(s: seq<Task>, i: nat): (r: seq<Task>)
    requires i < |s|
    ensures |r| == |s| - 1
    ensures forall j :: 0 <= j < i ==> r[j] == s[j]
    ensures forall j :: i <= j < |r| ==> r[j] == s[j + 1]
    ensures multiset(r) + multiset{s[i]} == multiset(s)
  {
    assert s == s[..i] + [s[i]] + s[i + 1..];
    s[..i] + s[i + 1..]
  }

  lemma ReplaceKeepsUnique(s: seq<Task>, i: nat, t: Task)
    requires UniqueIds(s) && i < |s| && t.id == s[i].id
    ensures UniqueIds(s[i := t])
  {
    var s' := s[i := t];
    forall a, b | 0 <= a < b < |s'| ensures s'[a].id != s'[b].id {
      assert s'[a].id == s[a].id && s'[b].id == s[b].id;
    }
  }

  lemma RemoveKeepsUnique(s: seq<Task>, i: nat)
    requires UniqueIds(s) && i < |s|
    ensures UniqueIds(RemoveAt(s, i))
  {
    var r := RemoveAt(s, i);
    forall a, b | 0 <= a < b < |r| ensures r[a].id != r[b].id {
      var a', b' := if a < i then a else a + 1, if b < i then b else b + 1;
      assert r[a] == s[a'] && r[b] == s[b'] && a' < b';
    }
  }

  /** Appending keeps the ids unique exactly when the new id is fresh. */
  lemma AppendKeepsUniqueIff(s: seq<Task>, t: Task)
    requires UniqueIds(s)
    ensures UniqueIds(s + [t]) <==> !HasId(s, t.id)
  {
    var s' := s + [t];
    if HasId(s, t.id) {
      var i :| 0 <= i < |s| && s[i].id == t.id;
      assert s'[i].id == s'[|s|].id;
    } else {
      forall a, b | 0 <= a < b < |s'| ensures s'[a].id != s'[b].id {
        if b == |s| {
          assert s'[a] == s[a];
        } else {
          assert s'[a] == s[a] && s'[b] == s[b];
        }
      }
    }
  }

  /** An id taken from a clock reading is fresh when every existing id was
      taken from an earlier reading. */
  lemma LaterClockGivesFreshId(s: seq<Task>, now: nat)
    requires forall k :: 0 <= k < |s| ==> exists c: nat :: c < now && s[k].id == Decimal(c)
    ensures !HasId(s, Decimal(now))
  {
    if HasId(s, Decimal(now)) {
      var k :| 0 <= k < |s| && s[k].id == Decimal(now);
      var c: nat :| c < now && s[k].id == Decimal(c);
      DecimalInjective(c, now);
    }
  }

  /** The store behind each entry point: a list of tasks changed in place. */
  class TaskStore {
    var tasks: seq<Task>

    constructor Seeded()
      ensures tasks == Seed
    {
      tasks := Seed;
    }

    /** `tasks.push(t)`. */
    method Push(t: Task)
      modifies this
      ensures tasks == old(tasks) + [t]
    {
      tasks := tasks + [t];
    }

    /** `tasks[i] = t`. */
    method Put(i: nat, t: Task)
      requires i < |tasks|
      modifies this
      ensures tasks == old(tasks)[i := t]
      ensures |tasks| == |old(tasks)|
      ensures forall j :: 0 <= j < |tasks| && j != i ==> tasks[j] == old(tasks)[j]
    {
      tasks := tasks[i := t];
    }

    /** `tasks.splice(i, 1)[0]`. */
    method Splice(i: nat) returns (removed: Task)
      requires i < |tasks|
      modifies this
      ensures removed == old(tasks)[i]
      ensures tasks == RemoveAt(old(tasks), i)
    {
      removed := tasks[i];
      tasks := RemoveAt(tasks, i);
    }
  }
}
