// The in-memory session store (internal/session/store.go), over session objects
// that callers go on mutating. Cloning on the way in and out keeps the objects
// it holds apart from every object a caller holds.
module SessionStore {
  import opened Lifecycle

  class Session {
    var id: string
    var ref: string
    var state: State
    var image: string
    var podName: string
    var pvcName: string
    var fromPool: bool
    var createdAt: int
    var lastActivityAt: int
    var stoppedAt: int

    constructor (r: Record)
      ensures Snapshot() == r
    {
      id, ref, state, image := r.id, r.ref, r.state, r.image;
      podName, pvcName, fromPool := r.podName, r.pvcName, r.fromPool;
      createdAt, lastActivityAt, stoppedAt := r.createdAt, r.lastActivityAt, r.stoppedAt;
    }

    function Snapshot(): Record
      reads this
    {
      Record(id, ref, state, image, podName, pvcName, fromPool, createdAt, lastActivityAt, stoppedAt)
    }

    method Clone() returns (c: Session)
      ensures fresh(c) && c.Snapshot() == Snapshot()
    {
      c := new Session(Snapshot());
    }
  }

  class MemoryStore {
    var sessions: map<string, Session>
    ghost var contents: Store  // the records held, by value

    constructor ()
      ensures Valid() && contents == map[] && Held() == {}
    {
      sessions, contents := map[], map[];
    }

    ghost function Held(): set<Session>
      reads this
    { set id | id in sessions :: sessions[id] }

    // No two ids share an object, and each object carries the record of its id.
    ghost predicate Valid()
      reads this, Held()
    {
      && sessions.Keys == contents.Keys && "" !in contents
      && (forall a, b | a in sessions && b in sessions && a != b :: sessions[a] != sessions[b])
      && (forall id | id in sessions :: sessions[id].Snapshot() == contents[id])
    }

    // The store takes a copy: `s` itself is never held.
    method Create(s: Session) returns (ok: bool)
      requires Valid() && s !in Held()
      modifies this
      ensures Valid() && s !in Held() && fresh(Held() - old(Held()))
      ensures ok == (s.id != "" && s.id !in old(contents))
      ensures contents == if ok then old(contents)[s.id := s.Snapshot()] else old(contents)
    {
      if s.id == "" || s.id in sessions { return false; }
      var c := s.Clone();
      sessions, contents := sessions[s.id := c], contents[s.id := s.Snapshot()];
      assert Held() <= old(Held()) + {c};
      return true;
    }

    // The caller gets a copy: mutating it leaves the store alone.
    method Get(id: string) returns (s: Session?)
      requires Valid()
      ensures s == null <==> id !in contents
      ensures s != null ==> fresh(s) && s !in Held() && s.Snapshot() == contents[id]
    {
      if id !in sessions { return null; }
      s := sessions[id].Clone();
    }

    // Update replaces and never inserts.
    method Update(s: Session) returns (ok: bool)
      requires Valid() && s !in Held()
      modifies this
      ensures Valid() && s !in Held() && fresh(Held() - old(Held()))
      ensures ok == (s.id != "" && s.id in old(contents))
      ensures contents == if ok then old(contents)[s.id := s.Snapshot()] else old(contents)
      ensures contents.Keys == old(contents).Keys
    {
      if s.id == "" || s.id !in sessions { return false; }
      var c := s.Clone();
      sessions, contents := sessions[s.id := c], contents[s.id := s.Snapshot()];
      assert Held() <= old(Held()) + {c};
      return true;
    }

    method Delete(id: string) returns (ok: bool)
      requires Valid()
      modifies this
      ensures Valid() && Held() <= old(Held())
      ensures ok == (id in old(contents)) && contents == old(contents) - {id}
    {
      ok := id in sessions;
      sessions, contents := sessions - {id}, contents - {id};
    }

    // Touch writes through to the held object, and to that one alone.
    method Touch(id: string, now: int) returns (ok: bool)
      requires Valid()
      modifies this`contents, Held()
      ensures Valid() && Held() == old(Held())
      ensures ok == (id in old(contents))
      ensures contents == if ok then old(contents)[id := old(contents)[id].(lastActivityAt := now)] else old(contents)
    {
      if id !in sessions { return false; }
      sessions[id].lastActivityAt := now;
      contents := contents[id := contents[id].(lastActivityAt := now)];
      return true;
    }

    // Copies of the records in the given states, each once, in some order. List
    // passes every state, ListByState one.
    method ListWhere(states: set<State>) returns (out: seq<Session>, records: seq<Record>)
      requires Valid() && forall id | id in contents :: contents[id].id == id
      ensures Copies(out, records)
      ensures forall i | 0 <= i < |out| :: fresh(out[i]) && out[i] !in Held()
      ensures Valid() && Listed(contents, IdsWhere(contents, states), records)
    {
      hide Listed;
      ghost var ids := IdsWhere(contents, states);
      records := [];
      var todo := sessions.Keys;
      ListedStart(contents, ids, todo);
      while todo != {}
        invariant todo <= sessions.Keys
        invariant Listed(contents, ids - todo, records)
      {
        var id :| id in todo;
        ListedStep(contents, ids, todo, records, id);
        if sessions[id].state in states {
          records := records + [sessions[id].Snapshot()];
        }
        todo := todo - {id};
      }
      assert ids - todo == ids;
      out := CloneAll(records);
    }

    method ListByState(st: State) returns (out: seq<Session>, records: seq<Record>)
      requires Valid() && forall id | id in contents :: contents[id].id == id
      ensures Copies(out, records) && forall i | 0 <= i < |out| :: fresh(out[i]) && out[i] !in Held()
      ensures Valid() && |out| == |IdsIn(contents, st)| && Lists(contents, st, records)
    {
      out, records := ListWhere({st});
      assert IdsWhere(contents, {st}) == IdsIn(contents, st);
      assert forall id | id in contents && contents[id].state == st :: id in IdsWhere(contents, {st});
    }

    method List() returns (out: seq<Session>, records: seq<Record>)
      requires Valid() && forall id | id in contents :: contents[id].id == id
      ensures Copies(out, records) && forall i | 0 <= i < |out| :: fresh(out[i]) && out[i] !in Held()
      ensures Valid() && |records| == |contents| && (set i | 0 <= i < |records| :: records[i].id) == contents.Keys
    {
      out, records := ListWhere({Creating, Running, Stopped, Dead});
      forall id | id in contents ensures id in IdsWhere(contents, {Creating, Running, Stopped, Dead}) {
        match contents[id].state case Creating => case Running => case Stopped => case Dead =>
      }
      assert IdsWhere(contents, {Creating, Running, Stopped, Dead}) == contents.Keys;
      forall id | id in contents ensures id in set i | 0 <= i < |records| :: records[i].id {
        assert contents[id] in records;
        var i :| 0 <= i < |records| && records[i] == contents[id];
        assert records[i].id == id;
      }
    }
  }

  ghost predicate Copies(out: seq<Session>, records: seq<Record>)
    reads out
  { |out| == |records| && forall i | 0 <= i < |out| :: out[i].Snapshot() == records[i] }

  method CloneAll(records: seq<Record>) returns (out: seq<Session>)
    ensures Copies(out, records) && forall i | 0 <= i < |out| :: fresh(out[i])
  {
    out := [];
    for i := 0 to |records|
      invariant Copies(out, records[..i]) && forall j | 0 <= j < |out| :: fresh(out[j])
    {
      var c := new Session(records[i]);
      out := out + [c];
    }
    assert records[..|records|] == records;
  }

  ghost function IdsWhere(all: Store, states: set<State>): set<string> { set id | id in all && all[id].state in states }

  // The records of these ids, each exactly once.
  ghost predicate Listed(all: Store, ids: set<string>, records: seq<Record>) {
    && |records| == |ids|
    && (forall i | 0 <= i < |records| ::
          records[i].id in ids && records[i].id in all && records[i] == all[records[i].id])
    && (forall i, j | 0 <= i < j < |records| :: records[i].id != records[j].id)
    && (forall id | id in ids :: id in all && all[id] in records)
  }

  lemma ListedGrows(all: Store, ids: set<string>, records: seq<Record>, id: string)
    requires Listed(all, ids, records) && id in all && all[id].id == id && id !in ids
    ensures Listed(all, ids + {id}, records + [all[id]])
  {
    var more := records + [all[id]];
    assert more[|records|] == all[id];
    forall x | x in ids + {id} ensures x in all && all[x] in more {
      if x != id { assert all[x] in records; }
    }
  }

  lemma ListedStart(all: Store, ids: set<string>, todo: set<string>)
    requires ids <= todo
    ensures Listed(all, ids - todo, [])
  {
    assert ids - todo == {};
  }

  lemma ListedStep(all: Store, ids: set<string>, todo: set<string>, records: seq<Record>, id: string)
    requires Listed(all, ids - todo, records) && id in todo && id in all && all[id].id == id
    ensures Listed(all, ids - (todo - {id}), if id in ids then records + [all[id]] else records)
  {
    if id in ids {
      assert ids - (todo - {id}) == ids - todo + {id};
      ListedGrows(all, ids - todo, records, id);
    } else {
      assert ids - (todo - {id}) == ids - todo;
    }
  }
}
