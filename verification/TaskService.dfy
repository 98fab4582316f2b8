/**
 * The in-memory task store (src/a2a/task_service.rs), as one caller sees it: the methods hold the store's lock.
 * A task's artifacts are a list; it is proved to behave as an ordered map under append and replace.
 */
module TaskService {
  import opened Wrappers
  import opened A2aTypes

  // ---- The artifact list -------------------------------------------------------------------------------

  /** Position of the first artifact with the id, or the length of the list. */
  function Position(artifacts: seq<Artifact>, id: string): (k: nat)
    ensures k <= |artifacts|
    ensures k < |artifacts| ==> artifacts[k].artifactId == id
    ensures forall i | 0 <= i < k :: artifacts[i].artifactId != id
  {
    if artifacts == [] || artifacts[0].artifactId == id then 0 else 1 + Position(artifacts[1..], id)
  }

  predicate Appends(a: Artifact) { a.append == Some(true) }

  /** Append to the artifact with the same id, replace it, or add a new one at the end. */
  function Put(artifacts: seq<Artifact>, a: Artifact): seq<Artifact> {
    var k := Position(artifacts, a.artifactId);
    if k == |artifacts| then artifacts + [a]
    else if Appends(a) then
      var old_ := artifacts[k];
      artifacts[k := old_.(parts := old_.parts + a.parts, lastChunk := Or(a.lastChunk, old_.lastChunk))]
    else artifacts[k := a]
  }

  /** What is left of the caller's chunk after it was stored: its parts were moved if they were appended. */
  function Leftover(artifacts: seq<Artifact>, a: Artifact): Artifact {
    if Appends(a) && Position(artifacts, a.artifactId) < |artifacts| then a.(parts := []) else a
  }

  function PutAll(artifacts: seq<Artifact>, chunks: seq<Artifact>): seq<Artifact> {
    if chunks == [] then artifacts
    else Put(PutAll(artifacts, chunks[..|chunks| - 1]), chunks[|chunks| - 1])
  }

  // ---- The store ---------------------------------------------------------------------------------------

  function TrimHistory(t: Task, historyLength: Option<nat>): Task {
    if historyLength.Some? && |t.history| > historyLength.value
    then t.(history := t.history[|t.history| - historyLength.value..]) else t
  }

  /** The task with the last `n` entries of its history, or all if there are fewer. */
  ghost predicate KeepsLast(t: Task, n: nat, trimmed: Task) {
    && trimmed.(history := t.history) == t
    && |trimmed.history| == (if |t.history| < n then |t.history| else n)
    && forall i | 0 <= i < |trimmed.history| :: trimmed.history[i] == t.history[|t.history| - |trimmed.history| + i]
  }

  class InMemoryTaskService {
    var tasks: map<string, Task>
    /** Every update sent so far on the channel of a task; a task id is a key once its channel exists. */
    var sent: map<string, seq<TaskUpdate>>

    constructor ()
      ensures tasks == map[] && sent == map[]
    {
      tasks, sent := map[], map[];
    }

    /** The updates sent for a task so far. */
    function Sent(id: string): seq<TaskUpdate>
      reads this
    {
      if id in sent then sent[id] else []
    }

    method OpenChannel(id: string)
      modifies this`sent
      ensures sent == old(sent)[id := old(Sent(id))]
    {
      sent := sent[id := if id in sent then sent[id] else []];
    }

    method Broadcast(id: string, update: TaskUpdate)
      modifies this`sent
      ensures sent == old(sent)[id := old(Sent(id)) + [update]]
    {
      OpenChannel(id);
      sent := sent[id := sent[id] + [update]];
    }

    method CreateTask(task: Task) returns (stored: Task)
      modifies this
      ensures stored == task
      ensures tasks == old(tasks)[task.id := task]
      ensures sent == old(sent)[task.id := old(Sent(task.id))]
    {
      tasks := tasks[task.id := task];
      OpenChannel(task.id);
      stored := task;
    }

    method GetTask(id: string, historyLength: Option<nat>) returns (r: Option<Task>)
      ensures r == if id in tasks then Some(TrimHistory(tasks[id], historyLength)) else None
      ensures r.Some? ==>
                if historyLength.Some? then KeepsLast(tasks[id], historyLength.value, r.value) else r.value == tasks[id]
    {
      if id !in tasks {
        return None;
      }
      var task := tasks[id];
      if historyLength.Some? {
        var n := historyLength.value;
        if |task.history| > n {
          var drop := |task.history| - n;
          task := task.(history := task.history[drop..]);
        }
      }
      r := Some(task);
    }

    method UpdateStatus(id: string, status: TaskStatus, isFinal: bool) returns (r: Option<Task>)
      modifies this
      ensures id !in old(tasks) ==> r == None && tasks == old(tasks) && sent == old(sent)
      ensures id in old(tasks) ==>
                && r == Some(old(tasks)[id].(status := status))
                && tasks == old(tasks)[id := old(tasks)[id].(status := status)]
                && sent == old(sent)[id := old(Sent(id)) +
                             [StatusUpdate(old(tasks)[id].id, old(tasks)[id].contextId, status, isFinal)]]
    {
      if id !in tasks {
        return None;
      }
      var updated := tasks[id].(status := status);
      tasks := tasks[id := updated];
      Broadcast(id, StatusUpdate(updated.id, updated.contextId, status, isFinal));
      r := Some(updated);
    }

    method AppendHistory(id: string, message: Message) returns (r: Option<Task>)
      modifies this`tasks
      ensures id !in old(tasks) ==> r == None && tasks == old(tasks)
      ensures id in old(tasks) ==>
                && r == Some(old(tasks)[id].(history := old(tasks)[id].history + [message]))
                && tasks == old(tasks)[id := r.value]
    {
      if id !in tasks {
        return None;
      }
      var task := tasks[id];
      task := task.(history := task.history + [message]);
      tasks := tasks[id := task];
      r := Some(task);
    }

    method AppendArtifact(id: string, artifact: Artifact) returns (r: Option<Task>)
      modifies this
      ensures id !in old(tasks) ==> r == None && tasks == old(tasks) && sent == old(sent)
      ensures id in old(tasks) ==>
                var before := old(tasks)[id];
                && r == Some(before.(artifacts := Put(before.artifacts, artifact)))
                && tasks == old(tasks)[id := r.value]
                && sent == old(sent)[id := old(Sent(id)) +
                             [ArtifactUpdate(before.id, before.contextId, Leftover(before.artifacts, artifact))]]
    {
      if id !in tasks {
        return None;
      }
      var task := tasks[id];
      var chunk := artifact;
      var k := 0;
      while k < |task.artifacts| && task.artifacts[k].artifactId != artifact.artifactId
        invariant 0 <= k <= |task.artifacts|
        invariant forall i | 0 <= i < k :: task.artifacts[i].artifactId != artifact.artifactId
      {
        k := k + 1;
      }
      if artifact.append == Some(true) {
        if k < |task.artifacts| {
          var existing := task.artifacts[k];
          existing := existing.(parts := existing.parts + chunk.parts);
          chunk := chunk.(parts := []);
          existing := existing.(lastChunk := Or(chunk.lastChunk, existing.lastChunk));
          task := task.(artifacts := task.artifacts[k := existing]);
        } else {
          task := task.(artifacts := task.artifacts + [chunk]);
        }
      } else {
        if k < |task.artifacts| {
          task := task.(artifacts := task.artifacts[k := chunk]);
        } else {
          task := task.(artifacts := task.artifacts + [chunk]);
        }
      }
      tasks := tasks[id := task];
      Broadcast(id, ArtifactUpdate(task.id, task.contextId, chunk));
      r := Some(task);
    }

    /**
     * A subscription exists for a known task that is not terminal; what is sent from now on goes to its slots, of which
     * `Subscription` says what reaches the subscriber.
     */
    method Subscribe(id: string) returns (from: Option<nat>)
      modifies this`sent
      ensures from.Some? <==> id in tasks && !IsTerminal(tasks[id].status.state)
      ensures from.Some? ==> from.value == |old(Sent(id))| && sent == old(sent)[id := old(Sent(id))]
      ensures from.None? ==> sent == old(sent)
    {
      if id !in tasks {
        return None;
      }
      if IsTerminal(tasks[id].status.state) {
        return None;
      }
      OpenChannel(id);
      from := Some(|sent[id]|);
    }

    /** Refused for a task that has already ended. */
    method CancelTask(id: string) returns (r: Result<Option<Task>, string>)
      modifies this
      ensures id !in old(tasks) ==> r == Ok(None)
      ensures id in old(tasks) && IsTerminal(old(tasks)[id].status.state) ==> r.Err?
      ensures id in old(tasks) && !IsTerminal(old(tasks)[id].status.state) ==>
                && tasks == old(tasks)[id := old(tasks)[id].(status := TaskStatus(Canceled, None))]
                && r == Ok(Some(tasks[id]))
                && sent == old(sent)[id := old(Sent(id)) + [StatusUpdate(
                     old(tasks)[id].id, old(tasks)[id].contextId, TaskStatus(Canceled, None), true)]]
      ensures !(id in old(tasks) && !IsTerminal(old(tasks)[id].status.state)) ==>
                tasks == old(tasks) && sent == old(sent)
    {
      if id !in tasks {
        return Ok(None);
      }
      if IsTerminal(tasks[id].status.state) {
        return Err("task is already in a terminal state");
      }
      var t := UpdateStatus(id, TaskStatus(Canceled, None), true);
      r := Ok(t);
    }
  }

  // ---- The list is an ordered map ----------------------------------------------------------------------

  ghost predicate UniqueIds(artifacts: seq<Artifact>) {
    forall i, j | 0 <= i < j < |artifacts| :: artifacts[i].artifactId != artifacts[j].artifactId
  }

  /** The ids in the order in which they were first seen, without repetition. */
  function FirstSeen(ids: seq<string>): seq<string> {
    if ids == [] then []
    else
      var before, last := FirstSeen(ids[..|ids| - 1]), ids[|ids| - 1];
      if last in before then before else before + [last]
  }

  function Ids(artifacts: seq<Artifact>): seq<string> {
    seq(|artifacts|, i requires 0 <= i < |artifacts| => artifacts[i].artifactId)
  }

  /** The chunks of one artifact, in order. */
  function ChunksOf(chunks: seq<Artifact>, id: string): seq<Artifact> {
    if chunks == [] then []
    else
      var before, last := ChunksOf(chunks[..|chunks| - 1], id), chunks[|chunks| - 1];
      if last.artifactId == id then before + [last] else before
  }

  /** From the last chunk that is not marked as appended on; everything, if all are. */
  function SinceReplaced(chunks: seq<Artifact>): seq<Artifact> {
    if chunks == [] then []
    else
      var last := chunks[|chunks| - 1];
      if Appends(last) then SinceReplaced(chunks[..|chunks| - 1]) + [last] else [last]
  }

  function PartsOf(chunks: seq<Artifact>): seq<WirePart> {
    if chunks == [] then [] else PartsOf(chunks[..|chunks| - 1]) + chunks[|chunks| - 1].parts
  }

  lemma {:induction false} FirstSeenNoRepeats(ids: seq<string>)
    ensures forall i, j | 0 <= i < j < |FirstSeen(ids)| :: FirstSeen(ids)[i] != FirstSeen(ids)[j]
    ensures forall x :: x in FirstSeen(ids) <==> x in ids
    decreases ids
  {
    if ids != [] {
      var init, last := ids[..|ids| - 1], ids[|ids| - 1];
      FirstSeenNoRepeats(init);
      assert ids == init + [last];
    }
  }

  /** `stored` holds the artifacts that `chunks` make up, one per id, in first-seen order, each with its own parts. */
  ghost predicate Represents(stored: seq<Artifact>, chunks: seq<Artifact>) {
    && Ids(stored) == FirstSeen(Ids(chunks))
    && forall k | 0 <= k < |stored| :: stored[k].parts == PartsOf(SinceReplaced(ChunksOf(chunks, stored[k].artifactId)))
  }

  lemma PutRepresents(stored: seq<Artifact>, chunks: seq<Artifact>, a: Artifact)
    requires Represents(stored, chunks)
    ensures Represents(Put(stored, a), chunks + [a])
  {
    PutIds(stored, chunks, a);
    forall i | 0 <= i < |Put(stored, a)| {
      PutPartsAt(stored, chunks, a, i);
    }
    hide Put, Ids, FirstSeen, PartsOf, SinceReplaced, ChunksOf;
  }

  lemma PutIds(stored: seq<Artifact>, chunks: seq<Artifact>, a: Artifact)
    requires Represents(stored, chunks)
    ensures Ids(Put(stored, a)) == FirstSeen(Ids(chunks + [a]))
  {
    hide Put, PartsOf, SinceReplaced, ChunksOf;
    IdsKept(stored, a);
    IdsAppend(chunks, a);
    hide Ids;
    var ids := Ids(chunks);
    assert (ids + [a.artifactId])[..|ids|] == ids;
  }

  lemma PutPartsAt(stored: seq<Artifact>, chunks: seq<Artifact>, a: Artifact, i: nat)
    requires Represents(stored, chunks) && i < |Put(stored, a)|
    ensures var x := Put(stored, a)[i]; x.parts == PartsOf(SinceReplaced(ChunksOf(chunks + [a], x.artifactId)))
  {
    var k := Position(stored, a.artifactId);
    PutAt(stored, a);
    if i == k {
      LastChunkCounts(stored, chunks, a);
    } else {
      hide Put, PartsOf, SinceReplaced, FirstSeen;
      OtherNamed(stored, chunks, a, i);
      assert (chunks + [a])[..|chunks|] == chunks;
    }
  }

  /** The other artifacts have other ids. */
  lemma OtherNamed(stored: seq<Artifact>, chunks: seq<Artifact>, a: Artifact, i: nat)
    requires Represents(stored, chunks) && i < |stored| && i != Position(stored, a.artifactId)
    ensures stored[i].artifactId != a.artifactId
  {
    FirstSeenNoRepeats(Ids(chunks));
    hide FirstSeen, PartsOf, SinceReplaced, ChunksOf;
    var k := Position(stored, a.artifactId);
    assert Ids(stored)[i] == stored[i].artifactId;
    assert k < |stored| ==> Ids(stored)[k] == a.artifactId;
  }

  lemma PutAt(stored: seq<Artifact>, a: Artifact)
    ensures var k, after := Position(stored, a.artifactId), Put(stored, a);
            if k == |stored| then after == stored + [a]
            else |after| == |stored| && after[k].artifactId == a.artifactId
                 && forall i | 0 <= i < |stored| && i != k :: after[i] == stored[i]
  {
  }

  lemma PositionInIds(stored: seq<Artifact>, id: string)
    ensures id in Ids(stored) <==> Position(stored, id) < |stored|
  {
    var k := Position(stored, id);
    if k < |stored| {
      assert Ids(stored)[k] == id;
    } else {
      assert forall i | 0 <= i < |stored| :: Ids(stored)[i] == stored[i].artifactId != id;
    }
  }

  lemma IdsKept(stored: seq<Artifact>, a: Artifact)
    ensures var k := Position(stored, a.artifactId);
            && Ids(Put(stored, a)) == (if k == |stored| then Ids(stored) + [a.artifactId] else Ids(stored))
            && (a.artifactId in Ids(stored) <==> k < |stored|)
  {
    hide *;
    PositionInIds(stored, a.artifactId);
    PutAt(stored, a);
    if Position(stored, a.artifactId) < |stored| {
      SameIds(Put(stored, a), stored);
    } else {
      IdsAppend(stored, a);
    }
  }

  lemma IdsAppend(stored: seq<Artifact>, a: Artifact)
    ensures Ids(stored + [a]) == Ids(stored) + [a.artifactId]
  {
  }

  lemma SameIds(xs: seq<Artifact>, ys: seq<Artifact>)
    requires |xs| == |ys| && forall i | 0 <= i < |xs| :: xs[i].artifactId == ys[i].artifactId
    ensures Ids(xs) == Ids(ys)
  {
  }

  /** The artifact that a chunk goes to has, afterwards, the parts the chunk sequence prescribes. */
  lemma LastChunkCounts(stored: seq<Artifact>, chunks: seq<Artifact>, a: Artifact)
    requires Represents(stored, chunks)
    ensures var k := Position(stored, a.artifactId);
            Put(stored, a)[k].parts == PartsOf(SinceReplaced(ChunksOf(chunks + [a], a.artifactId)))
  {
    var id, all := a.artifactId, chunks + [a];
    assert all[..|all| - 1] == chunks;
    var own := ChunksOf(chunks, id);
    assert (own + [a])[..|own|] == own;
    var since := SinceReplaced(own);
    assert (since + [a])[..|since|] == since;
    assert [a][..0] == [];
    assert PartsOf([a]) == [] + a.parts == a.parts;
    IdsKept(stored, a);
    FirstSeenNoRepeats(Ids(chunks));
    if Position(stored, id) == |stored| {
      NoChunksOf(chunks, id);
    }
  }

  lemma {:induction false} NoChunksOf(chunks: seq<Artifact>, id: string)
    requires id !in Ids(chunks)
    ensures ChunksOf(chunks, id) == []
    decreases chunks
  {
    if chunks != [] {
      var init := chunks[..|chunks| - 1];
      assert Ids(chunks)[|chunks| - 1] == chunks[|chunks| - 1].artifactId;
      assert Ids(init) == Ids(chunks)[..|chunks| - 1];
      NoChunksOf(init, id);
    }
  }

  /**
   * Any sequence of `append_artifact` calls on an empty list leaves one artifact per id, in the order in which the
   * ids were first seen, whose parts are those of its chunks since the last one that was not marked as appended.
   */
  lemma {:induction false} StoredRefinesOrderedMap(chunks: seq<Artifact>)
    ensures Represents(PutAll([], chunks), chunks) && UniqueIds(PutAll([], chunks))
    decreases chunks
  {
    if chunks == [] {
      assert Ids([]) == [];
    } else {
      var init, last := chunks[..|chunks| - 1], chunks[|chunks| - 1];
      StoredRefinesOrderedMap(init);
      PutRepresents(PutAll([], init), init, last);
      assert init + [last] == chunks;
    }
    FirstSeenNoRepeats(Ids(chunks));
    UniqueById(PutAll([], chunks));
  }

  lemma UniqueById(stored: seq<Artifact>)
    requires forall i, j | 0 <= i < j < |stored| :: Ids(stored)[i] != Ids(stored)[j]
    ensures UniqueIds(stored)
  {
    forall i, j | 0 <= i < j < |stored| ensures stored[i].artifactId != stored[j].artifactId {
      assert Ids(stored)[i] == stored[i].artifactId && Ids(stored)[j] == stored[j].artifactId;
    }
  }

  /** Artifacts that are there already count as chunks delivered whole. */
  function Whole(initial: seq<Artifact>): seq<Artifact> {
    seq(|initial|, i requires 0 <= i < |initial| => initial[i].(append := None))
  }

  /** The same from any list with unique ids. */
  lemma {:induction false} StoredRefinesFrom(initial: seq<Artifact>, chunks: seq<Artifact>)
    requires UniqueIds(initial)
    ensures Represents(PutAll(initial, chunks), Whole(initial) + chunks) && UniqueIds(PutAll(initial, chunks))
    decreases chunks
  {
    if chunks == [] {
      SameIds(Whole(initial), initial);
      UniqueIsItself(Whole(initial));
      StoredRefinesOrderedMap(Whole(initial));
      assert Whole(initial) + chunks == Whole(initial);
    } else {
      var init, last := chunks[..|chunks| - 1], chunks[|chunks| - 1];
      StoredRefinesFrom(initial, init);
      PutRepresents(PutAll(initial, init), Whole(initial) + init, last);
      assert Whole(initial) + init + [last] == Whole(initial) + chunks;
    }
    FirstSeenNoRepeats(Ids(Whole(initial) + chunks));
    UniqueById(PutAll(initial, chunks));
  }

  lemma {:induction false} UniqueIsItself(initial: seq<Artifact>)
    requires UniqueIds(initial)
    ensures PutAll([], initial) == initial
    decreases initial
  {
    if initial != [] {
      var init, last := initial[..|initial| - 1], initial[|initial| - 1];
      UniqueIsItself(init);
      assert init + [last] == initial;
    }
  }

  /**
   * A chunk that appends leaves the artifact as it is but for its parts, which go after those that are there, and its
   * last-chunk mark, if the chunk has one; any other chunk takes the artifact's place, or a new one, as it is.
   */
  lemma ChunkGoesTo(artifacts: seq<Artifact>, a: Artifact)
    ensures var k, after := Position(artifacts, a.artifactId), Put(artifacts, a);
            && k < |after|
            && (if a.append == Some(true) && k < |artifacts|
                then && after[k].(parts := artifacts[k].parts, lastChunk := artifacts[k].lastChunk) == artifacts[k]
                     && after[k].parts == artifacts[k].parts + a.parts
                     && after[k].lastChunk == (if a.lastChunk.Some? then a.lastChunk else artifacts[k].lastChunk)
                else after[k] == a)
            && after[..k] == artifacts[..k]
            && (if k < |artifacts| then after[k + 1..] == artifacts[k + 1..] else |after| == k + 1)
  {
  }

  // ---- What subscribers are told -----------------------------------------------------------------------

  /**
   * The update that is broadcast carries the chunk exactly if the chunk was not appended to an artifact that was
   * already there (or had no parts): on append the parts are moved into the store before the update is built.
   */
  lemma BroadcastCarriesChunk(artifacts: seq<Artifact>, a: Artifact)
    ensures Leftover(artifacts, a) == a <==>
            !(Appends(a) && a.artifactId in Ids(artifacts)) || a.parts == []
    ensures Leftover(artifacts, a) != a ==> Leftover(artifacts, a).parts == []
  {
    IdsKept(artifacts, a);
  }

  /** The smallest instance: of two text chunks of one artifact the second is broadcast empty. */
  lemma SecondChunkBroadcastEmpty()
    ensures var first := Artifact("r", None, None, [TextPart("he", None)], None, Some(false), Some(false), None);
            var second := first.(parts := [TextPart("llo", None)], append := Some(true));
            && Put(Put([], first), second)[0].parts == [TextPart("he", None), TextPart("llo", None)]
            && Leftover(Put([], first), second).parts == []
  {
    var first := Artifact("r", None, None, [TextPart("he", None)], None, Some(false), Some(false), None);
    assert Put([], first) == [first];
  }
}
