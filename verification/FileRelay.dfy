/** The file relay: offsets and dirty flags under any interleaving of writers, file
    notifications, registrations and sweeps. Files only grow and stay readable. */
module FileRelay {
  type Bytes = seq<nat>

  datatype Option<+T> = None | Some(value: T)

  /** A piece of content taken from a file; it was broadcast unless it could not be encoded. */
  datatype Chunk = Chunk(content: Bytes, sent: bool)

  /** One registration (the source's relayFile). `start` and `log` record its history: where it began, and everything
      taken from it. */
  datatype Entry = Entry(path: string, frame: string, start: nat, offset: nat, dirty: bool, log: seq<Chunk>)

  /** What a sweep has read for an entry and is about to broadcast. */
  datatype Reading = Reading(entry: nat, content: Bytes, newOffset: nat)

  /** `entries` holds every registration ever made, by identity, since a sweep may hold one that has been
      unregistered; `files` are the current ones. `batch` is what the running sweep has still to read. */
  datatype Relay = Relay(
    disk: map<string, Bytes>, entries: map<nat, Entry>, files: map<string, nat>, next: nat,
    watched: set<string>, pending: multiset<string>, batch: seq<nat>, reading: Option<Reading>)

  /** How a broadcast ends: accepted by the event loop, refused because its queue is full, or not encodable. */
  datatype Outcome = Accepted | Refused | Unencodable

  datatype Step =
    | Append(path: string, content: Bytes, merged: bool)
    | Stir(path: string)
    | Notify(path: string)
    | Register(path: string, frame: string)
    | Watch(path: string, ok: bool)
    | Unregister(path: string, dropsEvents: bool)
    | SweepBegin(order: seq<nat>)
    | SweepRead
    | SweepFinish(outcome: Outcome)

  const EMPTY := Relay(map[], map[], map[], 0, {}, multiset{}, [], None)

  function Content(r: Relay, path: string): Bytes { if path in r.disk then r.disk[path] else [] }

  predicate Registered(r: Relay, id: nat) {
    id in r.entries && r.entries[id].path in r.files && r.files[r.entries[id].path] == id
  }

  /** Writers append; a watched file raises an event, which the watcher may merge with one already waiting. */
  function AppendTo(r: Relay, path: string, content: Bytes, merged: bool): Relay {
    var grown := r.(disk := r.disk[path := Content(r, path) + content]);
    if path !in r.watched || (merged && path in r.pending) then grown
    else grown.(pending := r.pending + multiset{path})
  }

  /** watchLoop. */
  function MarkDirty(r: Relay, path: string): Relay {
    if path !in r.pending then r else
    var taken := r.(pending := r.pending - multiset{path});
    if path in r.files && r.files[path] in r.entries then
      taken.(entries := r.entries[r.files[path] := r.entries[r.files[path]].(dirty := true)])
    else taken
  }

  /** add, up to the point where the file is watched. */
  function AddEntry(r: Relay, path: string, frame: string): Relay {
    if path == "" || path in r.files then r else
    var size := |Content(r, path)|;
    r.(disk := r.disk[path := Content(r, path)],
       entries := r.entries[r.next := Entry(path, frame, size, size, false, [])],
       files := r.files[path := r.next], next := r.next + 1)
  }

  function DropEntry(r: Relay, path: string, dropsEvents: bool): Relay {
    if path !in r.files then r else
    r.(files := r.files - {path}, watched := r.watched - {path},
       pending := if dropsEvents then r.pending[path := 0] else r.pending)
  }

  /** The registered entries that are dirty. */
  function DirtySet(r: Relay): set<nat> {
    set id | id in r.entries && Registered(r, id) && r.entries[id].dirty
  }

  predicate Distinct(ids: seq<nat>) { forall i, j | 0 <= i < j < |ids| :: ids[i] != ids[j] }

  function Elements(ids: seq<nat>): set<nat> { set i | 0 <= i < |ids| :: ids[i] }

  function Clean(entries: map<nat, Entry>, ids: set<nat>): map<nat, Entry> {
    map id | id in entries :: if id in ids then entries[id].(dirty := false) else entries[id]
  }

  /** The locked part of sweep: take the dirty entries, in any order, and clear their flags. */
  function BeginSweep(r: Relay, order: seq<nat>): Relay {
    if r.batch != [] || r.reading.Some? || !Distinct(order) || Elements(order) != DirtySet(r) then r
    else r.(batch := order, entries := Clean(r.entries, DirtySet(r)))
  }

  /** readFrom on a file that only grows. */
  function ReadFrom(content: Bytes, offset: nat): (Bytes, nat) {
    if |content| <= offset then ([], offset) else (content[offset..], |content|)
  }

  function ReadNext(r: Relay): Relay {
    if r.batch == [] || r.reading.Some? then r else
    var id := r.batch[0];
    var rest := r.(batch := r.batch[1..]);
    if id !in r.entries then rest else
    var (content, newOffset) := ReadFrom(Content(r, r.entries[id].path), r.entries[id].offset);
    if content == [] then rest else rest.(reading := Some(Reading(id, content, newOffset)))
  }

  function FinishRead(r: Relay, outcome: Outcome): Relay {
    if r.reading.None? || r.reading.value.entry !in r.entries then r else
    var Reading(id, content, newOffset) := r.reading.value;
    var e := r.entries[id];
    var e' := if outcome == Refused then e.(dirty := true)
              else e.(offset := newOffset, log := e.log + [Chunk(content, outcome == Accepted)]);
    r.(reading := None, entries := r.entries[id := e'])
  }

  function Apply(r: Relay, step: Step): Relay {
    match step
    case Append(path, content, merged) => AppendTo(r, path, content, merged)
    case Stir(path) => r.(pending := r.pending + multiset{path})
    case Notify(path) => MarkDirty(r, path)
    case Register(path, frame) => AddEntry(r, path, frame)
    case Watch(path, ok) => if ok && path in r.files then r.(watched := r.watched + {path}) else r
    case Unregister(path, drops) => DropEntry(r, path, drops)
    case SweepBegin(order) => BeginSweep(r, order)
    case SweepRead => ReadNext(r)
    case SweepFinish(outcome) => FinishRead(r, outcome)
  }

  function Run(r: Relay, steps: seq<Step>): Relay {
    if steps == [] then r else Apply(Run(r, steps[..|steps| - 1]), steps[|steps| - 1])
  }

  // ---- what every step keeps ------------------------------------------------

  function Taken(log: seq<Chunk>): Bytes {
    if log == [] then [] else Taken(log[..|log| - 1]) + log[|log| - 1].content
  }

  function Sent(log: seq<Chunk>): Bytes {
    if log == [] then [] else Sent(log[..|log| - 1]) + if log[|log| - 1].sent then log[|log| - 1].content else []
  }

  predicate AllSent(log: seq<Chunk>) { forall k | 0 <= k < |log| :: log[k].sent }

  predicate NoneEmpty(log: seq<Chunk>) { forall k | 0 <= k < |log| :: log[k].content != [] }

  /** Everything taken from the file is exactly its bytes from the start to the offset. */
  predicate Exact(e: Entry, content: Bytes) {
    e.start <= e.offset <= |content| && Taken(e.log) == content[e.start..e.offset] && NoneEmpty(e.log)
  }

  /** Something will make the relay look at the entry again. */
  predicate Signalled(r: Relay, id: nat)
    requires id in r.entries
  {
    r.entries[id].dirty || r.entries[id].path in r.pending
  }

  predicate InSweep(r: Relay, id: nat) { id in r.batch || (r.reading.Some? && r.reading.value.entry == id) }

  predicate EntryOk(r: Relay, id: nat)
    requires id in r.entries
  {
    id < r.next && Exact(r.entries[id], Content(r, r.entries[id].path))
  }

  /** The bytes read are those from the offset on. */
  predicate Fresh(e: Entry, content: Bytes, reading: Reading) {
    e.offset < reading.newOffset <= |content| && reading.content == content[e.offset..reading.newOffset]
  }

  /** A read in progress. */
  predicate ReadingOk(r: Relay, reading: Reading) {
    && reading.entry in r.entries
    && Fresh(r.entries[reading.entry], Content(r, r.entries[reading.entry].path), reading)
  }

  predicate FilesOk(r: Relay) {
    && (forall p | p in r.files :: r.files[p] in r.entries && r.entries[r.files[p]].path == p)
    && (forall p | p in r.watched :: p in r.files)
  }

  predicate SweepOk(r: Relay) {
    && (forall k | 0 <= k < |r.batch| :: r.batch[k] in r.entries) && Distinct(r.batch)
    && (r.reading.Some? ==> ReadingOk(r, r.reading.value) && r.reading.value.entry !in r.batch)
  }

  predicate Valid(r: Relay) {
    (forall id | id in r.entries :: EntryOk(r, id)) && FilesOk(r) && SweepOk(r)
  }

  // ---- one step -------------------------------------------------------------

  /** A step that leaves an entry and its file alone. */
  lemma Untouched(r: Relay, r': Relay, id: nat)
    requires id in r.entries && EntryOk(r, id) && id in r'.entries && r'.entries[id] == r.entries[id]
    requires r'.next >= r.next && Content(r', r.entries[id].path) == Content(r, r.entries[id].path)
    ensures EntryOk(r', id)
  {
  }

  lemma ReadingUntouched(r: Relay, r': Relay, reading: Reading)
    requires ReadingOk(r, reading) && reading.entry in r'.entries
    requires r'.entries[reading.entry] == r.entries[reading.entry]
    requires Content(r', r.entries[reading.entry].path) == Content(r, r.entries[reading.entry].path)
    ensures ReadingOk(r', reading)
  {
  }

  lemma ExactGrows(e: Entry, content: Bytes, more: Bytes)
    requires Exact(e, content)
    ensures Exact(e, content + more)
  {
    assert (content + more)[e.start..e.offset] == content[e.start..e.offset];
  }

  lemma AppendOwn(r: Relay, path: string, content: Bytes, merged: bool, id: nat)
    requires id in r.entries && EntryOk(r, id) && FilesOk(r) && r.entries[id].path == path
    ensures id in AppendTo(r, path, content, merged).entries && EntryOk(AppendTo(r, path, content, merged), id)
  {
    ExactGrows(r.entries[id], Content(r, path), content);
  }

  lemma AppendEntry(r: Relay, path: string, content: Bytes, merged: bool, id: nat)
    requires id in r.entries && EntryOk(r, id) && FilesOk(r)
    ensures id in AppendTo(r, path, content, merged).entries && EntryOk(AppendTo(r, path, content, merged), id)
  {
    if r.entries[id].path == path {
      AppendOwn(r, path, content, merged, id);
    } else {
      Untouched(r, AppendTo(r, path, content, merged), id);
    }
  }

  lemma AppendReading(r: Relay, path: string, content: Bytes, merged: bool, reading: Reading)
    requires ReadingOk(r, reading) && FilesOk(r)
    ensures ReadingOk(AppendTo(r, path, content, merged), reading)
  {
    var r' := AppendTo(r, path, content, merged);
    var e := r.entries[reading.entry];
    if e.path == path {
      assert Content(r', path)[e.offset..reading.newOffset] == Content(r, path)[e.offset..reading.newOffset];
    } else {
      ReadingUntouched(r, r', reading);
    }
  }

  lemma AppendFrame(r: Relay, path: string, content: Bytes, merged: bool)
    requires FilesOk(r)
    ensures AppendTo(r, path, content, merged).entries.Keys == r.entries.Keys
    ensures FilesOk(AppendTo(r, path, content, merged))
    ensures AppendTo(r, path, content, merged).batch == r.batch
    ensures AppendTo(r, path, content, merged).reading == r.reading
  {
  }

  lemma AppendValid(r: Relay, path: string, content: Bytes, merged: bool)
    requires Valid(r)
    ensures Valid(AppendTo(r, path, content, merged))
  {
    var r' := AppendTo(r, path, content, merged);
    AppendFrame(r, path, content, merged);
    forall id | id in r'.entries ensures EntryOk(r', id) {
      AppendEntry(r, path, content, merged, id);
    }
    if r.reading.Some? {
      AppendReading(r, path, content, merged, r.reading.value);
    }
  }

  lemma StirValid(r: Relay, path: string)
    requires Valid(r)
    ensures Valid(r.(pending := r.pending + multiset{path}))
  {
    var r' := r.(pending := r.pending + multiset{path});
    forall id | id in r.entries ensures EntryOk(r', id) {
      Untouched(r, r', id);
    }
    if r.reading.Some? {
      ReadingUntouched(r, r', r.reading.value);
    }
  }

  lemma NotifyEntry(r: Relay, path: string, id: nat)
    requires id in r.entries && EntryOk(r, id) && FilesOk(r)
    ensures id in MarkDirty(r, path).entries && EntryOk(MarkDirty(r, path), id)
  {
    var r' := MarkDirty(r, path);
    if r.entries[id].path != path {
      Untouched(r, r', id);
    }
  }

  lemma NotifyReading(r: Relay, path: string, reading: Reading)
    requires ReadingOk(r, reading) && FilesOk(r)
    ensures ReadingOk(MarkDirty(r, path), reading)
  {
    var r' := MarkDirty(r, path);
    if r.entries[reading.entry].path != path {
      ReadingUntouched(r, r', reading);
    }
  }

  lemma NotifyFrame(r: Relay, path: string)
    requires FilesOk(r)
    ensures MarkDirty(r, path).entries.Keys == r.entries.Keys && FilesOk(MarkDirty(r, path))
    ensures MarkDirty(r, path).batch == r.batch && MarkDirty(r, path).reading == r.reading
  {
  }

  lemma NotifyValid(r: Relay, path: string)
    requires Valid(r)
    ensures Valid(MarkDirty(r, path))
  {
    var r' := MarkDirty(r, path);
    NotifyFrame(r, path);
    forall id | id in r'.entries ensures EntryOk(r', id) {
      NotifyEntry(r, path, id);
    }
    if r.reading.Some? {
      NotifyReading(r, path, r.reading.value);
    }
  }

  lemma NextUnused(r: Relay)
    requires forall id | id in r.entries :: EntryOk(r, id)
    ensures r.next !in r.entries
  {
  }

  lemma RegisterEntry(r: Relay, path: string, frame: string, id: nat)
    requires r.next !in r.entries && id in AddEntry(r, path, frame).entries && (id in r.entries ==> EntryOk(r, id))
    ensures EntryOk(AddEntry(r, path, frame), id)
  {
    if id in r.entries {
      Untouched(r, AddEntry(r, path, frame), id);
    }
  }

  lemma RegisterValid(r: Relay, path: string, frame: string)
    requires Valid(r)
    ensures Valid(AddEntry(r, path, frame))
  {
    var r' := AddEntry(r, path, frame);
    NextUnused(r);
    forall id | id in r'.entries ensures EntryOk(r', id) {
      RegisterEntry(r, path, frame, id);
    }
    if r.reading.Some? {
      ReadingUntouched(r, r', r.reading.value);
    }
  }

  lemma UnregisterValid(r: Relay, path: string, drops: bool)
    requires Valid(r)
    ensures Valid(DropEntry(r, path, drops))
  {
    var r' := DropEntry(r, path, drops);
    forall id | id in r.entries ensures EntryOk(r', id) {
      Untouched(r, r', id);
    }
    if r.reading.Some? {
      ReadingUntouched(r, r', r.reading.value);
    }
  }

  lemma WatchValid(r: Relay, path: string)
    requires Valid(r) && path in r.files
    ensures Valid(r.(watched := r.watched + {path}))
  {
    var r' := r.(watched := r.watched + {path});
    forall id | id in r.entries ensures EntryOk(r', id) {
      Untouched(r, r', id);
    }
    if r.reading.Some? {
      ReadingUntouched(r, r', r.reading.value);
    }
  }

  lemma BeginValid(r: Relay, order: seq<nat>)
    requires Valid(r)
    ensures Valid(BeginSweep(r, order))
  {
    var r' := BeginSweep(r, order);
    if r' != r {
      forall id | id in r.entries ensures EntryOk(r', id) {
        assert EntryOk(r, id);
        if id in DirtySet(r) {
          assert id in Elements(order);
        } else {
          Untouched(r, r', id);
        }
      }
      forall k | 0 <= k < |r'.batch| ensures r'.batch[k] in r'.entries {
        assert order[k] in Elements(order);
      }
    }
  }

  lemma BatchTail(batch: seq<nat>)
    requires batch != [] && Distinct(batch)
    ensures Distinct(batch[1..]) && batch[0] !in batch[1..]
    ensures forall id | id in batch :: id == batch[0] || id in batch[1..]
    ensures forall id | id in batch[1..] :: id in batch
  {
    assert batch == [batch[0]] + batch[1..];
  }

  lemma ReadEntry(r: Relay, id: nat)
    requires id in r.entries && EntryOk(r, id) && Distinct(r.batch) && r.batch != [] && r.reading.None?
    ensures EntryOk(ReadNext(r), id)
  {
    BatchTail(r.batch);
    if id != r.batch[0] {
      Untouched(r, ReadNext(r), id);
    }
  }

  lemma ReadSweep(r: Relay)
    requires SweepOk(r) && r.batch != [] && r.reading.None? && EntryOk(r, r.batch[0])
    ensures SweepOk(ReadNext(r))
  {
    BatchTail(r.batch);
  }

  lemma ReadFrame(r: Relay)
    requires FilesOk(r)
    ensures FilesOk(ReadNext(r)) && ReadNext(r).entries == r.entries
  {
  }

  lemma ReadValid(r: Relay)
    requires Valid(r)
    ensures Valid(ReadNext(r))
  {
    if r.batch != [] && r.reading.None? {
      var r' := ReadNext(r);
      ReadFrame(r);
      ReadSweep(r);
      forall id | id in r'.entries ensures EntryOk(r', id) {
        ReadEntry(r, id);
      }
    }
  }

  lemma FinishExact(e: Entry, content: Bytes, newOffset: nat, sent: bool)
    requires Exact(e, content) && e.offset < newOffset <= |content|
    ensures Exact(e.(offset := newOffset, log := e.log + [Chunk(content[e.offset..newOffset], sent)]), content)
  {
    var log' := e.log + [Chunk(content[e.offset..newOffset], sent)];
    assert log'[..|e.log|] == e.log;
    assert content[e.start..e.offset] + content[e.offset..newOffset] == content[e.start..newOffset];
  }

  lemma FinishEntry(r: Relay, outcome: Outcome, id: nat)
    requires Valid(r) && r.reading.Some? && id in r.entries
    ensures id in FinishRead(r, outcome).entries && EntryOk(FinishRead(r, outcome), id)
  {
    var r' := FinishRead(r, outcome);
    var Reading(rid, content, newOffset) := r.reading.value;
    assert EntryOk(r, id);
    if id != rid {
      Untouched(r, r', id);
    } else if outcome != Refused {
      FinishExact(r.entries[id], Content(r, r.entries[id].path), newOffset, outcome == Accepted);
    }
  }

  lemma FinishValid(r: Relay, outcome: Outcome)
    requires Valid(r)
    ensures Valid(FinishRead(r, outcome))
  {
    if r.reading.Some? {
      forall id | id in r.entries ensures EntryOk(FinishRead(r, outcome), id) {
        FinishEntry(r, outcome, id);
      }
    }
  }

  lemma ApplyValid(r: Relay, step: Step)
    requires Valid(r)
    ensures Valid(Apply(r, step))
  {
    match step
    case Append(path, content, merged) => AppendValid(r, path, content, merged);
    case Stir(path) => StirValid(r, path);
    case Notify(path) => NotifyValid(r, path);
    case Register(path, frame) => RegisterValid(r, path, frame);
    case Watch(path, ok) => if ok && path in r.files { WatchValid(r, path); }
    case Unregister(path, drops) => UnregisterValid(r, path, drops);
    case SweepBegin(order) => BeginValid(r, order);
    case SweepRead => ReadValid(r);
    case SweepFinish(outcome) => FinishValid(r, outcome);
  }

  lemma {:induction false} RunValid(r: Relay, steps: seq<Step>)
    requires Valid(r)
    ensures Valid(Run(r, steps))
    decreases |steps|
  {
    if steps != [] {
      RunValid(r, steps[..|steps| - 1]);
      ApplyValid(Run(r, steps[..|steps| - 1]), steps[|steps| - 1]);
    }
  }

  lemma RunOne(r: Relay, steps: seq<Step>, step: Step)
    ensures Run(r, steps + [step]) == Apply(Run(r, steps), step)
  {
    assert (steps + [step])[..|steps|] == steps;
  }

  // ---- delivery over whole runs ---------------------------------------------

  lemma {:induction false} SentExactly(log: seq<Chunk>)
    requires NoneEmpty(log)
    ensures |Sent(log)| <= |Taken(log)|
    ensures Sent(log) == Taken(log) <==> AllSent(log)
    decreases |log|
  {
    if log != [] {
      var front, last := log[..|log| - 1], log[|log| - 1];
      SentExactly(front);
      assert AllSent(log) <==> AllSent(front) && last.sent by {
        assert log == front + [last];
      }
      if last.sent && Sent(log) == Taken(log) {
        assert Sent(front) == Sent(log)[..|Sent(front)|] && |Sent(front)| == |Taken(front)|;
        assert Taken(front) == Taken(log)[..|Taken(front)|];
      }
    }
  }

  /** How far the relay has read the file, counting a read in progress. */
  function Reach(r: Relay, id: nat): nat
    requires id in r.entries
  {
    if r.reading.Some? && r.reading.value.entry == id then r.reading.value.newOffset else r.entries[id].offset
  }

  /** Bytes of a registered file that nothing read and nothing will make the relay look at. */
  predicate Overlooked(r: Relay, id: nat) {
    Registered(r, id) && !Signalled(r, id) && id !in r.batch && Reach(r, id) < |Content(r, r.entries[id].path)|
  }

  /** The file grows while it is registered, not watched, and nothing announces it. */
  predicate LossyAppend(r: Relay, step: Step, id: nat) {
    && step.Append? && step.content != [] && Registered(r, id) && r.entries[id].path == step.path
    && step.path !in r.watched && !Signalled(r, id) && id !in r.batch
  }

  lemma LossyOverlooks(r: Relay, step: Step, id: nat)
    requires Valid(r) && LossyAppend(r, step, id)
    ensures Overlooked(Apply(r, step), id)
  {
    assert EntryOk(r, id);
  }

  lemma AppendAnnounces(r: Relay, path: string, content: Bytes, merged: bool, id: nat)
    requires Overlooked(AppendTo(r, path, content, merged), id)
    ensures Overlooked(r, id) || LossyAppend(r, Append(path, content, merged), id)
  {
  }

  lemma StirAnnounces(r: Relay, path: string, id: nat)
    requires Overlooked(r.(pending := r.pending + multiset{path}), id)
    ensures Overlooked(r, id)
  {
  }

  lemma WatchAnnounces(r: Relay, path: string, id: nat)
    requires Overlooked(r.(watched := r.watched + {path}), id)
    ensures Overlooked(r, id)
  {
  }

  lemma UnregisterAnnounces(r: Relay, path: string, drops: bool, id: nat)
    requires Overlooked(DropEntry(r, path, drops), id)
    ensures Overlooked(r, id)
  {
  }

  lemma NotifyAnnounces(r: Relay, path: string, id: nat)
    requires FilesOk(r) && Overlooked(MarkDirty(r, path), id)
    ensures Overlooked(r, id)
  {
  }

  lemma RegisterAnnounces(r: Relay, path: string, frame: string, id: nat)
    requires Valid(r) && Overlooked(AddEntry(r, path, frame), id)
    ensures Overlooked(r, id)
  {
    NextUnused(r);
  }

  lemma BeginAnnounces(r: Relay, order: seq<nat>, id: nat)
    requires Overlooked(BeginSweep(r, order), id)
    ensures Overlooked(r, id)
  {
    assert forall x | x in Elements(order) :: x in order;
  }

  lemma ReadAnnounces(r: Relay, id: nat)
    requires Valid(r) && Overlooked(ReadNext(r), id)
    ensures Overlooked(r, id)
  {
    if r.batch != [] && r.reading.None? {
      BatchTail(r.batch);
      assert EntryOk(r, id);
    }
  }

  lemma FinishAnnounces(r: Relay, outcome: Outcome, id: nat)
    requires Overlooked(FinishRead(r, outcome), id)
    ensures Overlooked(r, id)
  {
  }

  /** Nothing else than such an append makes bytes overlooked. */
  lemma OnlyLossyAppends(r: Relay, step: Step, id: nat)
    requires Valid(r) && Overlooked(Apply(r, step), id)
    ensures Overlooked(r, id) || LossyAppend(r, step, id)
  {
    match step
    case Append(path, content, merged) => AppendAnnounces(r, path, content, merged, id);
    case Stir(path) => StirAnnounces(r, path, id);
    case Notify(path) => NotifyAnnounces(r, path, id);
    case Register(path, frame) => RegisterAnnounces(r, path, frame, id);
    case Watch(path, ok) => if ok && path in r.files { WatchAnnounces(r, path, id); }
    case Unregister(path, drops) => UnregisterAnnounces(r, path, drops, id);
    case SweepBegin(order) => BeginAnnounces(r, order, id);
    case SweepRead => ReadAnnounces(r, id);
    case SweepFinish(outcome) => FinishAnnounces(r, outcome, id);
  }

  /** No state of the run has overlooked bytes in the entry. */
  predicate NeverOverlooked(steps: seq<Step>, id: nat) {
    forall k | 0 <= k <= |steps| :: !Overlooked(Run(EMPTY, steps[..k]), id)
  }

  /** No append of the run reaches the entry while it is registered, not watched and not announced. */
  predicate NeverLossy(steps: seq<Step>, id: nat) {
    forall k | 0 <= k < |steps| :: !LossyAppend(Run(EMPTY, steps[..k]), steps[k], id)
  }

  lemma NeverSnoc(steps: seq<Step>, id: nat)
    requires steps != []
    ensures var front := steps[..|steps| - 1];
            && (NeverOverlooked(steps, id) <==> NeverOverlooked(front, id) && !Overlooked(Run(EMPTY, steps), id))
            && (NeverLossy(steps, id) <==>
                NeverLossy(front, id) && !LossyAppend(Run(EMPTY, front), steps[|steps| - 1], id))
  {
    var front := steps[..|steps| - 1];
    assert forall k | 0 <= k <= |front| :: steps[..k] == front[..k];
    assert steps[..|steps|] == steps && front[..|front|] == front;
  }

  /** Over every run: unread bytes are always announced or being swept if and only if no append reached the file between
      its registration and its watch, or while the watch failed, with nothing announced. */
  lemma {:induction false} AnnouncedExactly(steps: seq<Step>, id: nat)
    ensures NeverOverlooked(steps, id) <==> NeverLossy(steps, id)
    decreases |steps|
  {
    if steps == [] {
      assert forall k | 0 <= k <= |steps| :: steps[..k] == [];
    } else {
      var front, last := steps[..|steps| - 1], steps[|steps| - 1];
      AnnouncedExactly(front, id);
      NeverSnoc(steps, id);
      RunValid(EMPTY, front);
      if LossyAppend(Run(EMPTY, front), last, id) {
        LossyOverlooks(Run(EMPTY, front), last, id);
      } else if Overlooked(Run(EMPTY, steps), id) {
        OnlyLossyAppends(Run(EMPTY, front), last, id);
        assert front[..|front|] == front;
      }
    }
  }

  /** After any run, what was broadcast for an entry is exactly the file's bytes from where it was registered to its
      offset, without loss or repeat, if and only if every piece could be encoded; and bytes not yet delivered are
      announced or in the current sweep, unless an append reached the file unwatched and unannounced. */
  lemma Delivery(steps: seq<Step>, id: nat)
    requires id in Run(EMPTY, steps).entries
    ensures var r := Run(EMPTY, steps);
            var e := r.entries[id];
            var content := Content(r, e.path);
            && e.start <= e.offset <= |content|
            && (Sent(e.log) == content[e.start..e.offset] <==> AllSent(e.log))
            && (NeverLossy(steps, id) && Registered(r, id) && e.offset < |content| ==>
                Signalled(r, id) || InSweep(r, id))
  {
    RunValid(EMPTY, steps);
    var r := Run(EMPTY, steps);
    assert EntryOk(r, id);
    SentExactly(r.entries[id].log);
    AnnouncedExactly(steps, id);
    assert steps[..|steps|] == steps;
  }

  /** Steps that do not concern a path. */
  predicate Elsewhere(step: Step, path: string) {
    match step
    case Append(p, _, _) => p != path
    case Stir(p) => p != path
    case Unregister(p, _) => p != path
    case _ => true
  }

  /** A registered entry that nothing announces and no sweep holds. */
  predicate Quiet(r: Relay, id: nat) {
    Registered(r, id) && !Signalled(r, id) && !InSweep(r, id)
  }

  predicate SameDelivery(r: Relay, r': Relay, id: nat)
    requires id in r.entries && id in r'.entries
  {
    var e, e' := r.entries[id], r'.entries[id];
    e'.path == e.path && e'.offset == e.offset && e'.log == e.log && Content(r', e.path) == Content(r, e.path)
  }

  lemma QuietSweep(r: Relay, order: seq<nat>, id: nat)
    requires Quiet(r, id)
    ensures Quiet(BeginSweep(r, order), id) && SameDelivery(r, BeginSweep(r, order), id)
  {
    if id in order {
      var k :| 0 <= k < |order| && order[k] == id;
      assert id in Elements(order);
    }
  }

  lemma QuietRegister(r: Relay, path: string, frame: string, id: nat)
    requires Valid(r) && Quiet(r, id)
    ensures Quiet(AddEntry(r, path, frame), id) && SameDelivery(r, AddEntry(r, path, frame), id)
  {
    NextUnused(r);
  }

  lemma QuietAppend(r: Relay, path: string, content: Bytes, merged: bool, id: nat)
    requires FilesOk(r) && Quiet(r, id) && path != r.entries[id].path
    ensures Quiet(AppendTo(r, path, content, merged), id) && SameDelivery(r, AppendTo(r, path, content, merged), id)
  {
  }

  lemma QuietNotify(r: Relay, path: string, id: nat)
    requires FilesOk(r) && Quiet(r, id)
    ensures Quiet(MarkDirty(r, path), id) && SameDelivery(r, MarkDirty(r, path), id)
  {
  }

  lemma QuietRead(r: Relay, id: nat)
    requires SweepOk(r) && Quiet(r, id)
    ensures Quiet(ReadNext(r), id) && SameDelivery(r, ReadNext(r), id)
  {
    if r.batch != [] && r.reading.None? {
      BatchTail(r.batch);
    }
  }

  lemma QuietStep(r: Relay, step: Step, id: nat)
    requires Valid(r) && Quiet(r, id) && Elsewhere(step, r.entries[id].path)
    ensures Quiet(Apply(r, step), id) && SameDelivery(r, Apply(r, step), id)
  {
    match step
    case SweepBegin(order) => QuietSweep(r, order, id);
    case Register(path, frame) => QuietRegister(r, path, frame, id);
    case SweepRead => QuietRead(r, id);
    case Append(path, content, merged) => QuietAppend(r, path, content, merged, id);
    case Notify(path) => QuietNotify(r, path, id);
    case _ =>
  }

  lemma StillQuiet(r: Relay, mid: Relay, step: Step, id: nat)
    requires id in r.entries && Valid(mid) && Quiet(mid, id) && SameDelivery(r, mid, id)
    requires Elsewhere(step, r.entries[id].path)
    ensures Quiet(Apply(mid, step), id) && SameDelivery(r, Apply(mid, step), id)
  {
    QuietStep(mid, step, id);
  }

  /** Bytes written between the size check of a registration and its watch raise no event: until the file grows
      again or is touched, no run delivers them. */
  lemma {:induction false} MissedStaysMissed(r: Relay, steps: seq<Step>, id: nat)
    requires Valid(r) && Quiet(r, id) && forall k | 0 <= k < |steps| :: Elsewhere(steps[k], r.entries[id].path)
    ensures Quiet(Run(r, steps), id) && SameDelivery(r, Run(r, steps), id)
    decreases |steps|
  {
    if steps != [] {
      var n := |steps| - 1;
      MissedStaysMissed(r, steps[..n], id);
      RunValid(r, steps[..n]);
      StillQuiet(r, Run(r, steps[..n]), steps[n], id);
    }
  }

  /** Register, write, then watch. */
  function Window(path: string, content: Bytes): seq<Step> {
    [] + [Register(path, "")] + [Append(path, content, false)] + [Watch(path, true)]
  }

  lemma WindowStates(path: string, content: Bytes)
    requires path != "" && content != []
    ensures var r := Apply(Apply(Apply(EMPTY, Register(path, "")), Append(path, content, false)), Watch(path, true));
            && Quiet(r, 0) && Overlooked(r, 0)
            && r.entries[0].offset == 0 && r.entries[0].path == path && Content(r, path) == content
  {
  }

  /** Such bytes exist, for every path and content. */
  lemma WindowMisses(path: string, content: Bytes)
    requires path != "" && content != []
    ensures var r := Run(EMPTY, Window(path, content));
            && Valid(r) && Quiet(r, 0) && Overlooked(r, 0)
            && r.entries[0].offset == 0 && r.entries[0].path == path && Content(r, path) == content
  {
    RunValid(EMPTY, Window(path, content));
    WindowStates(path, content);
    RunOne(EMPTY, [], Register(path, ""));
    RunOne(EMPTY, [] + [Register(path, "")], Append(path, content, false));
    RunOne(EMPTY, [] + [Register(path, "")] + [Append(path, content, false)], Watch(path, true));
  }

  // ---- a whole sweep --------------------------------------------------------

  /** The rest of a sweep that nothing interrupts and whose events are all taken. */
  function SweepRest(r: Relay): Relay
    decreases |r.batch|
  {
    if r.batch == [] || r.reading.Some? then r else SweepRest(FinishRead(ReadNext(r), Accepted))
  }

  predicate Caught(r: Relay, id: nat) {
    id in r.entries && r.entries[id].offset == |Content(r, r.entries[id].path)|
  }

  lemma OneCatches(r: Relay, id: nat)
    requires r.batch != [] && r.reading.None? && Distinct(r.batch) && r.batch[0] in r.entries && EntryOk(r, r.batch[0])
    requires id in r.entries && (id in r.batch || Caught(r, id))
    ensures var r' := FinishRead(ReadNext(r), Accepted);
            r'.reading.None? && id in r'.entries && (id in r'.batch || Caught(r', id))
  {
    BatchTail(r.batch);
  }

  lemma SweepOneValid(r: Relay)
    requires Valid(r) && r.batch != [] && r.reading.None?
    ensures Valid(FinishRead(ReadNext(r), Accepted)) && |FinishRead(ReadNext(r), Accepted).batch| < |r.batch|
  {
    ReadValid(r);
    FinishValid(ReadNext(r), Accepted);
  }

  lemma SweepOneCatches(r: Relay, id: nat) returns (next: Relay)
    requires Valid(r) && r.batch != [] && r.reading.None? && id in r.entries && (id in r.batch || Caught(r, id))
    ensures SweepRest(r) == SweepRest(next) && |next.batch| < |r.batch|
    ensures Valid(next) && next.reading.None? && id in next.entries && (id in next.batch || Caught(next, id))
  {
    OneCatches(r, id);
    SweepOneValid(r);
    next := FinishRead(ReadNext(r), Accepted);
  }

  lemma {:induction false} SweepRestCatches(r: Relay, id: nat)
    requires Valid(r) && r.reading.None? && id in r.entries && (id in r.batch || Caught(r, id))
    ensures Valid(SweepRest(r)) && SweepRest(r).batch == [] && Caught(SweepRest(r), id)
    decreases |r.batch|
  {
    if r.batch != [] {
      var next := SweepOneCatches(r, id);
      SweepRestCatches(next, id);
    }
  }

  /** A sweep that nothing interrupts and whose events are all taken delivers every dirty file to its end. */
  lemma SweepCatchesUp(r: Relay, order: seq<nat>, id: nat)
    requires Valid(r) && r.batch == [] && r.reading.None? && Distinct(order) && Elements(order) == DirtySet(r)
    requires Registered(r, id) && r.entries[id].dirty
    ensures Caught(SweepRest(BeginSweep(r, order)), id)
  {
    BeginValid(r, order);
    assert id in Elements(order);
    SweepRestCatches(BeginSweep(r, order), id);
  }

  // ---- registrations and notices --------------------------------------------

  /** A registration is made once, for a path with a name, at the end the file has then; it is clean and new, and
      touches nothing else. */
  lemma RegisterLaw(r: Relay, path: string, frame: string)
    ensures var r' := Apply(r, Register(path, frame));
            && Content(r', path) == Content(r, path)
            && if path == "" || path in r.files then r' == r else
               && path in r'.files && r'.files == r.files[path := r'.files[path]] && r'.files[path] in r'.entries
               && r'.entries == r.entries[r'.files[path] := r'.entries[r'.files[path]]]
               && (var e := r'.entries[r'.files[path]];
                   && e.path == path && e.frame == frame && !e.dirty && e.log == []
                   && e.start == e.offset == |Content(r, path)|)
               && r'.watched == r.watched && r'.pending == r.pending
  {
  }

  /** A notice of a write marks the file registered under its path, and only that one. */
  lemma NotifyLaw(r: Relay, path: string, id: nat)
    requires FilesOk(r) && path in r.pending && id in r.entries
    ensures var r' := Apply(r, Notify(path));
            && r'.entries.Keys == r.entries.Keys && r'.pending == r.pending - multiset{path}
            && (var hit := Registered(r, id) && r.entries[id].path == path;
                r'.entries[id] == r.entries[id].(dirty := r.entries[id].dirty || hit))
  {
  }

  /** Forgetting a path ends its registration and its watch, and no other. */
  lemma UnregisterLaw(r: Relay, path: string, drops: bool)
    ensures var r' := Apply(r, Unregister(path, drops));
            && r'.files == r.files - {path} && r'.entries == r.entries
            && (path in r.files ==> r'.watched == r.watched - {path})
            && (forall p | p != path :: r'.pending[p] == r.pending[p])
  {
    if path !in r.files { assert r.files - {path} == r.files; }
  }

  /** Where an entry comes from never changes. */
  predicate SameOrigin(r: Relay, r': Relay, id: nat) {
    && id in r.entries && id in r'.entries && r'.entries[id].start == r.entries[id].start
    && r'.entries[id].path == r.entries[id].path && r'.entries[id].frame == r.entries[id].frame
  }

  lemma SweepOrigin(r: Relay, order: seq<nat>, id: nat)
    requires id in r.entries
    ensures SameOrigin(r, BeginSweep(r, order), id)
  {
  }

  lemma FinishOrigin(r: Relay, outcome: Outcome, id: nat)
    requires id in r.entries
    ensures SameOrigin(r, FinishRead(r, outcome), id)
  {
  }

  lemma AddOrigin(r: Relay, path: string, frame: string, id: nat)
    requires id in r.entries && r.next !in r.entries
    ensures SameOrigin(r, AddEntry(r, path, frame), id)
  {
  }

  lemma MarkOrigin(r: Relay, path: string, id: nat)
    requires id in r.entries
    ensures SameOrigin(r, MarkDirty(r, path), id)
  {
  }

  lemma ApplyOrigin(r: Relay, step: Step, id: nat)
    requires id in r.entries && r.next !in r.entries
    ensures SameOrigin(r, Apply(r, step), id)
  {
    match step
    case Notify(path) => MarkOrigin(r, path, id);
    case Register(path, frame) => AddOrigin(r, path, frame, id);
    case SweepBegin(order) => SweepOrigin(r, order, id);
    case SweepFinish(outcome) => FinishOrigin(r, outcome, id);
    case _ =>
  }

  /** The step that makes an entry, and the entry it makes. */
  predicate Makes(r: Relay, step: Step, r': Relay, id: nat) {
    && id !in r.entries && id in r'.entries
    && var e := r'.entries[id];
       step == Register(e.path, e.frame) && e.path !in r.files && e.start == |Content(r, e.path)|
  }

  lemma OnlyRegisterMakes(r: Relay, step: Step, id: nat)
    requires id !in r.entries && id in Apply(r, step).entries
    ensures Makes(r, step, Apply(r, step), id)
  {
    match step
    case Register(path, frame) =>
    case SweepBegin(order) =>
    case _ =>
  }

  lemma FreshEntry(steps: seq<Step>)
    ensures Run(EMPTY, steps).next !in Run(EMPTY, steps).entries
  {
    RunValid(EMPTY, steps);
  }

  /** Every entry of a run was made by a registration of its path and frame, and starts where the file ended then: what
      was written before it is never broadcast for it. */
  lemma {:induction false} StartsAtEnd(steps: seq<Step>, id: nat) returns (k: nat)
    requires id in Run(EMPTY, steps).entries
    ensures k < |steps| && Makes(Run(EMPTY, steps[..k]), steps[k], Apply(Run(EMPTY, steps[..k]), steps[k]), id)
    ensures SameOrigin(Apply(Run(EMPTY, steps[..k]), steps[k]), Run(EMPTY, steps), id)
    decreases |steps|
  {
    var n := |steps| - 1;
    var r := Run(EMPTY, steps[..n]);
    if id in r.entries {
      k := StartsAtEnd(steps[..n], id);
      assert steps[..n][..k] == steps[..k] && steps[..n][k] == steps[k];
      FreshEntry(steps[..n]);
      ApplyOrigin(r, steps[n], id);
    } else {
      k := n;
      OnlyRegisterMakes(r, steps[n], id);
    }
  }
}
