/** The relay object: the watch loop, registration and the sweep as methods that update its fields. */
module FileRelayShell {
  import F = FileRelay

  class Relayer {
    var disk: map<string, F.Bytes>
    var entries: map<nat, F.Entry>
    var files: map<string, nat>
    var next: nat
    var watched: set<string>
    var pending: multiset<string>
    var batch: seq<nat>
    var reading: F.Option<F.Reading>

    function View(): F.Relay
      reads this
    {
      F.Relay(disk, entries, files, next, watched, pending, batch, reading)
    }

    predicate Idle()
      reads this
    {
      batch == [] && reading == F.None
    }

    constructor ()
      ensures View() == F.EMPTY && F.Valid(View())
    {
      disk, entries, files, next := map[], map[], map[], 0;
      watched, pending, batch, reading := {}, multiset{}, [], F.None;
    }

    /** One event of watchLoop. */
    method Notified(path: string)
      requires F.FilesOk(View())
      modifies this`entries, this`pending
      ensures View() == F.MarkDirty(old(View()), path)
    {
      if path in pending {
        pending := pending - multiset{path};
        if path in files {
          entries := entries[files[path] := entries[files[path]].(dirty := true)];
        }
      }
    }

    /** add: register at the present end of the file, then watch it. */
    method Add(path: string, frame: string, watches: bool)
      modifies this
      ensures View() == F.Apply(F.AddEntry(old(View()), path, frame),
                                F.Watch(path, watches && path != "" && path !in old(files)))
    {
      if path == "" || path in files {
        return;
      }
      if path !in disk {
        disk := disk[path := []];
      }
      var offset := |disk[path]|;
      entries := entries[next := F.Entry(path, frame, offset, offset, false, [])];
      files := files[path := next];
      next := next + 1;
      if watches {
        watched := watched + {path};
      }
      assert old(disk)[path := disk[path]] == disk;
    }

    method Unwatch(path: string, dropsEvents: bool)
      modifies this`files, this`watched, this`pending
      ensures View() == F.DropEntry(old(View()), path, dropsEvents)
    {
      if path in files {
        watched := watched - {path};
        files := files - {path};
        if dropsEvents {
          pending := pending[path := 0];
        }
      }
    }

    /** UnwatchFile: every file of a frame goes, and no other; `steps` are the removals made. */
    method UnwatchFrame(frame: string) returns (ghost steps: seq<F.Step>)
      requires F.FilesOk(View())
      modifies this`files, this`watched, this`pending
      ensures View() == F.Run(old(View()), steps)
      ensures forall p | p in old(files) :: p in files <==> entries[old(files)[p]].frame != frame
    {
      steps := [];
      var todo := files.Keys;
      while todo != {}
        invariant View() == F.Run(old(View()), steps) && F.FilesOk(View())
        invariant forall p | p in files :: p in old(files) && files[p] == old(files)[p]
        invariant forall p | p in old(files) :: p in files <==> p in todo || entries[old(files)[p]].frame != frame
        decreases todo
      {
        var p :| p in todo;
        todo := todo - {p};
        if p in files && entries[files[p]].frame == frame {
          F.RunOne(old(View()), steps, F.Unregister(p, false));
          steps := steps + [F.Unregister(p, false)];
          Unwatch(p, false);
        }
      }
    }

    /** The locked part of sweep. */
    method BeginSweep()
      requires F.FilesOk(View()) && Idle()
      modifies this`entries, this`batch
      ensures View() == F.BeginSweep(old(View()), batch) && F.Elements(batch) == F.DirtySet(old(View()))
    {
      var todo := files.Keys;
      ghost var before := View();
      while todo != {}
        invariant todo <= files.Keys && F.Distinct(batch)
        invariant forall id :: id in batch <==> id in F.DirtySet(before) && before.entries[id].path !in todo
        invariant entries == F.Clean(before.entries,
                                     set id | id in F.DirtySet(before) && before.entries[id].path !in todo)
        decreases todo
      {
        var p :| p in todo;
        todo := todo - {p};
        var id := files[p];
        if entries[id].dirty {
          entries := entries[id := entries[id].(dirty := false)];
          batch := batch + [id];
        }
      }
      assert F.Elements(batch) == F.DirtySet(before);
      assert entries == F.Clean(before.entries, F.DirtySet(before));
    }

    /** The first half of an iteration of the sweep: read what is behind the offset. */
    method ReadNext()
      requires batch != [] && reading.None?
      modifies this`batch, this`reading
      ensures View() == F.ReadNext(old(View()))
    {
      var id := batch[0];
      batch := batch[1..];
      if id !in entries {
        return;
      }
      var e := entries[id];
      var size := if e.path in disk then |disk[e.path]| else 0;
      if size > e.offset {
        reading := F.Some(F.Reading(id, disk[e.path][e.offset..], size));
      }
    }

    /** The second half: advance when the event was taken, mark dirty again when it was refused. */
    method Finish(outcome: F.Outcome)
      requires reading.Some? && reading.value.entry in entries
      modifies this`entries, this`reading
      ensures View() == F.FinishRead(old(View()), outcome)
    {
      var rd := reading.value;
      var e := entries[rd.entry];
      if outcome == F.Refused {
        entries := entries[rd.entry := e.(dirty := true)];
      } else {
        entries := entries[rd.entry := e.(offset := rd.newOffset,
                                          log := e.log + [F.Chunk(rd.content, outcome == F.Accepted)])];
      }
      reading := F.None;
    }

    /** sweep, when nothing interrupts it and its events are all taken. */
    method Sweep()
      requires F.FilesOk(View()) && Idle()
      modifies this`entries, this`batch, this`reading
      ensures exists order :: F.Elements(order) == F.DirtySet(old(View()))
                && View() == F.SweepRest(F.BeginSweep(old(View()), order))
    {
      ghost var before := View();
      BeginSweep();
      ghost var order := batch;
      while batch != []
        invariant reading.None?
        invariant F.SweepRest(View()) == F.SweepRest(F.BeginSweep(before, order))
        decreases |batch|
      {
        ReadNext();
        if reading.Some? {
          Finish(F.Accepted);
        }
      }
    }
  }
}
