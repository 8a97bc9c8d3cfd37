/**
 * The enrolment hook as an object: the fields the source keeps in state and refs, and the handlers
 * that update them in place, each proved to make exactly the step of `BulkEnroll` that it stands for.
 */
module EnrollHook {
  import opened WorkerPool
  import B = BulkEnroll

  class BulkPhotoEnroll {
    var items: seq<B.Item>
    var inputsById: map<nat, B.Input>
    var mounted: bool
    var entries: seq<B.Input>
    var pool: Pool
    var paths: map<nat, B.Path>
    var storage: B.Storage

    function State(): B.Hook
      reads this
    {
      B.Hook(items, inputsById, mounted, entries, pool, paths, storage)
    }

    constructor ()
      ensures State() == B.FRESH
    {
      items, inputsById, mounted := [], map[], true;
      entries, pool, paths := [], Start(0, B.CONCURRENCY), map[];
      storage := B.Storage({}, {}, {}, map[]);
    }

    method Unmount()
      modifies this`mounted
      ensures State() == old(State()).(mounted := false)
    {
      mounted := false;
    }

    method Patch(id: nat, st: B.Status)
      modifies this`items
      ensures State() == B.Patch(old(State()), id, st)
    {
      if !mounted {
        return;
      }
      items := B.Patched(items, id, st);
    }

    method RunPool(batch: seq<B.Input>)
      modifies this`entries, this`pool, this`paths
      ensures State() == B.Begin(old(State()), items, batch)
    {
      entries, pool, paths := batch, Start(|batch|, B.CONCURRENCY), map[];
    }

    method Run(batch: seq<B.Input>)
      modifies this
      ensures State() == B.RunBatch(old(State()), batch)
    {
      if |batch| == 0 {
        return;
      }
      for i := 0 to |batch|
        invariant State() == old(State()).(inputs := B.Retained(old(inputsById), batch[..i]))
      {
        assert batch[..i + 1][..i] == batch[..i];
        inputsById := inputsById[batch[i].id := batch[i]];
      }
      assert batch[..|batch|] == batch;
      items := B.QueuedItems(batch);
      RunPool(batch);
    }

    method RetryFailed()
      modifies this
      ensures State() == B.Retry(old(State()))
    {
      var retry: seq<B.Input> := [];
      for k := 0 to |items|
        invariant State() == old(State())
        invariant retry == B.FailedInputs(items[..k], inputsById)
      {
        assert items[..k + 1][..k] == items[..k];
        if !B.HasFailed(items[k].status) {
          continue;
        }
        if items[k].id in inputsById {
          retry := retry + [inputsById[items[k].id]];
        }
      }
      assert items[..|items|] == items;
      if |retry| == 0 || !mounted {
        return;
      }
      items := B.Requeued(items, B.IdsOf(retry));
      RunPool(retry);
    }

    /** Worker w at its loop test: `idx++`, and the first line of `runOne`. */
    method PullNext(w: nat)
      requires B.CanTurn(State(), w, B.Pulls) && B.Indexed(State())
      modifies this
      ensures State() == B.TakeTurn(old(State()), w, B.Pulls)
    {
      if pool.next < pool.size {
        var input := entries[pool.next];
        pool := pool.(next := pool.next + 1, workers := pool.workers[w := Busy(pool.next)]);
        Patch(input.id, B.Uploading);
      } else {
        pool := pool.(workers := pool.workers[w := Exited]);
      }
    }

    method UploadSucceeded(w: nat, objectPath: B.Path)
      requires B.CanTurn(State(), w, B.Uploads(objectPath)) && B.Indexed(State())
      modifies this
      ensures State() == B.TakeTurn(old(State()), w, B.Uploads(objectPath))
    {
      var i := pool.workers[w].item;
      storage := storage.(uploaded := storage.uploaded + {objectPath});
      paths := paths[i := objectPath];
      Patch(entries[i].id, B.Enrolling);
    }

    method UploadThrew(w: nat)
      requires B.CanTurn(State(), w, B.UploadFails) && B.Indexed(State())
      modifies this
      ensures State() == B.TakeTurn(old(State()), w, B.UploadFails)
    {
      var i := pool.workers[w].item;
      Patch(entries[i].id, B.Error);
      pool := Finish(pool, w);
    }

    method AttachAnswered(w: nat, enrolled: bool)
      requires B.CanTurn(State(), w, B.Attaches(enrolled)) && B.Indexed(State())
      modifies this
      ensures State() == B.TakeTurn(old(State()), w, B.Attaches(enrolled))
    {
      var i := pool.workers[w].item;
      storage := storage.(attached := storage.attached + {paths[i]},
                          photos := storage.photos[entries[i].student := paths[i]]);
      paths := paths - {i};
      Patch(entries[i].id, B.Done(enrolled));
      pool := Finish(pool, w);
    }

    method AttachThrew(w: nat)
      requires B.CanTurn(State(), w, B.AttachThrows) && B.Indexed(State())
      modifies this
      ensures State() == B.TakeTurn(old(State()), w, B.AttachThrows)
    {
      var i := pool.workers[w].item;
      storage := storage.(cleaned := storage.cleaned + {paths[i]});
      paths := paths - {i};
      Patch(entries[i].id, B.Error);
      pool := Finish(pool, w);
    }
  }
}
