// The action store of one tab, over the storage that all tabs share.

module TroveStore {
  import opened Wrappers
  import opened TroveRecords
  import opened TroveSafety

  // The browser's storage: the guard of the borrower and each report's records.
  // The ghost field holds what wallet and chain have told so far.
  class BrowserStorage {
    var guard: Option<Record>
    var reports: map<int, map<int, Record>>
    ghost var facts: Facts

    constructor ()
      ensures Valid() && Content() == Shared(None, map[]) && facts == Facts(map[], {}, 0)
    {
      guard, reports, facts := None, map[], Facts(map[], {}, 0);
    }

    function Content(): Shared
      reads this
    {
      Shared(guard, reports)
    }

    // Every stored record claims only what wallet and chain have told, and the
    // guard is unresolved.
    ghost predicate Valid()
      reads this
    {
      KnownShared(facts, Content())
    }

    // The wallet gives a hash, or a receipt is seen.
    ghost method Learn(l: Facts)
      requires Valid() && Later(facts, l)
      modifies this`facts
      ensures Valid() && facts == l
    {
      KnownSharedLater(facts, l, Content());
      facts := l;
    }
  }

  class TroveActionStore {
    const storage: BrowserStorage
    const report: int
    var memory: map<int, Record>
    var dirty: set<int>
    var warned: bool

    constructor (storage: BrowserStorage, report: int)
      requires storage.Valid()
      ensures Valid() && this.storage == storage && this.report == report
      ensures Content() == Local(map[], {}) && !warned
    {
      this.storage, this.report := storage, report;
      memory, dirty, warned := map[], {}, false;
    }

    function Content(): Local
      reads this
    {
      Local(memory, dirty)
    }

    ghost predicate Valid()
      reads this, storage
    {
      storage.Valid() && KnownAll(storage.facts, memory)
    }

    // Merges the stored records of the report into memory; when storage cannot
    // be read the memory stays and a warning shows.
    method Records(f: Faults)
      requires Valid()
      modifies this`memory, this`warned
      ensures Valid()
      ensures ReadInto(old(Content()), storage.Content(), report, f, memory) && dirty == old(dirty)
      ensures memory == TroveRecords.Records(old(Content()), storage.Content(), report, f)
      ensures warned == (old(warned) || f.readReport)
    {
      RecordsKnown(storage.facts, Content(), storage.Content(), report, f);
      MergedJoins(Content(), Stored(storage.Content(), report));
      if f.readReport {
        warned := true;
        return;
      }
      memory := Merged(Content(), Stored(storage.Content(), report));
    }

    // Saves a record that claims only known facts, in memory at least; an invalid
    // one is refused. The guard comes up only for the record itself while it is
    // unresolved, and goes down only for its own resolved record.
    method Update(r: Record, f: Faults) returns (record: Option<Record>)
      requires Valid()
      modifies this`memory, this`dirty, this`warned, storage`guard, storage`reports
      ensures record.None? <==> !ValidRecord(r)
      ensures record.None? ==> Content() == old(Content()) && storage.Content() == old(storage.Content())
      ensures record.Some? ==>
                var saved := Updated(old(Content()), old(storage.Content()), report, r, f);
                Content() == saved.local && storage.Content() == saved.shared && record.value == saved.record
      ensures Known(storage.facts, r) ==>
                && Valid() && record.Some? && Known(storage.facts, record.value) && record.value.id == r.id
                && (Unresolved(record.value) ==> Unresolved(r))
                && GuardMove(old(storage.guard), record.value, storage.guard)
                && record.value.id in memory && memory[record.value.id] == record.value
                && UpdateKept(old(Content()), old(storage.Content()), report, r, f,
                              Content(), storage.Content(), record.value)
      ensures record.Some? ==> (warned <==> old(warned) || Fails(f, record.value, old(storage.guard)))
    {
      if !ValidRecord(r) {
        return None;
      }
      ghost var local, shared := Content(), storage.Content();
      var saved := Write(r, f);
      if Known(storage.facts, r) {
        UpdatedKnown(storage.facts, local, shared, report, r, f);
        UpdateKeeps(local, shared, report, r, f);
      }
      return Some(saved);
    }

    // A storage call that an update makes fails.
    predicate Fails(f: Faults, record: Record, guard: Option<Record>) {
      || f.readReport || f.writeReport || (!Settled(record) && f.writeGuard)
      || (Settled(record) && (f.readGuard || (guard.Some? && guard.value.id == record.id && f.removeGuard)))
    }

    // The writes of an update, which the first failing storage call ends.
    method Write(r: Record, f: Faults) returns (record: Record)
      requires Valid()
      modifies this`memory, this`dirty, this`warned, storage`guard, storage`reports
      ensures var saved := Updated(old(Content()), old(storage.Content()), report, r, f);
              Content() == saved.local && storage.Content() == saved.shared && record == saved.record
      ensures warned <==> old(warned) || Fails(f, record, old(storage.guard))
    {
      Records(f);
      record := Advanced(Find(memory, r.id), r);
      memory := memory[record.id := record];
      dirty := dirty + {record.id};
      if Unresolved(record) {
        if f.writeGuard {
          warned := true;
          return;
        }
        storage.guard := Some(record);
      }
      if f.writeReport {
        warned := true;
        return;
      }
      storage.reports := storage.reports[report := memory];
      dirty := {};
      if !Unresolved(record) {
        if f.readGuard {
          warned := true;
          return;
        }
        if storage.guard.Some? && storage.guard.value.id == record.id {
          if f.removeGuard {
            warned := true;
            return;
          }
          storage.guard := None;
        }
      }
    }

    // Stores the intent of a new action, under an identifier not given before,
    // or fails and leaves all as it was. It goes ahead only over no guard.
    method Begin(id: int, f: Faults, later: Faults) returns (record: Option<Record>)
      requires Valid() && storage.facts.next <= id
      modifies this`memory, this`dirty, this`warned, storage
      ensures Valid() && Later(old(storage.facts), storage.facts)
      ensures record.Some? <==> old(storage.guard).None? && !f.readGuard && !f.writeGuard
      ensures record.None? ==> Content() == old(Content()) && storage.Content() == old(storage.Content())
      ensures record.Some? ==>
                && record.value == Record(id, report, None, Awaiting, None, None)
                && storage.guard == record && id < storage.facts.next
                && id in memory && memory[id] == record.value
                && UpdateKept(old(Content()), old(storage.Content()).(guard := record), report, record.value, later,
                              Content(), storage.Content(), record.value)
                && var saved := Begun(old(Content()), old(storage.Content()), report, id, f, later);
                   saved == Some(Saved(Content(), storage.Content(), record.value))
    {
      if UnresolvedIn(Content(), storage.Content(), f) != Ok(None) || f.writeGuard {
        return None;
      }
      ghost var k := storage.facts.(next := id);
      ghost var local, shared := Content(), storage.Content();
      KnownLater(storage.facts, k, memory);
      KnownSharedLater(storage.facts, k, shared);
      BegunKnown(k, k.(next := id + 1), local, shared, report, f, later);
      var r := Record(id, report, None, Awaiting, None, None);
      storage.Learn(k.(next := id + 1));
      KnownLater(k, storage.facts, memory);
      storage.guard := Some(r);
      record := Update(r, later);
    }

    // Drops the guard only of the rejected action itself.
    method CancelRejected(r: Record, f: Faults)
      requires Valid()
      modifies this`memory, this`warned, storage`guard, storage`reports
      ensures Valid()
      ensures CancelKept(old(Content()), old(storage.Content()), report, r, f, Content(), storage.Content())
      ensures (Content(), storage.Content()) == Cancelled(old(Content()), old(storage.Content()), report, r, f)
      ensures storage.guard == if !f.readGuard && !f.removeGuard && old(storage.guard).Some?
                                    && old(storage.guard).value.id == r.id
                               then None else old(storage.guard)
    {
      CancelledKnown(storage.facts, Content(), storage.Content(), report, r, f);
      CancelKeeps(Content(), storage.Content(), report, r, f);
      var guard := UnresolvedIn(Content(), storage.Content(), f);
      if guard.Err? || guard.value.None? || guard.value.value.id != r.id || f.removeGuard {
        return;
      }
      storage.guard := None;
      Records(f);
      memory := memory - {r.id};
      if f.writeReport {
        warned := true;
        return;
      }
      storage.reports := storage.reports[report := memory];
    }

    // What other tabs do to the storage leaves a store valid.
    twostate lemma OthersKeep()
      requires old(Valid()) && Content() == old(Content())
      requires storage.Valid() && Later(old(storage.facts), storage.facts)
      ensures Valid()
    {
      KnownLater(old(storage.facts), storage.facts, memory);
    }
  }
}
