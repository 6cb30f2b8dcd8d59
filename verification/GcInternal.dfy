/** The collector object on the async task's shelf. */
module GcObject {
  import opened Prelude
  import opened Tables
  import opened Transactions
  import opened KeystoreDb
  import opened GarbageCollection

  class GcInternal {
    var deletedBlobIds: seq<int>
    var supersededBlobs: seq<Entry>
    const db: KeystoreDB

    function Lists(): GcState
      reads this
    {
      GcState(deletedBlobIds, supersededBlobs)
    }

    constructor (db: KeystoreDB)
      ensures Lists() == IDLE && this.db == db
    {
      deletedBlobIds, supersededBlobs := [], [];
      this.db := db;
    }

    /**
      Load the next batch if the last one is used up, take one blob off it, and hand it to the
      invalidation attempt if it names the KeyMint instance it belongs to.
     */
    method ProcessOneKey() returns (invalidate: Option<Entry>, ghost batch: seq<int>)
      modifies this, db
      ensures old(supersededBlobs) == [] ==> ValidBatch(Swept(old(db.Model()), old(deletedBlobIds)), batch)
      ensures db.Model() == ProcessTables(old(db.Model()), old(Lists()), batch)
      ensures Lists() == ProcessLists(old(db.Model()), old(Lists()), batch)
      ensures invalidate == Attempt(old(db.Model()), old(Lists()), batch)
    {
      batch := [];
      if supersededBlobs == [] {
        supersededBlobs := db.HandleNextSupersededBlobs(deletedBlobIds);
        batch := Ids(supersededBlobs);
        deletedBlobIds := [];
        ghost var u := Swept(old(db.Model()), old(deletedBlobIds));
        assert forall i :: 0 <= i < |batch| ==> batch[i] in Elements(batch);
        assert supersededBlobs == Entries(u, batch) by {
          assert forall i :: 0 <= i < |batch| ==> supersededBlobs[i] in supersededBlobs && ReadFrom(u, supersededBlobs[i]);
        }
      }
      invalidate := None;
      if supersededBlobs != [] {
        var last := supersededBlobs[|supersededBlobs| - 1];
        supersededBlobs := supersededBlobs[..|supersededBlobs| - 1];
        deletedBlobIds := deletedBlobIds + [last.id];
        if TAG_KM_UUID in last.meta {
          invalidate := Some(last);
        }
      }
    }
  }
}
