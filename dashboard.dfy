/**
 * GET /dashboard: the number of live properties, the number per status, and
 * the titles of the five most recently created live properties.
 */
module Dashboard {
  import opened Wrappers
  import Seqs
  import Schema
  import opened Tables
  import Listing
  import Mutations

  datatype Metrics = Metrics(
    total_properties: nat, for_sale_properties: nat, for_rent_properties: nat,
    sold_properties: nat, recent_activity: seq<string>)

  /** `WHERE is_deleted = false`, with `AND status = s` when a status is given. */
  function Counted(status: Option<string>): Property -> bool {
    (p: Property) => !p.is_deleted && (status.None? || p.status == status.value)
  }

  /** `SELECT COUNT(*) FROM properties WHERE ...` */
  function CountWhere(rows: seq<Property>, status: Option<string>): nat {
    |Seqs.Filter(rows, Counted(status))|
  }

  /** ORDER BY created_at DESC */
  function NewerFirst(a: Property, b: Property): bool {
    a.created_at >= b.created_at
  }

  lemma NewerFirstTotal()
    ensures Seqs.TotalPreorder(NewerFirst)
  {
  }

  /** `SELECT title FROM properties WHERE is_deleted = false ORDER BY created_at DESC LIMIT 5`, as rows. */
  function RecentRows(rows: seq<Property>): (r: seq<Property>)
    ensures |r| <= 5
  {
    Seqs.Take(Seqs.SortBy(Seqs.Filter(rows, Counted(None)), NewerFirst), 5)
  }

  function Titles(rows: seq<Property>): (r: seq<string>)
    ensures |r| == |rows| && forall i :: 0 <= i < |rows| ==> r[i] == rows[i].title
  {
    if |rows| == 0 then [] else [rows[0].title] + Titles(rows[1..])
  }

  function DashboardOf(db: Db): (m: Metrics)
    ensures |m.recent_activity| == Seqs.Min(5, m.total_properties)
  {
    Metrics(
      CountWhere(db.properties, None),
      CountWhere(db.properties, Some("for_sale")),
      CountWhere(db.properties, Some("for_rent")),
      CountWhere(db.properties, Some("sold")),
      Titles(RecentRows(db.properties)))
  }

  // ------------------------------------------------------------------ lemmas

  /** Soft-deleted rows take no part in any figure. */
  lemma DashboardIgnoresDeleted(db: Db)
    ensures DashboardOf(Listing.Purged(db)) == DashboardOf(db)
  {
    var live := (p: Property) => !p.is_deleted;
    Seqs.FilterNarrow(db.properties, live, Counted(None));
    Seqs.FilterNarrow(db.properties, live, Counted(Some("for_sale")));
    Seqs.FilterNarrow(db.properties, live, Counted(Some("for_rent")));
    Seqs.FilterNarrow(db.properties, live, Counted(Some("sold")));
  }

  /** When every live row has one of the three statuses, the per-status figures add up to the total. */
  lemma {:induction false} StatusCountsAddUp(rows: seq<Property>)
    requires forall p :: p in rows && !p.is_deleted ==> p.status in Schema.Statuses
    ensures CountWhere(rows, Some("for_sale")) + CountWhere(rows, Some("for_rent")) + CountWhere(rows, Some("sold"))
         == CountWhere(rows, None)
  {
    if |rows| > 0 {
      assert forall p :: p in rows[1..] ==> p in rows;
      StatusCountsAddUp(rows[1..]);
    }
  }

  /** The recent rows are live rows of the table. */
  lemma RecentAreLive(rows: seq<Property>)
    ensures forall p :: p in RecentRows(rows) ==> p in rows && !p.is_deleted
  {
    var live := Seqs.Filter(rows, Counted(None));
    var sorted := Seqs.SortBy(live, NewerFirst);
    var recent := RecentRows(rows);
    Seqs.FilterMembers(rows, Counted(None));
    forall p | p in recent ensures p in live {
      var i :| 0 <= i < |recent| && recent[i] == p;
      assert p == sorted[i];
      assert p in multiset(sorted);
    }
  }

  /** The recent rows come newest first. */
  lemma RecentSorted(rows: seq<Property>)
    ensures Seqs.SortedBy(RecentRows(rows), NewerFirst)
  {
    NewerFirstTotal();
    Seqs.SortBySorted(Seqs.Filter(rows, Counted(None)), NewerFirst);
  }

  /** No live row left out of the recent rows is newer than any of them. */
  lemma RecentAreNewest(rows: seq<Property>, p: Property, q: Property)
    requires p in rows && !p.is_deleted && p !in RecentRows(rows) && q in RecentRows(rows)
    ensures p.created_at <= q.created_at
  {
    var live := Seqs.Filter(rows, Counted(None));
    var sorted := Seqs.SortBy(live, NewerFirst);
    var recent := RecentRows(rows);
    NewerFirstTotal();
    Seqs.SortBySorted(live, NewerFirst);
    Seqs.FilterMembers(rows, Counted(None));
    assert p in multiset(live);
    assert p in multiset(sorted);
    var k :| 0 <= k < |sorted| && sorted[k] == p;
    var i :| 0 <= i < |recent| && recent[i] == q;
    assert NewerFirst(sorted[i], sorted[k]);
  }

  // ---------------------------------------------------- a delete on the board

  function WithId(pid: string, status: Option<string>): Property -> bool {
    (p: Property) => p.id == pid && Counted(status)(p)
  }

  /** A soft delete takes from each count the rows with that id it counted. */
  lemma {:induction false} SoftDeleteCount(rows: seq<Property>, pid: string, now: int, status: Option<string>)
    ensures CountWhere(Mutations.SoftDeleteRows(rows, pid, now), status)
         == CountWhere(rows, status) - |Seqs.Filter(rows, WithId(pid, status))|
  {
    if |rows| > 0 {
      var r := Mutations.SoftDeleteRows(rows, pid, now);
      SoftDeleteCount(rows[1..], pid, now, status);
      assert r[1..] == Mutations.SoftDeleteRows(rows[1..], pid, now);
      assert |Seqs.Filter(rows[1..], WithId(pid, status))| <= |Seqs.Filter(rows[1..], Counted(status))| by {
        Seqs.FilterNarrow(rows[1..], Counted(status), WithId(pid, status));
      }
    }
  }

  /** With unique ids, exactly the one row with a given id can match. */
  lemma {:induction false} OneWithId(rows: seq<Property>, p: Property, status: Option<string>)
    requires Seqs.DistinctBy(rows, PropertyId) && p in rows
    ensures |Seqs.Filter(rows, WithId(p.id, status))| == if Counted(status)(p) then 1 else 0
  {
    if rows[0] == p {
      forall x | x in rows[1..] ensures x.id != p.id {
        var j :| 0 <= j < |rows[1..]| && rows[1..][j] == x;
        assert rows[j + 1] == x;
      }
      Seqs.FilterNone(rows[1..], WithId(p.id, status));
      Seqs.FilterCons(rows[0], rows[1..], WithId(p.id, status));
      assert rows == [rows[0]] + rows[1..];
    } else {
      assert rows[0].id != p.id by {
        var k :| 0 <= k < |rows| && rows[k] == p;
      }
      assert Seqs.DistinctBy(rows[1..], PropertyId);
      OneWithId(rows[1..], p, status);
    }
  }

  /**
   * A successful DELETE lowers the total and the figure for the property's
   * status by one and leaves the other status figures as they were.
   */
  lemma DeleteLowersCounts(db: Db, caller: Mutations.Caller, pid: string, now: int)
    requires Valid(db)
    requires Mutations.DeleteProperty(db, caller, pid, now).1.Ok?
    ensures var p := Mutations.OwnershipGate(db, caller, pid).property;
      var before, after := DashboardOf(db), DashboardOf(Mutations.DeleteProperty(db, caller, pid, now).0);
      && after.total_properties == before.total_properties - 1
      && (after.for_sale_properties == before.for_sale_properties - if p.status == "for_sale" then 1 else 0)
      && (after.for_rent_properties == before.for_rent_properties - if p.status == "for_rent" then 1 else 0)
      && (after.sold_properties == before.sold_properties - if p.status == "sold" then 1 else 0)
  {
    var p := Mutations.OwnershipGate(db, caller, pid).property;
    var rows := db.properties;
    assert p in rows && p.id == pid && !p.is_deleted;
    SoftDeleteCount(rows, pid, now, None);
    OneWithId(rows, p, None);
    SoftDeleteCount(rows, pid, now, Some("for_sale"));
    OneWithId(rows, p, Some("for_sale"));
    SoftDeleteCount(rows, pid, now, Some("for_rent"));
    OneWithId(rows, p, Some("for_rent"));
    SoftDeleteCount(rows, pid, now, Some("sold"));
    OneWithId(rows, p, Some("sold"));
  }
}
