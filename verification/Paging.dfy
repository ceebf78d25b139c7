/** Walking a listing page by page: one database read per page, rows moving in between. */
module Paging {
  import opened ClusterTypes
  import opened ProofRows

  const PROOF_REQUEST_PAGE_SIZE: nat := 1000
  const MAX_PAGES: nat := 100

  /** What the i-th page's request returned; each offset is asked for once per walk. */
  type Fetch<T> = nat -> Option<seq<T>>

  predicate FullPage<T>(fetch: Fetch<T>, size: nat, i: nat) {
    fetch(i * size).Some? && |fetch(i * size).value| == size
  }

  function Page<T>(fetch: Fetch<T>, size: nat, i: nat): seq<T> {
    if fetch(i * size).Some? then fetch(i * size).value else []
  }

  function Pages<T>(fetch: Fetch<T>, size: nat, n: nat): seq<T> {
    if n == 0 then [] else Pages(fetch, size, n - 1) + Page(fetch, size, n - 1)
  }

  /** The walk read `n` pages: all but the last full, and it stopped at a short page or the cap. */
  ghost predicate Walked<T>(fetch: Fetch<T>, size: nat, n: nat) {
    && 1 <= n <= MAX_PAGES
    && (forall i :: 0 <= i < n - 1 ==> FullPage(fetch, size, i))
    && fetch((n - 1) * size).Some?
    && (n == MAX_PAGES || !FullPage(fetch, size, n - 1))
  }

  /** The walk broke off at page `n`: it failed after `n` full pages. */
  ghost predicate Broken<T>(fetch: Fetch<T>, size: nat, n: nat) {
    n < MAX_PAGES && fetch(n * size).None? && forall i :: 0 <= i < n ==> FullPage(fetch, size, i)
  }

  method DrainPages<T>(size: nat, fetch: Fetch<T>) returns (all: Option<seq<T>>)
    ensures all.Some? ==> exists n :: Walked(fetch, size, n) && all.value == Pages(fetch, size, n)
    ensures all.None? <==> exists n :: Broken(fetch, size, n)
    ensures all.None? ==> exists n :: 0 <= n < 100 && fetch(n * size).None?
    ensures (forall n: nat :: fetch(n * size).Some?) ==> all.Some?
  {
    var rows: seq<T> := [];
    for i := 0 to MAX_PAGES
      invariant rows == Pages(fetch, size, i)
      invariant forall j :: 0 <= j < i ==> FullPage(fetch, size, j)
    {
      var page := fetch(i * size);
      if page.None? {
        assert Broken(fetch, size, i);
        return None;
      }
      rows := rows + page.value;
      if |page.value| != size {
        assert Walked(fetch, size, i + 1);
        WalkedNotBroken(fetch, size, i + 1);
        return Some(rows);
      }
    }
    assert FullPage(fetch, size, MAX_PAGES - 1);
    assert Walked(fetch, size, MAX_PAGES);
    WalkedNotBroken(fetch, size, MAX_PAGES);
    all := Some(rows);
  }

  lemma WalkedNotBroken<T>(fetch: Fetch<T>, size: nat, n: nat)
    requires Walked(fetch, size, n)
    ensures forall m: nat :: !Broken(fetch, size, m)
  {
    var last: nat := n - 1;
    forall m: nat
      ensures !Broken(fetch, size, m)
    {
      assert m < last ==> FullPage(fetch, size, m);
      assert last < m && Broken(fetch, size, m) ==> FullPage(fetch, size, last);
    }
  }

  /** Keeps the first row of each id. */
  function Firsts(rows: seq<(RowId, Row)>): (r: seq<(RowId, Row)>)
    ensures forall x :: x in r ==> x in rows
  {
    if rows == [] then []
    else
      var kept := Firsts(rows[..|rows| - 1]);
      var last := rows[|rows| - 1];
      if HasId(rows[..|rows| - 1], last.0) then kept else kept + [last]
  }

  predicate HasId(rows: seq<(RowId, Row)>, id: RowId) {
    exists j :: 0 <= j < |rows| && rows[j].0 == id
  }

  method DedupById(rows: seq<(RowId, Row)>) returns (kept: seq<(RowId, Row)>)
    ensures kept == Firsts(rows)
  {
    var seen: set<RowId> := {};
    kept := [];
    for i := 0 to |rows|
      invariant kept == Firsts(rows[..i])
      invariant forall id :: id in seen <==> HasId(rows[..i], id)
    {
      assert rows[..i + 1][..i] == rows[..i];
      HasIdMore(rows, i);
      if rows[i].0 !in seen {
        seen := seen + {rows[i].0};
        kept := kept + [rows[i]];
      }
    }
    assert rows[..|rows|] == rows;
  }

  lemma HasIdMore(rows: seq<(RowId, Row)>, i: nat)
    requires i < |rows|
    ensures forall id :: HasId(rows[..i + 1], id) <==> HasId(rows[..i], id) || id == rows[i].0
  {
    assert rows[..i + 1] == rows[..i] + [rows[i]];
    forall id | HasId(rows[..i], id)
      ensures HasId(rows[..i + 1], id)
    {
      var j :| 0 <= j < i && rows[..i][j].0 == id;
      assert rows[..i + 1][j].0 == id;
    }
    assert rows[..i + 1][i].0 == rows[i].0;
  }

  predicate DistinctIds(rows: seq<(RowId, Row)>) {
    forall i, j :: 0 <= i < j < |rows| ==> rows[i].0 != rows[j].0
  }

  /** The row is read at some place and its id at none before. */
  predicate FirstOfItsId(rows: seq<(RowId, Row)>, x: (RowId, Row)) {
    exists i :: 0 <= i < |rows| && rows[i] == x && !HasId(rows[..i], x.0)
  }

  lemma {:induction false} KeptAreFirst(rows: seq<(RowId, Row)>)
    ensures forall x :: x in Firsts(rows) ==> FirstOfItsId(rows, x)
    decreases |rows|
  {
    if rows != [] {
      var n := |rows| - 1;
      KeptAreFirst(rows[..n]);
      forall x | x in Firsts(rows)
        ensures FirstOfItsId(rows, x)
      {
        if x in Firsts(rows[..n]) {
          var i :| 0 <= i < n && rows[..n][i] == x && !HasId(rows[..n][..i], x.0);
          assert rows[..n][..i] == rows[..i] && rows[i] == x;
        } else {
          assert x == rows[n] && !HasId(rows[..n], x.0);
        }
      }
    }
  }

  /** After the walk no id is listed twice, none that was read is missing, and each kept row is its id's first. */
  lemma {:induction false} FirstsOncePerId(rows: seq<(RowId, Row)>)
    ensures DistinctIds(Firsts(rows))
    ensures forall id :: HasId(Firsts(rows), id) <==> HasId(rows, id)
    ensures forall x :: x in Firsts(rows) ==> FirstOfItsId(rows, x)
    decreases |rows|
  {
    KeptAreFirst(rows);
    if rows != [] {
      var n := |rows| - 1;
      var init, kept := rows[..n], Firsts(rows[..n]);
      FirstsOncePerId(init);
      HasIdMore(rows, n);
      assert rows[..n + 1] == rows;
      if !HasId(init, rows[n].0) {
        var more := kept + [rows[n]];
        assert Firsts(rows) == more && more[..|kept|] == kept && more[..|kept| + 1] == more;
        HasIdMore(more, |kept|);
        forall id
          ensures HasId(more, id) <==> HasId(rows, id)
        {
          assert HasId(more[..|kept| + 1], id) <==> HasId(kept, id) || id == more[|kept|].0;
          assert HasId(rows[..n + 1], id) <==> HasId(init, id) || id == rows[n].0;
        }
        assert forall i :: 0 <= i < |kept| ==> HasId(kept, kept[i].0);
      }
    }
  }

  lemma {:induction false} FirstsOfDistinct(rows: seq<(RowId, Row)>)
    requires DistinctIds(rows)
    ensures Firsts(rows) == rows
    decreases |rows|
  {
    if rows != [] {
      var n := |rows| - 1;
      FirstsOfDistinct(rows[..n]);
      assert rows == rows[..n] + [rows[n]];
      assert !HasId(rows[..n], rows[n].0);
    }
  }

  // ---- an unchanging table -------------------------------------------------------------------

  predicate Before(a: (RowId, Row), b: (RowId, Row)) {
    a.1.createdAt < b.1.createdAt || (a.1.createdAt == b.1.createdAt && a.0 < b.0)
  }

  /** What the claimer lists: Pending rows not handled whose deadline has not passed. */
  predicate Matching(row: Row, now: nat) {
    row.status == RowPending && row.handled == false && row.deadline >= now
  }

  /** The direct read's test agrees with the listing's filter, so a row is never in one and out of the other. */
  lemma FiltersAgree(row: Row, now: nat)
    ensures StillPending(row, now) <==> Matching(row, now)
  {}

  /** The matching rows in listing order: creation time, then id. */
  ghost predicate IsListing(rows: map<RowId, Row>, now: nat, listing: seq<(RowId, Row)>) {
    && (forall i, j :: 0 <= i < j < |listing| ==> Before(listing[i], listing[j]))
    && (forall id :: id in rows && Matching(rows[id], now) ==> (id, rows[id]) in listing)
    && (forall x :: x in listing ==> x.0 in rows && x.1 == rows[x.0] && Matching(x.1, now))
  }

  function Least(a: nat, b: nat): nat {
    if a < b then a else b
  }

  /** `LIMIT` and `OFFSET` on the listing; the server caps the limit at 1000. */
  function ListPage(listing: seq<(RowId, Row)>, limit: nat, offset: nat): seq<(RowId, Row)> {
    var from := Least(offset, |listing|);
    listing[from..Least(from + Least(limit, 1000), |listing|)]
  }

  lemma PageJoin(listing: seq<(RowId, Row)>, k: nat)
    ensures listing[..Least(k, |listing|)] + ListPage(listing, PROOF_REQUEST_PAGE_SIZE, k)
         == listing[..Least(k + PROOF_REQUEST_PAGE_SIZE, |listing|)]
  {}

  lemma {:induction false} PagesOfTable(listing: seq<(RowId, Row)>, fetch: Fetch<(RowId, Row)>, n: nat)
    requires forall offset :: fetch(offset) == Some(ListPage(listing, PROOF_REQUEST_PAGE_SIZE, offset))
    ensures Pages(fetch, PROOF_REQUEST_PAGE_SIZE, n) == listing[..Least(n * PROOF_REQUEST_PAGE_SIZE, |listing|)]
  {
    hide ListPage;
    if n > 0 {
      PagesOfTable(listing, fetch, n - 1);
      assert fetch((n - 1) * PROOF_REQUEST_PAGE_SIZE).Some?;
      PageJoin(listing, (n - 1) * PROOF_REQUEST_PAGE_SIZE);
    }
  }

  /** `get_all_proof_requests`: an error on any page fails the call; otherwise no id comes twice. */
  method GetAllProofRequests(fetch: Fetch<(RowId, Row)>) returns (r: Option<seq<(RowId, Row)>>)
    ensures r.Some? ==> exists n ::
      Walked(fetch, PROOF_REQUEST_PAGE_SIZE, n) && r.value == Firsts(Pages(fetch, PROOF_REQUEST_PAGE_SIZE, n))
    ensures r.None? <==> exists n :: Broken(fetch, PROOF_REQUEST_PAGE_SIZE, n)
  {
    var rows := DrainPages(PROOF_REQUEST_PAGE_SIZE, fetch);
    if rows.None? {
      return None;
    }
    var kept := DedupById(rows.value);
    r := Some(kept);
  }

  /** On an unchanging table the walk is exactly the first 100 pages of the listing, in order, each row once. */
  lemma StillTableWalk(rows: map<RowId, Row>, now: nat, listing: seq<(RowId, Row)>, fetch: Fetch<(RowId, Row)>, n: nat)
    requires IsListing(rows, now, listing)
    requires forall offset :: fetch(offset) == Some(ListPage(listing, PROOF_REQUEST_PAGE_SIZE, offset))
    requires Walked(fetch, PROOF_REQUEST_PAGE_SIZE, n)
    ensures Firsts(Pages(fetch, PROOF_REQUEST_PAGE_SIZE, n)) ==
      listing[..Least(100 * 1000, |listing|)]
  {
    PagesOfTable(listing, fetch, n);
    var walked := Pages(fetch, PROOF_REQUEST_PAGE_SIZE, n);
    if n < MAX_PAGES {
      assert !FullPage(fetch, PROOF_REQUEST_PAGE_SIZE, n - 1);
      assert n * PROOF_REQUEST_PAGE_SIZE >= |listing|;
    }
    forall i, j | 0 <= i < j < |walked|
      ensures walked[i].0 != walked[j].0
    {
      assert Before(listing[i], listing[j]);
      assert listing[i] in listing && listing[j] in listing;
    }
    FirstsOfDistinct(walked);
  }

  /** Every row returned was returned by some page, so it matched the filter when that page was read. */
  lemma {:induction false} WalkedRowsWereRead<T>(fetch: Fetch<T>, size: nat, n: nat, x: T)
    requires x in Pages(fetch, size, n)
    ensures exists i :: 0 <= i < n && x in Page(fetch, size, i)
  {
    if x in Page(fetch, size, n - 1) {
      assert 0 <= n - 1 < n;
    } else {
      WalkedRowsWereRead(fetch, size, n - 1, x);
    }
  }
}
