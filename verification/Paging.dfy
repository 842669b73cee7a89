/** Listing a character's items or skills page by page, with the last identifier as cursor. */
module Paging {
  import opened Outcomes
  import opened Ordering

  const TOOL_PAGE_DEFAULT: nat := 32
  const TOOL_PAGE_MAXIMUM: nat := 64

  /** An item or a skill grant; items may be unowned. */
  datatype Entry = Entry(id: nat, owner: Option<nat>, detail: nat)

  datatype Page = Page(entries: seq<Entry>, nextAfter: Option<nat>)

  datatype View = View(revision: nat, characters: set<nat>, records: seq<Entry>)

  datatype PageError = InvalidInput | RevisionMoved | Unavailable

  /** `parse_page_arguments`: the limit asked for, or the default. */
  function PageLimit(limit: Option<nat>): (r: Result<nat, PageError>)
    ensures r.Ok? ==> 1 <= r.value <= TOOL_PAGE_MAXIMUM
    ensures r.Err? <==> limit.Some? && !(1 <= limit.value <= 64)
    ensures limit.Some? && r.Ok? ==> r.value == limit.value
    ensures limit.None? ==> r == Ok(32)
  {
    var asked := if limit.Some? then limit.value else TOOL_PAGE_DEFAULT;
    if 1 <= asked <= TOOL_PAGE_MAXIMUM then Ok(asked) else Err(InvalidInput)
  }

  function IdRank(e: Entry): Rank { (e.id, 0) }

  predicate Listed(e: Entry, owner: nat, after: Option<nat>) {
    e.owner == Some(owner) && (after.None? || e.id > after.value)
  }

  function Owned(records: seq<Entry>, owner: nat, after: Option<nat>): seq<Entry>
    decreases |records|
  {
    if records == [] then []
    else
      var before, last := Owned(records[..|records| - 1], owner, after), records[|records| - 1];
      if Listed(last, owner, after) then before + [last] else before
  }

  /** All entries after a cursor, in ascending identifier order. */
  function Remaining(records: seq<Entry>, owner: nat, after: Option<nat>): seq<Entry> {
    Sort(Owned(records, owner, after), IdRank)
  }

  /** One page: sort, truncate, and give the last identifier when more remain. */
  function PageAfter(records: seq<Entry>, owner: nat, after: Option<nat>, limit: nat): Page
    requires limit >= 1
  {
    var items := Remaining(records, owner, after);
    if |items| > limit then Page(items[..limit], Some(items[limit - 1].id)) else Page(items, None)
  }

  /** The first remaining entries up to the limit, with the last of them as cursor if there are more. */
  predicate PageOf(records: seq<Entry>, owner: nat, after: Option<nat>, limit: nat, page: Page) {
    var left, n := Remaining(records, owner, after), |page.entries|;
    && n <= |left| && n <= limit && page.entries == left[..n]
    && (n < |left| ==> n == limit)
    && (page.nextAfter.Some? <==> n < |left|)
    && (page.nextAfter.Some? ==> n > 0 && page.nextAfter.value == left[n - 1].id)
  }

  /** `list_inventory` and `list_available_skills`. */
  function ListPage(
    view: View, revision: nat, actor: nat, after: Option<nat>, limit: Option<nat>): (r: Result<Page, PageError>)
    ensures r.Ok? <==> PageLimit(limit).Ok? && revision == view.revision && actor in view.characters
    ensures r.Ok? ==> PageOf(view.records, actor, after, PageLimit(limit).value, r.value)
    ensures r.Err? ==>
      r.error == (if PageLimit(limit).Err? then InvalidInput else if revision != view.revision then RevisionMoved
        else Unavailable)
  {
    if PageLimit(limit).Err? then Err(InvalidInput)
    else if revision != view.revision then Err(RevisionMoved)
    else if actor !in view.characters then Err(Unavailable)
    else
      SortMembers(Owned(view.records, actor, after), IdRank);
      Ok(PageAfter(view.records, actor, after, PageLimit(limit).value))
  }

  // ------------------------------------------------------------ exactly once

  ghost predicate DistinctIds(records: seq<Entry>) {
    forall i, j :: 0 <= i < j < |records| ==> records[i].id != records[j].id
  }

  lemma {:induction false} OwnedMembers(records: seq<Entry>, owner: nat, after: Option<nat>)
    ensures forall e :: e in Owned(records, owner, after) <==> e in records && Listed(e, owner, after)
    decreases |records|
  {
    if records != [] {
      var rest := records[..|records| - 1];
      OwnedMembers(rest, owner, after);
      assert records == rest + [records[|records| - 1]];
    }
  }

  lemma {:induction false} OwnedDistinct(records: seq<Entry>, owner: nat, after: Option<nat>)
    requires DistinctIds(records)
    ensures DistinctIds(Owned(records, owner, after))
    decreases |records|
  {
    if records != [] {
      var rest, last := records[..|records| - 1], records[|records| - 1];
      OwnedDistinct(rest, owner, after);
      OwnedMembers(rest, owner, after);
      var owned := Owned(rest, owner, after);
      forall i | 0 <= i < |owned|
        ensures owned[i].id != last.id
      {
        assert owned[i] in owned;
        var k :| 0 <= k < |rest| && rest[k] == owned[i];
        assert records[k].id != records[|records| - 1].id;
      }
    }
  }

  lemma RemainingFacts(records: seq<Entry>, owner: nat, after: Option<nat>)
    requires DistinctIds(records)
    ensures StrictlySortedBy(Remaining(records, owner, after), IdRank)
    ensures forall e :: e in Remaining(records, owner, after) <==> e in records && Listed(e, owner, after)
  {
    OwnedMembers(records, owner, after);
    OwnedDistinct(records, owner, after);
    SortStrict(Owned(records, owner, after), IdRank);
    SortMembers(Owned(records, owner, after), IdRank);
  }

  /** What follows a full page is what remained, without that page. */
  lemma RestAfterPage(records: seq<Entry>, owner: nat, after: Option<nat>, limit: nat)
    requires DistinctIds(records) && limit >= 1 && |Remaining(records, owner, after)| > limit
    ensures Remaining(records, owner, Some(Remaining(records, owner, after)[limit - 1].id)) == Remaining(records,
      owner, after)[limit..]
  {
    hide Remaining;
    var all := Remaining(records, owner, after);
    var cursor := all[limit - 1];
    RemainingFacts(records, owner, after);
    RemainingFacts(records, owner, Some(cursor.id));
    var rest := all[limit..];
    assert cursor in all;
    forall j | 0 <= j < limit
      ensures all[j].id <= cursor.id
    {
      assert j < limit - 1 ==> Before(IdRank(all[j]), IdRank(all[limit - 1]));
    }
    forall e
      ensures e in rest <==> e in records && Listed(e, owner, Some(cursor.id))
    {
      if e in rest {
        var i :| 0 <= i < |rest| && rest[i] == e;
        assert Before(IdRank(all[limit - 1]), IdRank(all[limit + i]));
        assert e in all;
      }
      if e in records && Listed(e, owner, Some(cursor.id)) {
        assert Listed(e, owner, after);
        var i :| 0 <= i < |all| && all[i] == e;
        assert i >= limit;
        assert rest[i - limit] == e;
      }
    }
    StrictUnique(rest, Remaining(records, owner, Some(cursor.id)), IdRank);
  }

  /** A page with a cursor is full and ends at the cursor; one without holds all that remained. */
  lemma PageTakes(records: seq<Entry>, owner: nat, after: Option<nat>, limit: nat)
    requires limit >= 1
    ensures var page, left := PageAfter(records, owner, after, limit), Remaining(records, owner, after);
      if page.nextAfter.Some? then
        |left| > limit && page.entries == left[..limit] && page.nextAfter.value == left[limit - 1].id
      else
        page.entries == left
  {
    hide Remaining;
  }

  /** A call at the current revision by an existing character is answered by the page. */
  lemma PageGiven(view: View, actor: nat, after: Option<nat>, limit: Option<nat>)
    requires actor in view.characters && PageLimit(limit).Ok?
    ensures ListPage(view, view.revision, actor, after,
      limit) == Ok(PageAfter(view.records, actor, after, PageLimit(limit).value))
  {}

  /** Follow the cursor to the end at one revision, passing `limits(k)` to the k-th call. */
  method FollowPages(view: View, actor: nat, limits: nat -> Option<nat>) returns (pages: seq<Page>, entries: seq<Entry>)
    requires DistinctIds(view.records) && actor in view.characters && forall k :: PageLimit(limits(k)).Ok?
    ensures entries == Remaining(view.records, actor, None)
    ensures pages != [] && forall k :: 0 <= k < |pages| ==> (pages[k].nextAfter.None? <==> k == |pages| - 1)
    ensures forall k :: 0 <= k < |pages| - 1 ==> |pages[k].entries| == PageLimit(limits(k)).value
    ensures entries == Concatenated(pages)
  {
    hide Remaining, PageAfter, ListPage;
    pages, entries := [], [];
    var after: Option<nat> := None;
    var k := 0;
    ghost var left := Remaining(view.records, actor, None);
    while true
      invariant |pages| == k && entries == Concatenated(pages)
      invariant left == Remaining(view.records, actor, after) && entries + left == Remaining(view.records, actor, None)
      invariant forall j :: 0 <= j < k ==> pages[j].nextAfter.Some? && |pages[j].entries| == PageLimit(limits(j)).value
      decreases |left|
    {
      ghost var limit := PageLimit(limits(k)).value;
      PageGiven(view, actor, after, limits(k));
      PageTakes(view.records, actor, after, limit);
      var page := ListPage(view, view.revision, actor, after, limits(k)).value;
      assert (pages + [page])[..k] == pages;
      pages := pages + [page];
      entries := entries + page.entries;
      if page.nextAfter.None? {
        return;
      }
      RestAfterPage(view.records, actor, after, limit);
      after := page.nextAfter;
      left := left[limit..];
      k := k + 1;
    }
  }

  function Concatenated(pages: seq<Page>): seq<Entry> {
    if pages == [] then [] else Concatenated(pages[..|pages| - 1]) + pages[|pages| - 1].entries
  }

  /** What remains after a cursor is every owned entry beyond it, once, in ascending order. */
  lemma EnumerationIsExact(records: seq<Entry>, owner: nat, after: Option<nat>)
    requires DistinctIds(records)
    ensures var all := Remaining(records, owner, after);
      && (forall i, j :: 0 <= i < j < |all| ==> all[i].id < all[j].id)
      && (forall e :: e in all <==>
            e in records && e.owner == Some(owner) && (after.Some? ==> after.value < e.id))
  {
    RemainingFacts(records, owner, after);
    hide Remaining;
    var all := Remaining(records, owner, after);
    forall i, j | 0 <= i < j < |all|
      ensures all[i].id < all[j].id
    {
      assert Before(IdRank(all[i]), IdRank(all[j]));
    }
  }
}
