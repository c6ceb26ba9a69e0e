/**
 * The knowledge base behind `/api/knowledge`: the curated entries replies may quote.
 * GET lists active entries by category and search text, newest update first; POST adds an
 * entry, PUT overwrites one, DELETE removes one.
 */
module Knowledge {
  import opened Wrappers
  import opened Text
  import opened Ranking

  datatype Entry = Entry(
    id: nat,
    title: string,
    content: string,
    category: string,
    tags: seq<string>,
    isActive: bool,
    createdAt: int,
    updatedAt: int)

  /** A query parameter counts only when present and non-empty. */
  function Param(p: Option<string>): (r: Option<string>)
    ensures r.Some? <==> p.Some? && p.value != ""
    ensures r.Some? ==> r == p
  {
    if p.Some? && p.value != "" then p else None
  }

  /** The search parameter hits a title or content case-insensitively, or names a tag exactly. */
  predicate SearchHits(search: string, e: Entry)
  {
    Includes(Lower(e.title), Lower(search)) || Includes(Lower(e.content), Lower(search)) || search in e.tags
  }

  /** The `where` built by GET. */
  predicate Matches(category: Option<string>, search: Option<string>, e: Entry)
  {
    && e.isActive
    && (Param(category).Some? ==> e.category == Param(category).value)
    && (Param(search).Some? ==> SearchHits(Param(search).value, e))
  }

  predicate NewerFirst(a: Entry, b: Entry)
  {
    a.updatedAt >= b.updatedAt
  }

  lemma NewerFirstIsTotalPreorder()
    ensures TotalPreorder(NewerFirst)
  {
  }

  /** GET: the matching entries, most recently updated first. */
  function ListKnowledge(rows: seq<Entry>, category: Option<string>, search: Option<string>): (r: seq<Entry>)
    ensures forall e :: e in r <==> e in rows && Matches(category, search, e)
    ensures multiset(r) <= multiset(rows)
  {
    var matching := Filter(rows, (e: Entry) => Matches(category, search, e));
    var r := Sort(matching, NewerFirst);
    forall e ensures e in r <==> e in matching {
      assert e in r <==> e in multiset(r);
      assert e in matching <==> e in multiset(matching);
    }
    r
  }

  /** The list is ordered by `updatedAt`, descending. */
  lemma ListKnowledgeIsNewestFirst(rows: seq<Entry>, category: Option<string>, search: Option<string>)
    ensures SortedDesc(ListKnowledge(rows, category, search), NewerFirst)
  {
    NewerFirstIsTotalPreorder();
    SortSorted(Filter(rows, (e: Entry) => Matches(category, search, e)), NewerFirst);
  }

  datatype GetResult = Listed(entries: seq<Entry>) | ServerError

  /**
   * GET as the route is written. The tags column holds the JSON text of the tag list, so the
   * `has` list filter the search adds is refused by the store, as is `mode: 'insensitive'` on
   * the SQLite data source the application defaults to; the route then answers 500. Without a
   * search term the intended listing is returned.
   */
  function GetKnowledge(rows: seq<Entry>, category: Option<string>, search: Option<string>): (r: GetResult)
    ensures r.ServerError? <==> Param(search).Some?
    ensures r.Listed? ==> r.entries == ListKnowledge(rows, category, search)
  {
    if Param(search).Some? then ServerError else Listed(ListKnowledge(rows, category, search))
  }

  /** An active entry searched for by its own title is what the intended listing returns, yet GET fails. */
  lemma SearchByTitleFails(e: Entry)
    requires e.isActive && e.title != ""
    ensures ListKnowledge([e], None, Some(e.title)) == [e]
    ensures GetKnowledge([e], None, Some(e.title)) == ServerError
  {
    var r := ListKnowledge([e], None, Some(e.title));
    assert Includes(Lower(e.title), Lower(e.title));
    assert e in r;
    assert multiset(r) <= multiset{e};
    assert |r| == |multiset(r)| <= 1;
    assert r[0] == e;
  }

  /** A title match ignores letter case: the search hits whatever the case of either side. */
  lemma SearchIgnoresCaseOnText(search: string, e: Entry)
    ensures Includes(Lower(e.title), Lower(search)) ==> SearchHits(Lower(search), e)
    ensures Includes(Lower(e.title), Lower(search)) ==> SearchHits(search, e)
  {
    LowerIdempotent(search);
  }

  /** An inactive entry is never listed, whatever the filters. */
  lemma InactiveNeverListed(rows: seq<Entry>, category: Option<string>, search: Option<string>, e: Entry)
    requires !e.isActive
    ensures e !in ListKnowledge(rows, category, search)
  {
  }

  /** Position of the entry with the given id. */
  function IndexOfId(rows: seq<Entry>, id: nat): (r: Option<nat>)
    ensures r.None? <==> forall i :: 0 <= i < |rows| ==> rows[i].id != id
    ensures r.Some? ==> r.value < |rows| && rows[r.value].id == id
  {
    LastIndexWhere(rows, (e: Entry) => e.id == id)
  }

  /** The entry after PUT: given fields are written, omitted text fields are kept, omitted tags become `[]`,
      omitted `isActive` becomes true. */
  function Overwritten(e: Entry, title: Option<string>, content: Option<string>, category: Option<string>,
                       tags: Option<seq<string>>, isActive: Option<bool>, now: int): (r: Entry)
    ensures r.id == e.id && r.createdAt == e.createdAt && r.updatedAt == now
    ensures r.title == (if title.Some? then title.value else e.title)
    ensures r.content == (if content.Some? then content.value else e.content)
    ensures r.category == (if category.Some? then category.value else e.category)
    ensures r.tags == (if tags.Some? then tags.value else [])
    ensures r.isActive <==> isActive.None? || isActive.value
  {
    e.(title := title.GetOr(e.title), content := content.GetOr(e.content), category := category.GetOr(e.category),
       tags := tags.GetOr([]), isActive := isActive.GetOr(true), updatedAt := now)
  }

  /** An update that leaves out `isActive` brings a hidden entry back. */
  lemma UpdateWithoutFlagReactivates(e: Entry, title: Option<string>, now: int)
    requires !e.isActive
    ensures Overwritten(e, title, None, None, Some(e.tags), None, now).isActive
  {
  }

  /** With unique ids, cutting out the row holding `id` drops exactly the rows with that id. */
  lemma RemoveAtDropsId(before: seq<Entry>, k: nat, id: nat)
    requires k < |before| && before[k].id == id
    requires forall i, j :: 0 <= i < j < |before| ==> before[i].id != before[j].id
    ensures var rows := before[..k] + before[k + 1..];
            && |rows| == |before| - 1
            && (forall e :: e in rows <==> e in before && e.id != id)
            && (forall i, j :: 0 <= i < j < |rows| ==> rows[i].id != rows[j].id)
            && (forall i :: 0 <= i < |rows| ==> exists j :: 0 <= j < |before| && rows[i] == before[j])
  {
    var rows := before[..k] + before[k + 1..];
    forall i | 0 <= i < |rows| ensures rows[i] == before[if i < k then i else i + 1] {
    }
    forall e ensures e in rows <==> e in before && e.id != id {
      if e in before && e.id != id {
        var j :| 0 <= j < |before| && before[j] == e;
        assert rows[if j < k then j else j - 1] == e;
      }
    }
    forall a, b | 0 <= a < b < |rows| ensures rows[a].id != rows[b].id {
      assert rows[a] == before[if a < k then a else a + 1];
      assert rows[b] == before[if b < k then b else b + 1];
    }
  }

  class KnowledgeTable {
    var rows: seq<Entry>
    var nextId: nat

    /** Ids are unique and below the next one to hand out. */
    ghost predicate Valid()
      reads this
    {
      && (forall i :: 0 <= i < |rows| ==> rows[i].id < nextId)
      && (forall i, j :: 0 <= i < j < |rows| ==> rows[i].id != rows[j].id)
    }

    constructor()
      ensures Valid() && rows == [] && nextId == 0
    {
      rows := [];
      nextId := 0;
    }

    /** POST: tags default to `[]`; a new entry is active. */
    method Create(title: string, content: string, category: string, tags: Option<seq<string>>, now: int)
      returns (e: Entry)
      requires Valid()
      modifies this
      ensures Valid()
      ensures rows == old(rows) + [e] && e.id == old(nextId)
      ensures e == Entry(old(nextId), title, content, category, tags.GetOr([]), true, now, now)
    {
      e := Entry(nextId, title, content, category, tags.GetOr([]), true, now, now);
      rows := rows + [e];
      nextId := nextId + 1;
    }

    /** PUT: `None` when no entry has the id (the store throws and the route answers 500). */
    method Update(id: nat, title: Option<string>, content: Option<string>, category: Option<string>,
                  tags: Option<seq<string>>, isActive: Option<bool>, now: int) returns (r: Option<Entry>)
      requires Valid()
      modifies this
      ensures Valid() && nextId == old(nextId)
      ensures r.None? <==> IndexOfId(old(rows), id).None?
      ensures r.None? ==> rows == old(rows)
      ensures r.Some? ==>
                var i := IndexOfId(old(rows), id).value;
                r.value == Overwritten(old(rows)[i], title, content, category, tags, isActive, now)
                && rows == old(rows)[i := r.value]
    {
      var i := IndexOfId(rows, id);
      if i.None? {
        return None;
      }
      var e := Overwritten(rows[i.value], title, content, category, tags, isActive, now);
      rows := rows[i.value := e];
      r := Some(e);
    }

    /** DELETE: removes exactly the entry with the id; `false` when there is none. */
    method Delete(id: nat) returns (ok: bool)
      requires Valid()
      modifies this
      ensures Valid() && nextId == old(nextId)
      ensures ok <==> IndexOfId(old(rows), id).Some?
      ensures !ok ==> rows == old(rows)
      ensures ok ==> |rows| == |old(rows)| - 1
      ensures forall e :: e in rows <==> e in old(rows) && e.id != id
    {
      var i := IndexOfId(rows, id);
      if i.None? {
        return false;
      }
      var k := i.value;
      RemoveAtDropsId(rows, k, id);
      rows := rows[..k] + rows[k + 1..];
      ok := true;
    }
  }
}
