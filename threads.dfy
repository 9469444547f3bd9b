/** The thread metadata store of backend/app2.py: the `threads` table keyed
    by thread id, its upsert, and the two queries over it. */
module Threads {
  import opened Wrappers
  import opened Text

  /** A row of the `threads` table without its key; `last_message` is the
      one nullable column. Timestamps are the ISO-8601 strings the server
      writes. */
  datatype Row = Row(title: string, createdAt: string, updatedAt: string, lastMessage: Option<string>)

  /** The dictionary `_get_thread` and `_list_threads` make of a row. */
  datatype ThreadView = ThreadView(threadId: string, title: string, createdAt: string,
                                   updatedAt: string, lastMessage: string)

  /** Row to dictionary; a null (or empty) `last_message` becomes "". */
  function ViewOf(id: string, row: Row): (v: ThreadView)
    ensures v.threadId == id && v.title == row.title
    ensures v.createdAt == row.createdAt && v.updatedAt == row.updatedAt
    ensures row.lastMessage.None? ==> v.lastMessage == ""
    ensures row.lastMessage.Some? ==> v.lastMessage == row.lastMessage.value
  {
    ThreadView(id, row.title, row.createdAt, row.updatedAt,
               match row.lastMessage case None => "" case Some(m) => m)
  }

  // ---------------------------------------------------------------------
  // _upsert_thread

  /** The table after `_upsert_thread(id, title, last)` at time `now`: an
      existing row gets the new title, `updated_at` and `last_message` and
      keeps its `created_at`; a new row is created and updated at `now`. */
  function Upserted(rows: map<string, Row>, id: string, title: string, last: string, now: string)
    : map<string, Row>
  {
    if id in rows then rows[id := Row(title, rows[id].createdAt, now, Some(last))]
    else rows[id := Row(title, now, now, Some(last))]
  }

  /** A new id gets a row created and updated at `now`. */
  lemma UpsertInserts(rows: map<string, Row>, id: string, title: string, last: string, now: string)
    requires id !in rows
    ensures var after := Upserted(rows, id, title, last, now);
      id in after && after[id].createdAt == now && after[id].updatedAt == now
      && after[id].title == title && after[id].lastMessage == Some(last)
  {
  }

  /** An existing id keeps its `created_at`; the other columns are overwritten. */
  lemma UpsertUpdates(rows: map<string, Row>, id: string, title: string, last: string, now: string)
    requires id in rows
    ensures var after := Upserted(rows, id, title, last, now);
      id in after && after[id].createdAt == rows[id].createdAt && after[id].updatedAt == now
      && after[id].title == title && after[id].lastMessage == Some(last)
  {
  }

  /** An upsert touches only the row with that id: the keys grow by at
      most that id and every other row is unchanged. */
  lemma UpsertOthers(rows: map<string, Row>, id: string, title: string, last: string, now: string)
    ensures Upserted(rows, id, title, last, now).Keys == rows.Keys + {id}
    ensures forall k :: k in rows && k != id ==> Upserted(rows, id, title, last, now)[k] == rows[k]
  {
  }

  /** Upserting the same id twice at the same time with the same values is
      the same as upserting it once. */
  lemma UpsertIdempotent(rows: map<string, Row>, id: string, title: string, last: string, now: string)
    ensures var once := Upserted(rows, id, title, last, now);
      Upserted(once, id, title, last, now) == once
  {
  }

  /** The table, owned by the server process. */
  class ThreadStore {
    var rows: map<string, Row>

    /** `_init_thread_store`: an empty table. */
    constructor()
      ensures rows == map[]
    {
      rows := map[];
    }

    /** `_init_thread_store` on a database file that already holds a table:
        `CREATE TABLE IF NOT EXISTS` keeps the stored rows. */
    constructor Reopen(stored: map<string, Row>)
      ensures rows == stored
    {
      rows := stored;
    }

    /** `_upsert_thread(thread_id, title, last_message)`, with the clock's
        reading passed in as `now`. */
    method Upsert(id: string, title: string, last: string, now: string)
      modifies this
      ensures rows == Upserted(old(rows), id, title, last, now)
      ensures id in rows && (id in old(rows) ==> rows[id].createdAt == old(rows)[id].createdAt)
    {
      if id in rows {
        rows := rows[id := Row(title, rows[id].createdAt, now, Some(last))];
      } else {
        rows := rows[id := Row(title, now, now, Some(last))];
      }
    }

    /** `_get_thread(thread_id)` on the current table. */
    function Get(id: string): (r: Option<ThreadView>)
      reads this
      ensures r == GetThread(rows, id)
    {
      GetThread(rows, id)
    }
  }

  // ---------------------------------------------------------------------
  // _get_thread and _list_threads

  /** `_get_thread(thread_id)`: `None` for an absent id, else the row's view. */
  function GetThread(rows: map<string, Row>, id: string): (r: Option<ThreadView>)
    ensures r.None? <==> id !in rows
    ensures r.Some? ==> r.value == ViewOf(id, rows[id])
  {
    if id in rows then Some(ViewOf(id, rows[id])) else None
  }

  /** After an upsert the thread is found with the new title and last
      message, updated at `now`, and created at `now` only if it is new. */
  lemma GetAfterUpsert(rows: map<string, Row>, id: string, title: string, last: string, now: string)
    ensures var created := if id in rows then rows[id].createdAt else now;
      GetThread(Upserted(rows, id, title, last, now), id)
        == Some(ThreadView(id, title, created, now, last))
  {
  }

  /** Views listed newest first by `updated_at` (later entries never have
      a greater one). */
  predicate NewestFirst(views: seq<ThreadView>) {
    forall i, j :: 0 <= i < j < |views| ==> LexLe(views[j].updatedAt, views[i].updatedAt)
  }

  /** The ids of the listed views. */
  function IdsOf(views: seq<ThreadView>): set<string> {
    set i | 0 <= i < |views| :: views[i].threadId
  }

  /** Each listed view is the view of its row, and no id is listed twice. */
  predicate ViewsOfRows(views: seq<ThreadView>, rows: map<string, Row>) {
    && (forall i :: 0 <= i < |views| ==>
          views[i].threadId in rows && views[i] == ViewOf(views[i].threadId, rows[views[i].threadId]))
    && (forall i, j :: 0 <= i < j < |views| ==> views[i].threadId != views[j].threadId)
  }

  /** Where `v` goes in a newest-first list: before the first view that is
      not newer than it. */
  function InsertPos(views: seq<ThreadView>, v: ThreadView): (p: nat)
    ensures p <= |views|
    ensures forall k :: 0 <= k < p ==> !LexLe(views[k].updatedAt, v.updatedAt)
    ensures p < |views| ==> LexLe(views[p].updatedAt, v.updatedAt)
  {
    if views == [] || LexLe(views[0].updatedAt, v.updatedAt) then 0
    else 1 + InsertPos(views[1..], v)
  }

  function InsertNewestFirst(views: seq<ThreadView>, v: ThreadView): seq<ThreadView> {
    var p := InsertPos(views, v);
    views[..p] + [v] + views[p..]
  }

  /** Insertion keeps a newest-first list newest first. */
  lemma InsertKeepsOrder(views: seq<ThreadView>, v: ThreadView)
    requires NewestFirst(views)
    ensures NewestFirst(InsertNewestFirst(views, v))
  {
    var p := InsertPos(views, v);
    var r := InsertNewestFirst(views, v);
    forall i, j | 0 <= i < j < |r| ensures LexLe(r[j].updatedAt, r[i].updatedAt) {
      if j < p || p < i {
        assert r[i] == views[if i < p then i else i - 1];
        assert r[j] == views[if j < p then j else j - 1];
      } else if i < p && j == p {
        LexTotal(views[i].updatedAt, v.updatedAt);
      } else if i < p {
        assert r[j] == views[j - 1];
      } else {
        assert r[j] == views[j - 1];
        LexTotal(views[p].updatedAt, views[p].updatedAt);
        LexTrans(views[j - 1].updatedAt, views[p].updatedAt, v.updatedAt);
      }
    }
  }

  /** Where each view ends up after an insertion. */
  lemma InsertShape(views: seq<ThreadView>, v: ThreadView)
    ensures var p := InsertPos(views, v);
      var r := InsertNewestFirst(views, v);
      && |r| == |views| + 1 && r[p] == v
      && (forall i :: 0 <= i < p ==> r[i] == views[i])
      && (forall i :: p < i < |r| ==> r[i] == views[i - 1])
  {
  }

  /** Inserting the view of a row not yet listed keeps the list one of
      distinct row views. */
  lemma InsertViews(views: seq<ThreadView>, v: ThreadView, rows: map<string, Row>)
    requires ViewsOfRows(views, rows)
    requires v.threadId in rows && v == ViewOf(v.threadId, rows[v.threadId])
    requires v.threadId !in IdsOf(views)
    ensures ViewsOfRows(InsertNewestFirst(views, v), rows)
  {
    var p := InsertPos(views, v);
    var r := InsertNewestFirst(views, v);
    InsertShape(views, v);
    forall i, j | 0 <= i < j < |r| ensures r[i].threadId != r[j].threadId {
      if i == p {
        assert r[j].threadId in IdsOf(views);
      } else if j == p {
        assert r[i].threadId in IdsOf(views);
      }
    }
  }

  /** Insertion adds exactly the inserted view's id. */
  lemma InsertIds(views: seq<ThreadView>, v: ThreadView)
    ensures IdsOf(InsertNewestFirst(views, v)) == IdsOf(views) + {v.threadId}
  {
    var p := InsertPos(views, v);
    var r := InsertNewestFirst(views, v);
    InsertShape(views, v);
    forall id | id in IdsOf(views) ensures id in IdsOf(r) {
      var m :| 0 <= m < |views| && views[m].threadId == id;
      assert r[if m < p then m else m + 1].threadId == id;
    }
    assert r[p].threadId == v.threadId;
  }

  /** `_list_threads()`: every row's view, newest first by `updated_at`.
      SQLite leaves the order of rows with equal `updated_at` unspecified;
      here they come in the order the loop happens to pick them. */
  method ListThreads(rows: map<string, Row>) returns (views: seq<ThreadView>)
    ensures NewestFirst(views)
    ensures ViewsOfRows(views, rows)
    ensures IdsOf(views) == rows.Keys
    ensures |views| == |rows|
  {
    views := [];
    var left := rows.Keys;
    while left != {}
      invariant left <= rows.Keys
      invariant NewestFirst(views) && ViewsOfRows(views, rows)
      invariant IdsOf(views) == rows.Keys - left
      invariant |views| + |left| == |rows|
      decreases |left|
    {
      var id :| id in left;
      var v := ViewOf(id, rows[id]);
      InsertKeepsOrder(views, v);
      InsertViews(views, v, rows);
      InsertIds(views, v);
      views := InsertNewestFirst(views, v);
      left := left - {id};
    }
  }
}
