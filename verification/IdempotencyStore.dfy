/** The dedupe store (worker/src/idempotency.py). */
module IdempotencyStore {
  /** The table processed_events; closing and reopening the database keeps it. */
  class Store {
    var rows: map<string, string>

    constructor (saved: map<string, string>)
      ensures rows == saved
    {
      rows := saved;
    }

    method IsDone(key: string) returns (done: bool)
      ensures done <==> key in rows
    {
      done := key in rows;
    }

    /** INSERT OR IGNORE */
    method MarkDone(key: string, correlationId: string)
      modifies this
      ensures rows == Marked(old(rows), key, correlationId)
    {
      if key !in rows {
        rows := rows[key := correlationId];
      }
    }
  }

  function Marked(rows: map<string, string>, key: string, correlationId: string): map<string, string> {
    if key in rows then rows else rows[key := correlationId]
  }

  function MarkedAll(rows: map<string, string>, marks: seq<(string, string)>): map<string, string> {
    if marks == [] then rows
    else
      var n := |marks| - 1;
      Marked(MarkedAll(rows, marks[..n]), marks[n].0, marks[n].1)
  }

  /** First writer wins: after any marks a key is done exactly if it was or was marked, and it keeps the
      correlation id it had or else that of its first mark. */
  lemma {:induction false} FirstWriterWins(rows: map<string, string>, marks: seq<(string, string)>, key: string)
    ensures var after := MarkedAll(rows, marks);
            && (key in after <==> key in rows || exists i :: 0 <= i < |marks| && marks[i].0 == key)
            && (key in rows ==> after[key] == rows[key])
            && (key !in rows ==>
                  forall i :: 0 <= i < |marks| && marks[i].0 == key && (forall j :: 0 <= j < i ==> marks[j].0 != key)
                    ==> after[key] == marks[i].1)
  {
    if marks != [] {
      var n := |marks| - 1;
      var before := marks[..n];
      FirstWriterWins(rows, before, key);
      assert forall i :: 0 <= i < n ==> marks[i] == before[i];
    }
  }
}
