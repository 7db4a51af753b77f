/** The key table and the middleware around a handler, as they run for one
  * request at a time. `Idempotency` interleaves these same statements. */
module KeyStore {
  import opened Prelude
  import opened Idempotency

  /** What a request under a key in use is told, from the row alone: to come back
    * while the first one is at work, that first answer if it asks for the same, and
    * that the key belongs to another request otherwise. */
  predicate Tells(row: Row, hash: string, answer: Answer) {
    && (!row.completed ==> answer == InFlight)
    && (row.completed && row.hash == hash && row.status.Some? ==> answer == Replay(row.status.value, row.body))
    && (row.completed && row.hash == hash && row.status.None? ==> answer == Replay(200, row.body))
    && (row.completed && row.hash != hash ==> answer == Mismatch)
  }

  class Store {
    var rows: Rows

    constructor ()
      ensures rows == map[]
    {
      rows := map[];
    }

    /** `acquire`: `None` means the row was inserted and the caller owns it. */
    method Acquire(owner: nat, key: Key, hash: string, expiresAt: int) returns (answer: Option<Answer>)
      modifies this
      ensures answer.None? <==> key !in old(rows)
      ensures answer.Some? ==> answer.value == Selected(old(rows), key, hash) && Tells(old(rows)[key], hash, answer.value)
      ensures answer.Some? ==> rows == old(rows)
      ensures answer.None? ==> rows == old(rows)[key := Row(owner, hash, false, None, None, expiresAt)]
    {
      if key !in rows {
        rows := rows[key := Row(owner, hash, false, None, None, expiresAt)];
        return None;
      }
      var existing := rows[key];
      if !existing.completed {
        return Some(InFlight);
      }
      if existing.hash == hash {
        return Some(Replay(if existing.status.Some? then existing.status.value else 200, existing.body));
      }
      return Some(Mismatch);
    }

    method Complete(key: Key, response: Response)
      modifies this
      ensures rows == Completed(old(rows), key, response)
      ensures key !in old(rows) ==> rows == old(rows)
      ensures key in old(rows) ==>
                var row := old(rows)[key];
                rows == old(rows)[key := Row(row.owner, row.hash, true, Some(response.status), Some(response.body), row.expiresAt)]
    {
      if key in rows {
        rows := rows[key := rows[key].(completed := true, status := Some(response.status), body := Some(response.body))];
      }
    }

    method Release(key: Key)
      modifies this
      ensures rows == Released(old(rows), key)
      ensures rows == if key in old(rows) && !old(rows)[key].completed then old(rows) - {key} else old(rows)
    {
      if key in rows && !rows[key].completed {
        rows := rows - {key};
      }
    }

    method PurgeExpired(now: int) returns (affected: nat)
      modifies this
      ensures rows == old(rows) - Expired(old(rows), now)
      ensures forall key :: key in rows <==> key in old(rows) && old(rows)[key].expiresAt >= now
      ensures affected == |old(rows)| - |rows|
    {
      var dead := Expired(rows, now);
      affected := |dead|;
      assert rows.Keys == (rows - dead).Keys + dead && (rows - dead).Keys !! dead;
      rows := rows - dead;
    }

    /** `guarded` and `record`: the handler runs only for the request that
      * inserted the row, and what it answers stays recorded unless it is a server
      * error or too large, which frees the key again. */
    method Guarded(owner: nat, key: Key, hash: string, now: int, ttl: nat, limit: nat, handler: string -> Response)
      returns (answer: Answer, ran: bool)
      modifies this
      ensures ran <==> key !in old(rows)
      ensures !ran ==> rows == old(rows) && Tells(old(rows)[key], hash, answer)
      ensures ran ==> var response := handler(hash);
                      var fits := |response.body| <= limit;
                      && answer == Executed(if fits then response else Response(response.status, ""))
                      && rows == if fits && response.status < 500
                                 then old(rows)[key := Row(owner, hash, true, Some(response.status), Some(response.body), now + ttl)]
                                 else old(rows)
    {
      var outcome := Acquire(owner, key, hash, now + ttl);
      if outcome.Some? {
        return outcome.value, false;
      }
      var response := handler(hash);
      if |response.body| > limit {
        Release(key);
        return Executed(Response(response.status, "")), true;
      }
      if ServerError(response) {
        Release(key);
      } else {
        Complete(key, response);
      }
      return Executed(response), true;
    }
  }

  /** What a recorded answer means for everybody who comes with that key afterwards:
    * the same request is answered alike, any other is turned away. */
  lemma RecordedAnswersStand(rows: Rows, key: Key, owner: nat, hash: string, response: Response, expiresAt: int, other: string, answer: Answer)
    requires Tells(Row(owner, hash, true, Some(response.status), Some(response.body), expiresAt), other, answer)
    ensures answer == if other == hash then Replay(response.status, Some(response.body)) else Mismatch
  {
  }
}
