/** The two HTTP handlers of src/service/microservice.go over the messages
    table. The table is abstract: its rows (shaped like db.Message in
    src/internal/db/models.go) and the next auto-increment id. The request
    body decoding, the INSERT and the SELECT are opaque: their outcomes are
    inputs. */
module Service {
  import opened Wrappers

  /** A row of the messages table. */
  datatype Message = Message(id: int, message: string)

  /** The result of decoding the JSON request body into MessageBody. */
  datatype Body = Decoded(message: string) | Malformed(err: string)

  /** The "data" member of a response: JSON null, or the list of rows. */
  datatype Payload = Null | Rows(rows: seq<Message>)

  /** An HTTP response: the status code, and the JSON object's "success",
      "error" and "data" members (None where the object has no such key). */
  datatype Response = Response(status: int, success: bool, error: Option<string>, data: Option<Payload>)

  /** The status bunrouter.JSON sends when the handler set none. */
  const StatusOK: int := 200
  const StatusBadRequest: int := 400
  const EmptyMessageError: string := "provide a message"

  /** A failure reported without setting a status, as handleData does. */
  function FailureResponse(msg: string): Response
  {
    Response(StatusOK, false, Some(msg), None)
  }

  class Microservice {
    /** The rows of the messages table, in insertion order. */
    var rows: seq<Message>
    /** The id the next successful insert receives. */
    var nextId: int

    /** Ids are positive, strictly increasing, and below nextId. */
    ghost predicate Valid()
      reads this
    {
      1 <= nextId &&
      (forall i | 0 <= i < |rows| :: 1 <= rows[i].id < nextId) &&
      (forall i, j | 0 <= i < j < |rows| :: rows[i].id < rows[j].id)
    }

    /** A freshly created, empty table. */
    constructor ()
      ensures Valid() && rows == [] && nextId == 1
    {
      rows, nextId := [], 1;
    }

    /** POST /data. The insert runs before the empty-message check, and no
        path sets a status, so every response is a 200. */
    method HandleData(body: Body, insertErr: Option<string>) returns (resp: Response)
      requires Valid()
      modifies this
      ensures Valid()
      ensures resp.status == StatusOK
      ensures body.Malformed? ==>
        resp == FailureResponse(body.err) && rows == old(rows) && nextId == old(nextId)
      ensures body.Decoded? && insertErr.Some? ==>
        resp == FailureResponse(insertErr.value) && rows == old(rows) && nextId == old(nextId)
      ensures body.Decoded? && insertErr.None? ==>
        rows == old(rows) + [Message(old(nextId), body.message)] && nextId == old(nextId) + 1
      ensures body.Decoded? && insertErr.None? && body.message == "" ==>
        resp == FailureResponse(EmptyMessageError)
      ensures body.Decoded? && insertErr.None? && body.message != "" ==>
        resp == Response(StatusOK, true, None, Some(Null))
    {
      if body.Malformed? {
        return FailureResponse(body.err);
      }
      var m := body.message;

      var err := insertErr;
      if err.None? {
        rows := rows + [Message(nextId, m)];
        nextId := nextId + 1;
      }
      if err.Some? {
        return FailureResponse(err.value);
      }

      if m == "" {
        return FailureResponse(EmptyMessageError);
      }

      // The second `err != nil` check of the handler can never fire.
      assert err.None?;

      resp := Response(StatusOK, true, None, Some(Null));
    }

    /** GET /data: every row, or a 400 with the SELECT's error. The table is
        only read. */
    method RetrieveMessages(selectErr: Option<string>) returns (resp: Response)
      requires Valid()
      ensures selectErr.Some? ==> resp == Response(StatusBadRequest, false, selectErr, None)
      ensures selectErr.None? ==> resp == Response(StatusOK, true, None, Some(Rows(rows)))
    {
      if selectErr.Some? {
        return Response(StatusBadRequest, false, selectErr, None);
      }
      resp := Response(StatusOK, true, None, Some(Rows(rows)));
    }

    /** A non-empty message posted successfully is listed by a successful GET
        under an id larger than every id listed before it. */
    method PostThenGet(m: string) returns (post: Response, get: Response)
      requires Valid() && m != ""
      modifies this
      ensures Valid()
      ensures post == Response(StatusOK, true, None, Some(Null))
      ensures get.success && get.data.Some? && get.data.value.Rows?
      ensures var listed := get.data.value.rows;
        |listed| == |old(rows)| + 1 && listed[..|old(rows)|] == old(rows) &&
        listed[|old(rows)|].message == m &&
        forall i | 0 <= i < |old(rows)| :: old(rows)[i].id < listed[|old(rows)|].id
    {
      post := HandleData(Decoded(m), None);
      get := RetrieveMessages(None);
    }
  }

  /** A GET on a freshly created table succeeds with no rows. */
  method EmptyTableListsNothing() returns (get: Response)
    ensures get == Response(StatusOK, true, None, Some(Rows([])))
  {
    var srv := new Microservice();
    get := srv.RetrieveMessages(None);
  }
}
