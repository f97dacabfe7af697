/** The REST API as every entity page sees it: the requests a page issues, the
    replies the server (or axios) gives back, and the notification a page shows
    for a reply. The network itself is not modelled: a reply is an input. */
module Server {
  import opened Common

  datatype Verb = Get | Post | Patch | Delete

  datatype Request = Request(verb: Verb, path: string)

  const Base: string := "/online-shop/"

  /** `/online-shop/<entity>`: the collection endpoint (GET, POST). */
  function CollectionPath(entity: string): (p: string)
    ensures |p| == |Base| + |entity| && p[..|Base|] == Base && p[|Base|..] == entity
  {
    Base + entity
  }

  /** `/online-shop/<entity>/${id}`: one record (PATCH, DELETE), under its collection. */
  function ItemPath(entity: string, id: int): (p: string)
    ensures CollectionPath(entity) + "/" <= p
    ensures p[|CollectionPath(entity)| + 1..] == IntToString(id)
  {
    Base + entity + "/" + IntToString(id)
  }

  /** The server's reading of an item path: which record of `entity` it names. */
  function ParseItemPath(entity: string, path: string): Option<int> {
    var prefix := Base + entity + "/";
    if |prefix| <= |path| && path[..|prefix|] == prefix then ParseInt(path[|prefix|..]) else None
  }

  /** The PATCH and DELETE paths name exactly the record they were built from. */
  lemma ItemPathNamesRecord(entity: string, id: int)
    ensures ParseItemPath(entity, ItemPath(entity, id)) == Some(id)
  {
    var prefix := Base + entity + "/";
    assert ItemPath(entity, id) == prefix + IntToString(id);
    assert ItemPath(entity, id)[|prefix|..] == IntToString(id);
    IntRoundTrip(id);
  }

  /** Two records with different ids are never addressed by the same path. */
  lemma ItemPathInjective(entity: string, a: int, b: int)
    requires ItemPath(entity, a) == ItemPath(entity, b)
    ensures a == b
  {
    ItemPathNamesRecord(entity, a);
    ItemPathNamesRecord(entity, b);
  }

  /** The `message` key of an error body: absent, the usual array of texts, or a
      single text (JavaScript's `[0]` then yields its first character). */
  datatype Message = NoMessage | MessageList(items: seq<string>) | MessageText(text: string)

  datatype ErrorData = ErrorData(message: Message)

  datatype ErrorResponse = ErrorResponse(status: int, data: Option<ErrorData>)

  /** What axios throws: with or without a server response. */
  datatype HttpError = HttpError(response: Option<ErrorResponse>)

  /** The outcome of one request: a response that axios did not throw for, or a thrown error. */
  datatype Reply<B> = Answered(status: int, body: B) | Threw(error: HttpError)

  /** What the user sees after a handler ran: nothing, an antd success or error
      message, or nothing because the catch block itself threw a TypeError. */
  datatype Notice = Quiet | Success(text: string) | Failure(text: string) | Uncaught

  const Created: string := "Thêm mới thành công"
  const Updated: string := "Cập nhật thành công"
  const Deleted: string := "Xóa thành công"
  const Fallback: string := "Đã xảy ra lỗi"

  /** `message.error(err.response?.data?.message[0] || 'Đã xảy ra lỗi')`. */
  function FailureNotice(e: HttpError): (n: Notice)
    ensures n.Failure? ==> n.text != ""
    ensures n.Uncaught? <==> e.response.Some? && e.response.value.data == Some(ErrorData(NoMessage))
    ensures e.response.None? || e.response.value.data.None? ==> n == Failure(Fallback)
    ensures e.response.Some? && e.response.value.data.Some? && e.response.value.data.value.message.MessageList? ==>
              var items := e.response.value.data.value.message.items;
              n == if items != [] && items[0] != "" then Failure(items[0]) else Failure(Fallback)
    ensures e.response.Some? && e.response.value.data.Some? && e.response.value.data.value.message.MessageText? ==>
              var text := e.response.value.data.value.message.text;
              n == if text != "" then Failure([text[0]]) else Failure(Fallback)
  {
    match e.response
    case None => Failure(Fallback)
    case Some(resp) =>
      match resp.data
      case None => Failure(Fallback)
      case Some(data) =>
        match data.message
        case NoMessage => Uncaught
        case MessageList(items) => if items != [] && items[0] != "" then Failure(items[0]) else Failure(Fallback)
        case MessageText(text) => if text != "" then Failure([text[0]]) else Failure(Fallback)
  }

  /** Did the server confirm the operation with the one status the page checks for? */
  predicate Confirmed<B>(reply: Reply<B>, expected: int) {
    reply.Answered? && reply.status == expected
  }

  /** The notice every mutating handler shows: success text on the expected status,
      the error rule on a thrown error, and nothing on any other status. */
  function ReplyNotice<B>(reply: Reply<B>, expected: int, successText: string): (n: Notice)
    ensures n.Success? <==> Confirmed(reply, expected)
    ensures n.Success? ==> n.text == successText
    ensures n.Quiet? <==> reply.Answered? && reply.status != expected
    ensures reply.Threw? ==> n == FailureNotice(reply.error)
  {
    match reply
    case Answered(status, _) => if status == expected then Success(successText) else Quiet
    case Threw(e) => FailureNotice(e)
  }

  /** What a submit did: blocked by the form's schema (the failing fields, each
      with the message shown under it; no request), or sent with the payload and
      the notice for the reply. */
  datatype Submission<P, K> = Rejected(errors: map<K, string>) | Sent(request: Request, payload: P, notice: Notice)
}
