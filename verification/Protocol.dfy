/** The control protocol: one request line, then one reply line, or two when the
    client asked to hear the plan before it is carried out. */
module Protocol {
  import opened Machine
  import opened Domain
  import opened Lines
  import Deadlines

  /** The cap on one message, and the size of the buffers either side. */
  const MAX_MESSAGE: nat := 1_048_576
  const BUFFER: nat := 65_536

  datatype Op = Ping | Status | Preview | Request | ReleaseClaim | Evict | Unknown

  datatype Query = Query(op: Op, service: string, needMiB: u64, allExcept: bool, dryRun: bool, planFirst: bool)

  datatype Response = Response(
    failed: bool, plan: Option<Plan>, longestActionMs: i64, preliminary: bool,
    executed: seq<ActionResult>, freeAfterMiB: Option<u64>, targetMet: Option<bool>)

  const REFUSED := Response(true, None, 0, false, [], None, None)

  /** How values are written as bytes. */
  datatype Codec<!T> = Codec(encode: T -> seq<Byte>, decode: seq<Byte> -> Option<T>)

  /** What the protocol needs of its encoding: it is read back as it was written,
      on one line, with no carriage return at the end. */
  ghost predicate Faithful<T(!new)>(c: Codec<T>) {
    forall v: T :: c.decode(c.encode(v)) == Some(v) && OneLine(c.encode(v))
  }

  predicate OneLine(m: seq<Byte>) {
    NEWLINE !in m && (m == [] || m[|m| - 1] != RETURN)
  }

  function LineOf<T>(c: Codec<T>, v: T): seq<Byte> {
    c.encode(v) + [NEWLINE]
  }

  function LinesOf<T>(c: Codec<T>, vs: seq<T>): seq<Byte> {
    if vs == [] then [] else LineOf(c, vs[0]) + LinesOf(c, vs[1..])
  }

  predicate Fits<T>(c: Codec<T>, v: T) {
    |c.encode(v)| <= MAX_MESSAGE
  }

  // -------------------------------------------------------------- the daemon

  /** What a handler does with a request: the replies it sends ahead, and its answer. */
  datatype Handled = Handled(sent: seq<Response>, final: Response)

  function Marked(sent: seq<Response>): (r: seq<Response>)
    ensures |r| == |sent|
    ensures forall i :: 0 <= i < |r| ==> r[i] == sent[i].(preliminary := true)
  {
    seq(|sent|, i requires 0 <= i < |sent| => sent[i].(preliminary := true))
  }

  /** Everything serveConn writes for a request. */
  function Replies(h: Handled): seq<Response> {
    Marked(h.sent) + [h.final]
  }

  function Served(queries: Codec<Query>, handler: Query -> Handled, got: Result<seq<Byte>, ReadError>): seq<Response> {
    match got
    case Err(_) => [REFUSED]
    case Ok(line) =>
      match queries.decode(line)
      case None => [REFUSED]
      case Some(q) => Replies(handler(q))
  }

  /** serveConn. */
  method ServeConn(reader: Reader, queries: Codec<Query>, replies: Codec<Response>, handler: Query -> Handled)
    returns (written: seq<Byte>)
    requires reader.Valid() && reader.size == BUFFER
    modifies reader
    ensures written == LinesOf(replies,
              Served(queries, handler, MessageOf(BUFFER, MAX_MESSAGE, [], old(reader.Unread())).result))
  {
    var line := ReadMessage(reader, MAX_MESSAGE);
    if line.Err? {
      return LinesOf(replies, [REFUSED]);
    }
    var q := queries.decode(line.value);
    if q.None? {
      return LinesOf(replies, [REFUSED]);
    }
    var h := handler(q.value);
    written := [];
    for i := 0 to |h.sent|
      invariant written + LinesOf(replies, Marked(h.sent)[i..] + [h.final]) == LinesOf(replies, Replies(h))
    {
      var ahead := h.sent[i].(preliminary := true);
      assert (Marked(h.sent)[i..] + [h.final])[1..] == Marked(h.sent)[i + 1..] + [h.final];
      written := written + LineOf(replies, ahead);
    }
    assert Marked(h.sent)[|h.sent|..] + [h.final] == [h.final];
    assert LinesOf(replies, [h.final]) == LineOf(replies, h.final) + [];
    written := written + LineOf(replies, h.final);
  }

  // -------------------------------------------------------------- the client

  datatype Failure = NoLine(error: ReadError) | NotAResponse

  /** What a client ends up with, how long it set itself to wait each time, and
      what is left on the connection. */
  datatype Answer = Answer(result: Result<Response, Failure>, waits: seq<i64>, rest: seq<Byte>)

  function ResponseFrom(replies: Codec<Response>, s: seq<Byte>): (Result<Response, Failure>, seq<Byte>) {
    var got := MessageOf(BUFFER, MAX_MESSAGE, [], s);
    match got.result
    case Err(e) => (Err(NoLine(e)), got.rest)
    case Ok(line) =>
      match replies.decode(line)
      case None => (Err(NotAResponse), got.rest)
      case Some(r) => (Ok(r), got.rest)
  }

  function AnswerFrom(replies: Codec<Response>, wait: i64, s: seq<Byte>): Answer {
    var (first, rest) := ResponseFrom(replies, s);
    if first.Err? || !first.value.preliminary then Answer(first, [wait], rest)
    else
      var (second, rest') := ResponseFrom(replies, rest);
      var longer := Deadlines.WaitFor(Deadlines.FromMilliseconds(first.value.longestActionMs));
      Answer(second, [wait, longer], rest')
  }

  method ReadResponse(reader: Reader, replies: Codec<Response>) returns (r: Result<Response, Failure>)
    requires reader.Valid() && reader.size == BUFFER
    modifies reader
    ensures reader.Valid() && (r, reader.Unread()) == ResponseFrom(replies, old(reader.Unread()))
  {
    var line := ReadMessage(reader, MAX_MESSAGE);
    match line {
      case Err(e) => return Err(NoLine(e));
      case Ok(bytes) =>
        var decoded := replies.decode(bytes);
        match decoded {
          case None => return Err(NotAResponse);
          case Some(v) => return Ok(v);
        }
    }
  }

  /** doAt once connected. wait is PlanWait, or what is left of the caller's own
      deadline. */
  method DoAt(reader: Reader, replies: Codec<Response>, wait: i64)
    returns (r: Result<Response, Failure>, waits: seq<i64>)
    requires reader.Valid() && reader.size == BUFFER
    modifies reader
    ensures reader.Valid() && Answer(r, waits, reader.Unread()) == AnswerFrom(replies, wait, old(reader.Unread()))
  {
    waits := [wait];
    r := ReadResponse(reader, replies);
    if r.Err? || !r.value.preliminary {
      return;
    }
    waits := waits + [Deadlines.WaitFor(Deadlines.FromMilliseconds(r.value.longestActionMs))];
    r := ReadResponse(reader, replies);
  }

  // ---------------------------------------------------------------- together

  /** One line read off a stream: the value, if and only if it fits. */
  lemma {:induction false} LineComesBack<T(!new)>(c: Codec<T>, v: T, rest: seq<Byte>)
    requires Faithful(c)
    ensures var got := MessageOf(BUFFER, MAX_MESSAGE, [], LineOf(c, v) + rest);
      if Fits(c, v) then got == Got(Ok(c.encode(v)), rest) && c.decode(c.encode(v)) == Some(v)
      else got.result == Err(TooLong)
  {
    var m := c.encode(v);
    assert c.decode(m) == Some(v) && OneLine(m);
    MessageUnchangedIff(BUFFER, MAX_MESSAGE, m, rest);
    assert LineOf(c, v) + rest == m + [NEWLINE] + rest;
    assert Trimmed(m) == m;
  }

  /** A request that fits reaches the handler as it was sent, however its bytes
      arrive; one that does not is refused. */
  lemma {:induction false} RequestArrives(
    queries: Codec<Query>, handler: Query -> Handled, q: Query, rest: seq<Byte>)
    requires Faithful(queries)
    ensures Served(queries, handler, MessageOf(BUFFER, MAX_MESSAGE, [], LineOf(queries, q) + rest).result)
         == if Fits(queries, q) then Replies(handler(q)) else [REFUSED]
  {
    hide MessageOf;
    LineComesBack(queries, q, rest);
  }

  /** A line that is no request is refused, and one that is no reply is an error. */
  lemma {:induction false} GarbageIsRefused(
    queries: Codec<Query>, replies: Codec<Response>, handler: Query -> Handled, m: seq<Byte>, rest: seq<Byte>)
    requires OneLine(m) && |m| <= MAX_MESSAGE
    ensures queries.decode(m) == None ==>
      Served(queries, handler, MessageOf(BUFFER, MAX_MESSAGE, [], m + [NEWLINE] + rest).result) == [REFUSED]
    ensures replies.decode(m) == None ==>
      ResponseFrom(replies, m + [NEWLINE] + rest) == (Err(NotAResponse), rest)
  {
    hide MessageOf;
    MessageUnchangedIff(BUFFER, MAX_MESSAGE, m, rest);
  }

  /** A connection that closes without a word is no answer, either way. */
  lemma {:induction false} SilenceIsNoAnswer(
    queries: Codec<Query>, replies: Codec<Response>, handler: Query -> Handled, wait: i64)
    ensures Served(queries, handler, MessageOf(BUFFER, MAX_MESSAGE, [], []).result) == [REFUSED]
    ensures AnswerFrom(replies, wait, []) == Answer(Err(NoLine(Ended)), [wait], [])
  {
  }

  /** Whatever a handler answers, announcing once at most, the client gets its
      final reply if and only if every line sent fits; it never takes the
      announcement for the answer; and it waits again only after one. */
  lemma {:induction false} ExchangeEnds(replies: Codec<Response>, h: Handled, wait: i64, rest: seq<Byte>)
    requires |h.sent| <= 1 && !h.final.preliminary && Faithful(replies)
    ensures var answer := AnswerFrom(replies, wait, LinesOf(replies, Replies(h)) + rest);
      && (answer.result == Ok(h.final) <==> forall r :: r in Replies(h) ==> Fits(replies, r))
      && (answer.result.Ok? ==> answer.result.value == h.final && answer.rest == rest)
      && answer.waits ==
           if h.sent != [] && Fits(replies, Replies(h)[0]) then
             [wait, Deadlines.WaitFor(Deadlines.FromMilliseconds(h.sent[0].longestActionMs))]
           else [wait]
  {
    hide MessageOf, Fits, Faithful, Deadlines.WaitFor, Deadlines.FromMilliseconds;
    if h.sent == [] {
      assert Replies(h) == [h.final];
      OneReply(replies, h.final, rest);
    } else {
      var first := h.sent[0].(preliminary := true);
      assert Replies(h) == [first, h.final];
      FirstReply(replies, first, [h.final], rest);
      OneReply(replies, h.final, rest);
    }
  }

  lemma {:induction false} FirstReply(replies: Codec<Response>, r: Response, more: seq<Response>, rest: seq<Byte>)
    requires Faithful(replies)
    ensures var (got, left) := ResponseFrom(replies, LinesOf(replies, [r] + more) + rest);
      if Fits(replies, r) then got == Ok(r) && left == LinesOf(replies, more) + rest else got == Err(NoLine(TooLong))
  {
    hide MessageOf, Faithful;
    assert ([r] + more)[1..] == more;
    assert LinesOf(replies, [r] + more) + rest == LineOf(replies, r) + (LinesOf(replies, more) + rest);
    LineComesBack(replies, r, LinesOf(replies, more) + rest);
  }

  lemma {:induction false} OneReply(replies: Codec<Response>, r: Response, rest: seq<Byte>)
    requires Faithful(replies)
    ensures var (got, left) := ResponseFrom(replies, LinesOf(replies, [r]) + rest);
      if Fits(replies, r) then got == Ok(r) && left == rest else got == Err(NoLine(TooLong))
  {
    hide MessageOf, Faithful, ResponseFrom;
    assert [r] + [] == [r];
    assert LinesOf(replies, []) + rest == rest;
    FirstReply(replies, r, [], rest);
  }
}
