/** One newline-terminated message at a time off a buffered stream that arrives
    in pieces of any size. */
module Lines {
  import opened Machine

  type Byte = x: int | 0 <= x < 256

  const NEWLINE: Byte := 10
  const RETURN: Byte := 13

  // ------------------------------------------------------------------ streams

  function Flat(chunks: seq<seq<Byte>>): seq<Byte> {
    if chunks == [] then [] else chunks[0] + Flat(chunks[1..])
  }

  /** Where the first newline is; the length when there is none. */
  function NewlineAt(s: seq<Byte>): (k: nat)
    ensures k <= |s|
    ensures k < |s| ==> s[k] == NEWLINE
    ensures forall i :: 0 <= i < k ==> s[i] != NEWLINE
  {
    if s == [] || s[0] == NEWLINE then 0 else 1 + NewlineAt(s[1..])
  }

  lemma {:induction false} NewlineIsFirst(s: seq<Byte>, k: nat)
    requires k < |s| && s[k] == NEWLINE && forall i :: 0 <= i < k ==> s[i] != NEWLINE
    ensures NewlineAt(s) == k
  {
  }

  // -------------------------------------------------------------- bufio's line

  datatype Piece = Piece(bytes: seq<Byte>, isPrefix: bool, failed: bool, rest: seq<Byte>)

  /** bufio.Reader.ReadLine over a buffer of this size, on everything the stream
      still has to give. A line longer than the buffer comes in prefixes, which
      never end in a carriage return; an unfinished last line counts as a line. */
  function PieceOf(size: nat, s: seq<Byte>): (p: Piece)
    requires size >= 2
    ensures p.isPrefix ==> |p.rest| < |s|
  {
    var k := NewlineAt(s);
    if k < |s| && k < size then
      Piece(if k > 0 && s[k - 1] == RETURN then s[..k - 1] else s[..k], false, false, s[k + 1..])
    else if |s| >= size then
      var n := if s[size - 1] == RETURN then size - 1 else size;
      Piece(s[..n], true, false, s[n..])
    else if s == [] then Piece([], false, true, [])
    else Piece(s, false, false, [])
  }

  /** A bufio.Reader on a connection: what it holds, and the pieces to come. */
  class Reader {
    const size: nat
    var held: seq<Byte>
    var coming: seq<seq<Byte>>

    constructor (size: nat, coming: seq<seq<Byte>>)
      requires size >= 2
      requires forall c :: c in coming ==> c != []
      ensures Valid() && fresh(this) && Unread() == Flat(coming) && this.size == size
    {
      this.size := size;
      this.held, this.coming := [], coming;
    }

    ghost predicate Valid()
      reads this
    {
      size >= 2 && |held| <= size && forall c :: c in coming ==> c != []
    }

    ghost function Unread(): seq<Byte>
      reads this
    {
      held + Flat(coming)
    }

    /** One read off the connection: some of the next piece, as much as fits. */
    method Fill() returns (ended: bool)
      requires Valid() && |held| < size
      modifies this
      ensures Valid() && Unread() == old(Unread())
      ensures ended ==> held == Unread() && held == old(held)
      ensures !ended ==> |held| > old(|held|) && held[..old(|held|)] == old(held)
    {
      if coming == [] {
        return true;
      }
      var room := size - |held|;
      var piece := coming[0];
      assert piece in coming && piece != [];
      assert forall c :: c in coming[1..] ==> c in coming;
      if |piece| <= room {
        held, coming := held + piece, coming[1..];
        assert Unread() == old(held) + (piece + Flat(old(coming)[1..]));
      } else {
        held, coming := held + piece[..room], [piece[room..]] + coming[1..];
        assert coming[1..] == old(coming)[1..];
        assert piece == piece[..room] + piece[room..];
        assert Unread() == old(held) + (piece + Flat(old(coming)[1..]));
      }
      return false;
    }

    method TakeFirst(n: nat) returns (bytes: seq<Byte>)
      requires Valid() && n <= |held|
      modifies this
      ensures Valid() && bytes == old(Unread())[..n] && Unread() == old(Unread())[n..]
    {
      bytes, held := held[..n], held[n..];
    }

    /** Reads on until there is a line, a full buffer or the end. */
    method Gather()
      requires Valid()
      modifies this
      ensures Valid() && Unread() == old(Unread())
      ensures NewlineAt(held) < |held| || |held| == size || held == Unread()
    {
      var ended := false;
      while !ended && NewlineAt(held) == |held| && |held| < size
        invariant Valid() && Unread() == old(Unread()) && (ended ==> held == Unread())
        decreases if ended then 0 else 1, size - |held|
      {
        ended := Fill();
      }
    }

    /** ReadLine: its answer depends on the bytes alone, not on their arrival. */
    method ReadLine() returns (bytes: seq<Byte>, isPrefix: bool, failed: bool)
      requires Valid()
      modifies this
      ensures Valid() && PieceOf(size, old(Unread())) == Piece(bytes, isPrefix, failed, Unread())
    {
      ghost var s := Unread();
      Gather();
      var k := NewlineAt(held);
      HeldNewline(held, s);
      if k < |held| {
        bytes := TakeFirst(k + 1);
        assert bytes == s[..k + 1];
        var n := if k > 0 && bytes[k - 1] == RETURN then k - 1 else k;
        assert bytes[..n] == s[..n];
        return bytes[..n], false, false;
      }
      if |held| == size {
        var n := if held[size - 1] == RETURN then size - 1 else size;
        bytes := TakeFirst(n);
        return bytes, true, false;
      }
      if held == [] {
        return [], false, true;
      }
      bytes := TakeFirst(|held|);
      return bytes, false, false;
    }
  }

  /** The first newline held is the first of the stream; with none held, the
      stream's comes later. */
  lemma {:induction false} HeldNewline(held: seq<Byte>, s: seq<Byte>)
    requires held <= s
    ensures NewlineAt(held) < |held| ==> NewlineAt(s) == NewlineAt(held)
    ensures NewlineAt(held) == |held| ==> NewlineAt(s) >= |held|
  {
    assert forall i :: 0 <= i < |held| ==> held[i] == s[i];
    if NewlineAt(held) < |held| {
      NewlineIsFirst(s, NewlineAt(held));
    }
  }

  // ----------------------------------------------------------------- messages

  datatype ReadError = Ended | TooLong

  datatype Got = Got(result: Result<seq<Byte>, ReadError>, rest: seq<Byte>)

  /** readLine with buf gathered so far. */
  function MessageOf(size: nat, limit: nat, buf: seq<Byte>, s: seq<Byte>): Got
    requires size >= 2
    decreases |s|
  {
    var piece := PieceOf(size, s);
    if piece.failed then Got(Err(Ended), piece.rest)
    else if |buf + piece.bytes| > limit then Got(Err(TooLong), piece.rest)
    else if !piece.isPrefix then Got(Ok(buf + piece.bytes), piece.rest)
    else MessageOf(size, limit, buf + piece.bytes, piece.rest)
  }

  /** readLine. */
  method ReadMessage(reader: Reader, limit: nat) returns (r: Result<seq<Byte>, ReadError>)
    requires reader.Valid()
    modifies reader
    ensures reader.Valid() && MessageOf(reader.size, limit, [], old(reader.Unread())) == Got(r, reader.Unread())
  {
    var buf: seq<Byte> := [];
    while true
      invariant reader.Valid()
      invariant MessageOf(reader.size, limit, buf, reader.Unread())
             == MessageOf(reader.size, limit, [], old(reader.Unread()))
      decreases |reader.Unread()|
    {
      var chunk, isPrefix, failed := reader.ReadLine();
      if failed {
        return Err(Ended);
      }
      buf := buf + chunk;
      if |buf| > limit {
        return Err(TooLong);
      }
      if !isPrefix {
        return Ok(buf);
      }
    }
  }

  /** A line without the carriage return it may end in. */
  function Trimmed(m: seq<Byte>): seq<Byte> {
    if m != [] && m[|m| - 1] == RETURN then m[..|m| - 1] else m
  }

  lemma {:induction false} LongLineContinues(size: nat, m: seq<Byte>, rest: seq<Byte>)
    requires size >= 2 && NEWLINE !in m && |m| >= size
    ensures var n := if m[size - 1] == RETURN then size - 1 else size;
      PieceOf(size, m + [NEWLINE] + rest) == Piece(m[..n], true, false, m[n..] + [NEWLINE] + rest)
  {
    var s := m + [NEWLINE] + rest;
    assert s[|m|] == NEWLINE;
    assert forall i :: 0 <= i < |m| ==> s[i] == m[i];
    NewlineIsFirst(s, |m|);
    var n := if m[size - 1] == RETURN then size - 1 else size;
    assert s[..n] == m[..n] && s[n..] == m[n..] + [NEWLINE] + rest;
  }

  lemma {:induction false} ShortLineEnds(size: nat, m: seq<Byte>, rest: seq<Byte>)
    requires size >= 2 && NEWLINE !in m && |m| < size
    ensures PieceOf(size, m + [NEWLINE] + rest) == Piece(Trimmed(m), false, false, rest)
  {
    var s := m + [NEWLINE] + rest;
    assert s[|m|] == NEWLINE;
    assert forall i :: 0 <= i < |m| ==> s[i] == m[i];
    NewlineIsFirst(s, |m|);
    assert s[..|m|] == m && s[|m| + 1..] == rest;
    if m != [] {
      assert s[..|m| - 1] == m[..|m| - 1];
    }
  }

  lemma {:induction false} MessageComesWhole(size: nat, limit: nat, buf: seq<Byte>, m: seq<Byte>, rest: seq<Byte>)
    requires size >= 2 && NEWLINE !in m && |buf| <= limit
    ensures |buf| + |Trimmed(m)| <= limit ==>
      MessageOf(size, limit, buf, m + [NEWLINE] + rest) == Got(Ok(buf + Trimmed(m)), rest)
    ensures |buf| + |Trimmed(m)| > limit ==>
      MessageOf(size, limit, buf, m + [NEWLINE] + rest).result == Err(TooLong)
    decreases |m|
  {
    hide PieceOf;
    if |m| < size {
      ShortLineEnds(size, m, rest);
    } else {
      LongLineContinues(size, m, rest);
      var n := if m[size - 1] == RETURN then size - 1 else size;
      var first, others := m[..n], m[n..];
      TrimIsAtTheEnd(m, n);
      assert (buf + first) + Trimmed(others) == buf + Trimmed(m);
      hide Trimmed;
      if |buf + first| <= limit {
        MessageComesWhole(size, limit, buf + first, others, rest);
      }
    }
  }

  lemma {:induction false} TrimIsAtTheEnd(m: seq<Byte>, n: nat)
    requires n <= |m| && (n == |m| ==> Trimmed(m) == m)
    ensures m[..n] + Trimmed(m[n..]) == Trimmed(m)
  {
  }

  /** A line the stream ends in the middle of still counts, carriage return and
      all, as long as the buffer holds it; and an empty stream is the end. */
  lemma {:induction false} UnfinishedLine(size: nat, limit: nat, m: seq<Byte>)
    requires size >= 2 && NEWLINE !in m && |m| < size
    ensures MessageOf(size, limit, [], m) ==
      if m == [] then Got(Err(Ended), []) else if |m| <= limit then Got(Ok(m), []) else Got(Err(TooLong), [])
  {
    assert forall i :: 0 <= i < |m| ==> m[i] != NEWLINE;
    assert [] + m == m;
  }

  /** Whatever the buffer's size and however the bytes arrive, a message comes
      back unchanged with the rest of the stream left for the next read, if and
      only if it is no longer than the limit and does not end in a carriage return. */
  lemma {:induction false} MessageUnchangedIff(size: nat, limit: nat, m: seq<Byte>, rest: seq<Byte>)
    requires size >= 2 && NEWLINE !in m
    ensures MessageOf(size, limit, [], m + [NEWLINE] + rest) == Got(Ok(m), rest)
       <==> |m| <= limit && (m == [] || m[|m| - 1] != RETURN)
    ensures |Trimmed(m)| > limit ==> MessageOf(size, limit, [], m + [NEWLINE] + rest).result == Err(TooLong)
  {
    MessageComesWhole(size, limit, [], m, rest);
    assert [] + Trimmed(m) == Trimmed(m);
  }
}
