/** Resumable range streaming: one file is fetched with HTTP range requests, each resuming where the bytes
    already written end (RFC 9110, sections 14.1.2, 14.2 and 15.3.7). */
module Streaming {
  import opened Basics

  const MAX_DOWNLOAD_RETRIES := 6

  /** The `Range` header: "bytes=first-" or "bytes=first-last". */
  datatype ByteRange = From(first: nat) | Span(first: nat, last: int)

  datatype Ending = Complete | Broken(retryable: bool)

  /** What one request yields. `Partial` is status 206, `Whole` is status 200. */
  datatype Reply =
    | NoResponse(retryable: bool)
    | Refused(retryable: bool)
    | Partial(body: seq<Byte>, ending: Ending)
    | Whole(body: seq<Byte>, ending: Ending)
  {
    predicate HasBody() {
      Partial? || Whole?
    }

    predicate Succeeds() {
      HasBody() && ending.Complete?
    }

    /** The failure is worth another attempt. */
    predicate Retryable() {
      if HasBody() then ending.Complete? || ending.retryable else retryable
    }
  }

  /** The server's answer to the k-th request. */
  type Server = (nat, ByteRange) -> Reply

  function Requested(file: seq<Byte>, range: ByteRange): seq<Byte> {
    if range.first > |file| then []
    else if range.From? || range.last >= |file| then file[range.first..]
    else if range.last < range.first then []
    else file[range.first..range.last + 1]
  }

  predicate IsPrefix(a: seq<Byte>, b: seq<Byte>) {
    |a| <= |b| && a == b[..|a|]
  }

  /** Every body, also one that breaks off, is a prefix of the requested bytes. */
  ghost predicate Honest(file: seq<Byte>, server: Server) {
    forall k, range :: server(k, range).HasBody() ==> IsPrefix(server(k, range).body, Requested(file, range))
  }

  /** A response that ends cleanly carries at least one byte. */
  ghost predicate MakesProgress(server: Server) {
    forall k, range :: server(k, range).Succeeds() ==> server(k, range).body != []
  }

  /** A clean response carries all that was asked for. */
  ghost predicate CleanIsFull(file: seq<Byte>, server: Server) {
    forall k, range :: server(k, range).Succeeds() ==> server(k, range).body == Requested(file, range)
  }

  /** The body bytes of the replies so far. */
  function Bodies(replies: seq<Reply>): seq<Byte> {
    if replies == [] then []
    else
      var last := replies[|replies| - 1];
      Bodies(replies[..|replies| - 1]) + if last.HasBody() then last.body else []
  }

  /** The replies are the server's answers to the requests; every request starts at the first byte not yet
      received and keeps the end of the range. */
  ghost predicate Resumes(server: Server, offset: int, length: int, requests: seq<ByteRange>, replies: seq<Reply>)
    decreases |replies|
  {
    && |requests| == |replies|
    && (replies != [] ==>
          var k := |replies| - 1;
          && replies[k] == server(k, requests[k])
          && requests[k].first == offset + |Bodies(replies[..k])|
          && (if length < 0 then requests[k].From? else requests[k].Span? && requests[k].last == offset + length - 1)
          && Resumes(server, offset, length, requests[..k], replies[..k]))
  }

  lemma {:induction false} Answered(server: Server, offset: int, length: int, requests: seq<ByteRange>,
      replies: seq<Reply>, i: nat)
    requires Resumes(server, offset, length, requests, replies) && i < |replies|
    ensures replies[i] == server(i, requests[i])
    decreases |replies|
  {
    var k := |replies| - 1;
    if i < k {
      Answered(server, offset, length, requests[..k], replies[..k], i);
    }
  }

  function RangeHeader(start: nat, length: int, copied: nat): ByteRange {
    if length < 0 then From(start) else Span(start, start + (length - copied) - 1)
  }

  /** The failures after the last clean response. */
  function TrailingFailures(replies: seq<Reply>): nat {
    if replies == [] || replies[|replies| - 1].Succeeds() then 0
    else 1 + TrailingFailures(replies[..|replies| - 1])
  }

  /** The bytes are the file's, from `offset` on, with no gap or repetition. */
  ghost predicate IsSlice(file: seq<Byte>, offset: nat, dest: seq<Byte>) {
    dest != [] ==> offset + |dest| <= |file| && dest == file[offset..offset + |dest|]
  }

  /** Why the loop gives up after these replies: the context is over before the next request or while waiting
      after the last reply, that reply is fatal, or it is one failure too many in a row. */
  predicate GivesUp(cancelled: nat -> bool, interrupted: nat -> bool, replies: seq<Reply>) {
    || cancelled(|replies|)
    || (replies != [] && (interrupted(|replies| - 1) || !replies[|replies| - 1].Retryable()
                          || TrailingFailures(replies) == MAX_DOWNLOAD_RETRIES + 1))
  }

  /** What the loop knows between two requests: what is written, what was asked and answered, and how many
      failures came last. */
  ghost predicate InStep(server: Server, offset: int, length: int, requests: seq<ByteRange>, replies: seq<Reply>,
                         dest: seq<Byte>, failures: nat)
  {
    && dest == Bodies(replies) && Resumes(server, offset, length, requests, replies)
    && failures == TrailingFailures(replies)
  }

  lemma NextStep(server: Server, offset: int, length: int, requests: seq<ByteRange>, replies: seq<Reply>,
                 dest: seq<Byte>, failures: nat, range: ByteRange)
    requires InStep(server, offset, length, requests, replies, dest, failures) && range.first == offset + |dest|
    requires if length < 0 then range.From? else range.Span? && range.last == offset + length - 1
    ensures var reply := server(|replies|, range);
      InStep(server, offset, length, requests + [range], replies + [reply],
             dest + (if reply.HasBody() then reply.body else []), if reply.Succeeds() then 0 else failures + 1)
  {
    var reply, k := server(|replies|, range), |replies|;
    assert (replies + [reply])[..k] == replies && (replies + [reply])[k] == reply;
    assert (requests + [range])[..k] == requests && (requests + [range])[k] == range;
  }

  /** The loop over the requests. */
  method FetchAll(server: Server, cancelled: nat -> bool, interrupted: nat -> bool, offset: nat, length: int)
    returns (ok: bool, dest: seq<Byte>, ghost requests: seq<ByteRange>, ghost replies: seq<Reply>)
    requires length == -1 || length > 0
    requires length >= 0 ==> MakesProgress(server)
    ensures dest == Bodies(replies) && Resumes(server, offset, length, requests, replies)
    ensures ok && length >= 0 ==> |dest| >= length
    ensures ok && length < 0 ==>
      && replies != [] && replies[|replies| - 1].Succeeds()
      && forall i | 0 <= i < |replies| - 1 :: !replies[i].Succeeds()
    ensures !ok ==> GivesUp(cancelled, interrupted, replies)
  {
    ok, dest, requests, replies := false, [], [], [];
    var copied, attempt, k := 0, 0, 0;
    while true
      invariant !ok && copied == |dest| && k == |replies| && attempt <= MAX_DOWNLOAD_RETRIES
      invariant InStep(server, offset, length, requests, replies, dest, attempt)
      invariant length < 0 ==> forall i | 0 <= i < |replies| :: !replies[i].Succeeds()
      decreases if length < 0 then 0 else length - copied, MAX_DOWNLOAD_RETRIES - attempt
    {
      if length >= 0 && copied >= length {
        ok := true;
        break;
      }
      if cancelled(k) {
        break;
      }
      var range := RangeHeader(offset + copied, length, copied);
      var reply := server(k, range);
      NextStep(server, offset, length, requests, replies, dest, attempt, range);
      requests, replies := requests + [range], replies + [reply];
      if !reply.HasBody() {
        if !reply.retryable || attempt >= MAX_DOWNLOAD_RETRIES {
          break;
        }
        if interrupted(k) {
          break;
        }
        attempt, k := attempt + 1, k + 1;
        continue;
      }
      dest := dest + reply.body;
      copied := copied + |reply.body|;
      if reply.ending.Complete? {
        attempt, k := 0, k + 1;
        if length < 0 {
          ok := true;
          break;
        }
        continue;
      }
      if !reply.ending.retryable || attempt >= MAX_DOWNLOAD_RETRIES {
        break;
      }
      if interrupted(k) {
        break;
      }
      attempt, k := attempt + 1, k + 1;
    }
  }

  /** Streams [offset, offset+length), or to the end of the file when `length` is -1. `cancelled(k)` says
      whether the context is over before request k, `interrupted(k)` whether it ends while waiting after reply
      k. */
  method StreamWithRetry(ghost file: seq<Byte>, server: Server, cancelled: nat -> bool, interrupted: nat -> bool,
                         offset: int, length: int)
    returns (ok: bool, dest: seq<Byte>, ghost requests: seq<ByteRange>, ghost replies: seq<Reply>)
    requires length >= 0 ==> MakesProgress(server)
    // What is written is what the server sent, in that order, and every request resumes exactly at the
    // first missing byte and keeps the end of the range.
    ensures dest == Bodies(replies) && Resumes(server, offset, length, requests, replies)
    ensures ok && length >= 0 ==> |dest| >= length
    ensures ok && length < 0 ==>
      && replies != [] && replies[|replies| - 1].Succeeds()
      && forall i | 0 <= i < |replies| - 1 :: !replies[i].Succeeds()
    ensures offset < 0 || length < -1 ==> !ok && dest == []
    // From an honest server the bytes written are the file's, whatever happens.
    ensures Honest(file, server) && 0 <= offset ==> IsSlice(file, offset, dest)
    ensures Honest(file, server) && length >= 0 ==> |dest| <= length
    // To the end of the file: all of it, if clean responses are full.
    ensures ok && length < 0 && Honest(file, server) && CleanIsFull(file, server) && offset <= |file|
        ==> dest == file[offset..]
    ensures !ok && 0 <= offset && -1 <= length ==> GivesUp(cancelled, interrupted, replies)
  {
    ok, dest, requests, replies := false, [], [], [];
    if offset < 0 {
      return;
    }
    if length == 0 {
      ok := true;
      return;
    }
    if length < -1 {
      return;
    }
    ok, dest, requests, replies := FetchAll(server, cancelled, interrupted, offset, length);
    if Honest(file, server) {
      HonestStream(file, server, offset, length, requests, replies);
    }
  }

  /** An honest server's answers to resuming requests are a slice of the file. */
  lemma {:induction false} HonestStream(file: seq<Byte>, server: Server, offset: nat, length: int,
                                        requests: seq<ByteRange>, replies: seq<Reply>)
    requires Honest(file, server) && Resumes(server, offset, length, requests, replies)
    ensures IsSlice(file, offset, Bodies(replies)) && (length >= 0 ==> |Bodies(replies)| <= length)
    ensures
      && replies != [] && replies[|replies| - 1].Succeeds() && length < 0 && CleanIsFull(file, server)
          && offset <= |file|
      ==> Bodies(replies) == file[offset..]
    decreases |replies|
  {
    if replies != [] {
      var k := |replies| - 1;
      HonestStream(file, server, offset, length, requests[..k], replies[..k]);
      if replies[k].HasBody() {
        BodyExtends(file, Bodies(replies[..k]), offset, requests[k], replies[k].body);
      }
    }
  }

  lemma BodyExtends(file: seq<Byte>, dest: seq<Byte>, offset: nat, range: ByteRange, body: seq<Byte>)
    requires IsSlice(file, offset, dest) && range.first == offset + |dest|
    requires IsPrefix(body, Requested(file, range))
    ensures IsSlice(file, offset, dest + body)
    ensures range.From? && body == Requested(file, range) && offset <= |file| ==> dest + body == file[offset..]
    ensures range.Span? && range.first <= range.last ==> |body| <= range.last + 1 - range.first
  {
  }

  /** A 200 body of n bytes is acceptable for the request, whatever the file. */
  ghost predicate WholeFits(range: ByteRange, n: nat) {
    forall file: seq<Byte> | n <= |file| :: Fits(file, range, n)
  }

  ghost predicate Fits(file: seq<Byte>, range: ByteRange, n: nat)
    requires n <= |file|
  {
    IsPrefix(file[..n], Requested(file, range))
  }

  /** The loop also accepts status 200, whose body starts at byte 0 whatever was requested. Such a body of n
      bytes is the right one for every file exactly when the request starts at byte 0 and asks for at least n
      bytes; a server that ignores the `Range` header on a resumed request (which section 14.2 of RFC 9110
      permits) breaks the stream. */
  lemma WholeReplyFits(range: ByteRange, n: nat)
    requires 0 < n && (range.Span? ==> range.first <= range.last)
    ensures WholeFits(range, n) <==> range.first == 0 && (range.Span? ==> n <= range.last + 1)
  {
    if range.first != 0 {
      ResumedWhole(range, n);
    } else if range.Span? && range.last + 1 < n {
      LongWhole(range, n);
    } else {
      FreshWhole(range, n);
    }
  }

  lemma ResumedWhole(range: ByteRange, n: nat)
    requires 0 < n && range.first != 0
    ensures !WholeFits(range, n)
  {
    var file: seq<Byte> := seq(n + range.first + 1, i => if i == 0 then 1 else 0);
    ResumedWholeDiffers(file, range, n);
    assert !Fits(file, range, n);
  }

  lemma LongWhole(range: ByteRange, n: nat)
    requires range.Span? && range.first == 0 && 0 <= range.last && range.last + 1 < n
    ensures !WholeFits(range, n)
  {
    var file := seq(n, i => 0 as Byte);
    assert |Requested(file, range)| == range.last + 1;
    assert !Fits(file, range, n);
  }

  lemma FreshWhole(range: ByteRange, n: nat)
    requires 0 < n && range.first == 0 && (range.Span? ==> n <= range.last + 1)
    ensures WholeFits(range, n)
  {
  }

  lemma ResumedWholeDiffers(file: seq<Byte>, range: ByteRange, n: nat)
    requires 0 < n <= |file| && 0 < range.first < |file| && file[0] != file[range.first]
    ensures !IsPrefix(file[..n], Requested(file, range))
  {
  }

  /** A server that breaks off after the first byte of a file of two, and answers the resumed request with
      status 200 and the whole file. */
  function ForgetfulServer(): Server {
    (k: nat, range: ByteRange) => if k == 0 then Partial([7 as Byte], Broken(true)) else Whole([7 as Byte, 9], Complete)
  }

  /** The stream reports success and has written the first byte twice. */
  method WholeReplyCorrupts() returns (ok: bool, dest: seq<Byte>)
    ensures ok && dest == [7 as Byte, 7, 9]
  {
    ghost var requests, replies;
    ok, dest, requests, replies :=
      StreamWithRetry([7 as Byte, 9], ForgetfulServer(), (k: nat) => false, (k: nat) => false, 0, -1);
    forall i: nat | i < |replies| ensures replies[i] == ForgetfulServer()(i, requests[i]) {
      Answered(ForgetfulServer(), 0, -1, requests, replies, i);
    }
    assert |replies| >= 2 ==> TrailingFailures(replies) == 0;
    assert |replies| == 1 ==> TrailingFailures(replies) == 1 + TrailingFailures(replies[..0]);
    assert ok && |replies| == 2;
    assert Bodies(replies[..1]) == [7 as Byte];
  }
}
