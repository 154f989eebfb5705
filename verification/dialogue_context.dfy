/**
 * `DialogueContext`: an append-only message log for one session, with the
 * session's id and start time. Clock readings are parameters: one instant per
 * reading the source takes, and the id the `%Y%m%d_%H%M%S` rendering of the clock
 * would give.
 */
module Dialogue {
  import opened Wrappers
  import opened Clock

  /** A session id: a rendered timestamp, which is never empty (so always truthy). */
  type SessionId = s: string | s != "" witness "0"

  /** One logged message; the timestamp is kept as the instant, not its ISO rendering. */
  datatype Message = Message(role: string, content: string, timestamp: Instant, metadata: map<string, string>)

  /** `get_session_info`: only a status without a session; else id, start, count and elapsed time. */
  datatype SessionInfo =
    | NoActiveSession
    | ActiveSession(sessionId: SessionId, startTime: Instant, messageCount: nat, durationMicros: int)

  /** The window size used when the caller gives none. */
  const DefaultWindowSize := 5

  /** Where Python starts the slice `s[k:]` of a sequence of length `n`. */
  function SliceStart(n: nat, k: int): (i: nat)
    ensures i <= n
    ensures k < 0 && -k <= n ==> i == n + k
    ensures k < 0 && -k > n ==> i == 0
    ensures 0 <= k ==> i == if k <= n then k else n
  {
    if k < 0 then (if k + n < 0 then 0 else k + n)
    else if k > n then n
    else k
  }

  class DialogueContext {
    var messages: seq<Message>
    var currentSessionId: Option<SessionId>
    var sessionStartTime: Option<Instant>

    /** A session id and a start time exist together; without a session the log is empty. */
    ghost predicate Valid()
      reads this
    {
      && (currentSessionId.None? <==> sessionStartTime.None?)
      && (currentSessionId.None? ==> messages == [])
    }

    constructor ()
      ensures Valid()
      ensures messages == [] && currentSessionId == None && sessionStartTime == None
    {
      messages := [];
      currentSessionId := None;
      sessionStartTime := None;
    }

    /** `start_new_session`: a fresh id and start time, and an empty log. */
    method StartNewSession(id: SessionId, now: Instant) returns (r: SessionId)
      modifies this
      ensures Valid()
      ensures r == id && currentSessionId == Some(id) && sessionStartTime == Some(now) && messages == []
    {
      currentSessionId := Some(id);
      sessionStartTime := Some(now);
      messages := [];
      r := id;
    }

    /**
     * `add_message`: starts a session first if there is none, then appends exactly
     * one message, stored as given, with missing metadata as an empty mapping. The
     * clock is read twice: `sessionNow` when a session is started, `messageNow` for
     * the message's timestamp.
     */
    method AddMessage(role: string, content: string, metadata: Option<map<string, string>>,
                      freshId: SessionId, sessionNow: Instant, messageNow: Instant)
      requires Valid()
      modifies this
      ensures Valid()
      ensures currentSessionId.Some?
      ensures messages == old(messages) + [Message(role, content, messageNow, if metadata.Some? then metadata.value else map[])]
      ensures old(currentSessionId).Some? ==>
        currentSessionId == old(currentSessionId) && sessionStartTime == old(sessionStartTime)
      ensures old(currentSessionId).None? ==>
        currentSessionId == Some(freshId) && sessionStartTime == Some(sessionNow)
    {
      if currentSessionId.None? {
        var _ := StartNewSession(freshId, sessionNow);
      }
      var stored := if metadata.Some? then metadata.value else map[];
      messages := messages + [Message(role, content, messageNow, stored)];
    }

    /**
     * `get_context_window`: `messages[-size:]`, or `[]` on an empty log; the size is
     * `DefaultWindowSize` when the caller gives none. Always a suffix
     * of the log in its order; for size n >= 1 the last min(n, len) messages; for size 0
     * the whole log (`-0` is `0`); a negative size drops that many messages from the front.
     */
    method GetContextWindow(windowSize: int := DefaultWindowSize) returns (w: seq<Message>)
      ensures |w| <= |messages| && w == messages[|messages| - |w|..]
      ensures messages == [] ==> w == []
      ensures windowSize >= 1 ==> |w| == (if windowSize <= |messages| then windowSize else |messages|)
      ensures windowSize == 0 ==> w == messages
      ensures windowSize < 0 ==> |w| == (if -windowSize <= |messages| then |messages| + windowSize else 0)
    {
      if messages == [] {
        w := [];
      } else {
        w := messages[SliceStart(|messages|, -windowSize)..];
      }
    }

    /** `get_all_messages`: the whole log. */
    method GetAllMessages() returns (all: seq<Message>)
      ensures all == messages
    {
      all := messages;
    }

    /** `clear_context`: an empty log and no session. */
    method ClearContext()
      modifies this
      ensures Valid()
      ensures messages == [] && currentSessionId == None && sessionStartTime == None
    {
      messages := [];
      currentSessionId := None;
      sessionStartTime := None;
    }

    /** `get_session_info`: a bare status without a session; otherwise the count is the log's length. */
    method GetSessionInfo(now: Instant) returns (info: SessionInfo)
      requires Valid()
      ensures currentSessionId.None? <==> info == NoActiveSession
      ensures info.ActiveSession? ==>
        && info.sessionId == currentSessionId.value
        && info.startTime == sessionStartTime.value
        && info.messageCount == |messages|
        && info.durationMicros == now - info.startTime
    {
      if currentSessionId.None? {
        return NoActiveSession;
      }
      var start := sessionStartTime.value;
      info := ActiveSession(currentSessionId.value, start, |messages|, now - start);
    }
  }
}
