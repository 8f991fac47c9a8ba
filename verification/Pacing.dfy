/** The read side of a chat connection (internal/chat/client.go): which incoming frames reach the hub.

    A frame is what one read of the socket yields, with the clock reading and the answer of the timeout
    lookup taken for it (a failed lookup answers false, as the code lets the message through). Text is a
    sequence of bytes, one per character. The zero time `lastMsgAt` starts from is `Never`. */
module Pacing {

  datatype Frame = Frame(at: int, parses: bool, kind: string, text: string, timedOut: bool)
  datatype Message = Message(text: string, at: int)
  datatype Reference = Never | At(time: int)

  predicate IsChat(f: Frame) {
    f.parses && f.kind == "chat" && f.text != ""
  }

  predicate Due(last: Reference, interval: int, now: int) {
    last.At? ==> now - last.time >= interval
  }

  predicate Accepts(last: Reference, interval: int, f: Frame) {
    IsChat(f) && Due(last, interval, f.at) && !f.timedOut
  }

  /** The reference time after one frame. */
  function Step(last: Reference, interval: int, f: Frame): Reference {
    if Accepts(last, interval, f) then At(f.at) else last
  }

  function Truncated(text: string, maxLen: nat): string {
    if |text| > maxLen then text[..maxLen] else text
  }

  /** The messages a pump whose last message was at `last` broadcasts for these frames. */
  function Sent(last: Reference, interval: int, maxLen: nat, frames: seq<Frame>): seq<Message>
    decreases |frames|
  {
    if frames == [] then []
    else if Accepts(last, interval, frames[0]) then
      [Message(Truncated(frames[0].text, maxLen), frames[0].at)] + Sent(At(frames[0].at), interval, maxLen, frames[1..])
    else Sent(last, interval, maxLen, frames[1..])
  }

  function LastAccepted(last: Reference, interval: int, frames: seq<Frame>): Reference
    decreases |frames|
  {
    if frames == [] then last
    else LastAccepted(Step(last, interval, frames[0]), interval, frames[1..])
  }

  /** When such a pump tells its client that it is timed out. */
  function Noticed(last: Reference, interval: int, frames: seq<Frame>): seq<int>
    decreases |frames|
  {
    if frames == [] then []
    else
      var f, rest := frames[0], frames[1..];
      if IsChat(f) && Due(last, interval, f.at) && f.timedOut then [f.at] + Noticed(last, interval, rest)
      else Noticed(Step(last, interval, f), interval, rest)
  }

  class Client {
    const maxMsgLen: nat
    const interval: int
    var lastMsgAt: Reference

    constructor (maxMsgLen: nat, interval: int)
      ensures this.maxMsgLen == maxMsgLen && this.interval == interval && lastMsgAt == Never
    {
      this.maxMsgLen, this.interval, lastMsgAt := maxMsgLen, interval, Never;
    }

    /** The pump's loop until the read fails. `notices` are the times a "you are timed out" reply was offered. */
    method ReadPump(frames: seq<Frame>) returns (broadcast: seq<Message>, notices: seq<int>)
      modifies this`lastMsgAt
      ensures broadcast == Sent(old(lastMsgAt), interval, maxMsgLen, frames)
      ensures lastMsgAt == LastAccepted(old(lastMsgAt), interval, frames)
      ensures notices == Noticed(old(lastMsgAt), interval, frames)
    {
      broadcast, notices := [], [];
      var i := 0;
      while i < |frames|
        invariant 0 <= i <= |frames|
        invariant broadcast + Sent(lastMsgAt, interval, maxMsgLen, frames[i..]) ==
                  Sent(old(lastMsgAt), interval, maxMsgLen, frames)
        invariant LastAccepted(lastMsgAt, interval, frames[i..]) == LastAccepted(old(lastMsgAt), interval, frames)
        invariant notices + Noticed(lastMsgAt, interval, frames[i..]) == Noticed(old(lastMsgAt), interval, frames)
      {
        var f := frames[i];
        assert frames[i..][1..] == frames[i + 1..];
        i := i + 1;
        if !f.parses {
          continue;
        }
        if f.kind != "chat" || f.text == "" {
          continue;
        }
        var text := f.text;
        if |text| > maxMsgLen {
          text := text[..maxMsgLen];
        }
        var now := f.at;
        if lastMsgAt.At? && now - lastMsgAt.time < interval {
          continue;
        }
        if f.timedOut {
          notices := notices + [now];
          continue;
        }
        lastMsgAt := At(now);
        broadcast := broadcast + [Message(text, now)];
      }
      assert frames[i..] == [];
    }
  }

  // ---- What a whole run broadcasts ----

  predicate Clocked(last: Reference, frames: seq<Frame>) {
    && (forall i, j :: 0 <= i < j < |frames| ==> frames[i].at <= frames[j].at)
    && (last.At? ==> forall i :: 0 <= i < |frames| ==> last.time <= frames[i].at)
  }

  function CountIn(sent: seq<Message>, lo: int, hi: int): nat {
    if sent == [] then 0 else CountIn(sent[1..], lo, hi) + if lo <= sent[0].at <= hi then 1 else 0
  }

  /** Accepted messages are at least one interval apart, and after the one the run started from. */
  lemma {:induction false} SpacedApart(last: Reference, interval: int, maxLen: nat, frames: seq<Frame>)
    requires Clocked(last, frames) && interval > 0
    ensures Spaced(Sent(last, interval, maxLen, frames), interval)
    ensures last.At? ==> StartsBy(Sent(last, interval, maxLen, frames), last.time + interval)
    decreases |frames|
  {
    if frames != [] {
      if Accepts(last, interval, frames[0]) {
        SpacedApart(At(frames[0].at), interval, maxLen, frames[1..]);
      } else {
        SpacedApart(last, interval, maxLen, frames[1..]);
      }
    }
  }

  predicate Spaced(sent: seq<Message>, interval: int) {
    forall i, j :: 0 <= i < j < |sent| ==> sent[j].at - sent[i].at >= interval
  }

  predicate StartsBy(sent: seq<Message>, lo: int) {
    forall i :: 0 <= i < |sent| ==> sent[i].at >= lo
  }

  lemma {:induction false} SpacingCounts(sent: seq<Message>, interval: int, lo: int, hi: int)
    requires interval > 0 && Spaced(sent, interval)
    ensures CountIn(sent, lo, hi) > 0 ==> lo <= hi && (CountIn(sent, lo, hi) - 1) * interval <= hi - lo
  {
    if sent != [] {
      var rest := sent[1..];
      if lo <= sent[0].at <= hi {
        var next := sent[0].at + interval;
        SpacingCounts(rest, interval, next, hi);
        CountFrom(rest, lo, next, hi);
        var n := CountIn(rest, lo, hi);
        assert n * interval == (n - 1) * interval + interval;
      } else {
        SpacingCounts(rest, interval, lo, hi);
      }
    }
  }

  lemma {:induction false} CountFrom(sent: seq<Message>, lo: int, lo': int, hi: int)
    requires lo <= lo' && StartsBy(sent, lo')
    ensures CountIn(sent, lo, hi) == CountIn(sent, lo', hi)
  {
    if sent != [] {
      CountFrom(sent[1..], lo, lo', hi);
    }
  }

  lemma {:induction false} MoreMultiples(k: nat, q: int, d: int)
    requires d > 0
    ensures (q + k) * d >= q * d
  {
  }

  lemma QuotientBound(n: int, d: int, t: int)
    requires d > 0 && n * d <= t
    ensures n <= t / d
  {
    var q := t / d + 1;
    assert q * d == (t / d) * d + d;
    MoreMultiples(if n >= q then n - q else 0, q, d);
  }

  /** In any closed interval of length t, at most t / interval + 1 messages are broadcast. */
  lemma RateBound(last: Reference, interval: int, maxLen: nat, frames: seq<Frame>, a: int, t: nat)
    requires Clocked(last, frames) && interval > 0
    ensures CountIn(Sent(last, interval, maxLen, frames), a, a + t) <= t / interval + 1
  {
    var n := CountIn(Sent(last, interval, maxLen, frames), a, a + t);
    SpacedApart(last, interval, maxLen, frames);
    SpacingCounts(Sent(last, interval, maxLen, frames), interval, a, a + t);
    if n > 0 {
      QuotientBound(n - 1, interval, t);
    }
  }

  // ---- What one frame's fate depends on ----

  /** A run can be cut anywhere: the rest starts from the reference time reached. */
  lemma {:induction false} SentConcat(last: Reference, interval: int, maxLen: nat, a: seq<Frame>, b: seq<Frame>)
    ensures Sent(last, interval, maxLen, a + b) ==
            Sent(last, interval, maxLen, a) + Sent(LastAccepted(last, interval, a), interval, maxLen, b)
    decreases |a|
  {
    hide Accepts, Truncated;
    if a == [] {
      assert a + b == b;
    } else {
      SentConcat(Step(last, interval, a[0]), interval, maxLen, a[1..], b);
      assert (a + b)[0] == a[0] && (a + b)[1..] == a[1..] + b;
    }
  }

  lemma SentCons(last: Reference, interval: int, maxLen: nat, f: Frame, post: seq<Frame>)
    ensures Sent(last, interval, maxLen, [f] + post) ==
            (if Accepts(last, interval, f) then [Message(Truncated(f.text, maxLen), f.at)] else []) +
            Sent(Step(last, interval, f), interval, maxLen, post)
  {
    hide Accepts, Truncated;
    assert ([f] + post)[1..] == post;
  }

  /** A frame the pump rejects, as too early, timed out or not chat, leaves no trace: later frames fare as if
      it had never been read. */
  lemma RejectedLeavesNoTrace(last: Reference, interval: int, maxLen: nat, pre: seq<Frame>, f: Frame, post: seq<Frame>)
    requires !Accepts(LastAccepted(last, interval, pre), interval, f)
    ensures Sent(last, interval, maxLen, pre + [f] + post) == Sent(last, interval, maxLen, pre + post)
  {
    hide Sent, LastAccepted, Accepts;
    assert pre + [f] + post == pre + ([f] + post);
    SentConcat(last, interval, maxLen, pre, [f] + post);
    SentCons(LastAccepted(last, interval, pre), interval, maxLen, f, post);
    SentConcat(last, interval, maxLen, pre, post);
  }

  /** The pump's reference time is that of the last message it broadcast. */
  lemma {:induction false} ReferenceIsLastSent(last: Reference, interval: int, maxLen: nat, frames: seq<Frame>)
    ensures var sent := Sent(last, interval, maxLen, frames);
            LastAccepted(last, interval, frames) == if sent == [] then last else At(sent[|sent| - 1].at)
    decreases |frames|
  {
    if frames != [] {
      ReferenceIsLastSent(Step(last, interval, frames[0]), interval, maxLen, frames[1..]);
    }
  }

  /** On a clock that does not go back, it is the latest of them and of the one the run started from. */
  lemma {:induction false} ReferenceIsLatest(last: Reference, interval: int, maxLen: nat, frames: seq<Frame>)
    requires Clocked(last, frames)
    ensures var end := LastAccepted(last, interval, frames);
            && (last.At? ==> end.At? && last.time <= end.time)
            && (forall m :: m in Sent(last, interval, maxLen, frames) ==> end.At? && m.at <= end.time)
    decreases |frames|
  {
    if frames != [] {
      ReferenceIsLatest(Step(last, interval, frames[0]), interval, maxLen, frames[1..]);
    }
  }

  /** A message broadcast before frame k, or the one the run started from, is less than one interval older than it. */
  ghost predicate Recent(last: Reference, interval: int, maxLen: nat, frames: seq<Frame>, k: nat)
    requires k < |frames|
  {
    || (exists m :: m in Sent(last, interval, maxLen, frames[..k]) && frames[k].at - m.at < interval)
    || (last.At? && frames[k].at - last.time < interval)
  }

  /** Nothing is held back without cause, and on a clock that does not go back everything is with it: a chat frame
      that is not timed out is broadcast, right after what was broadcast before it, if and only if no message broadcast
      before it, nor the one the run started from, is less than one interval older. */
  lemma BroadcastUnlessRecent(last: Reference, interval: int, maxLen: nat, frames: seq<Frame>, k: nat)
    requires k < |frames| && IsChat(frames[k]) && !frames[k].timedOut
    ensures var before, upTo := Sent(last, interval, maxLen, frames[..k]), Sent(last, interval, maxLen, frames[..k + 1]);
            && (!Recent(last, interval, maxLen, frames, k) ==>
                  upTo == before + [Message(Truncated(frames[k].text, maxLen), frames[k].at)])
            && (Clocked(last, frames) && Recent(last, interval, maxLen, frames, k) ==> upTo == before)
            && upTo <= Sent(last, interval, maxLen, frames)
  {
    var pre, upTo := frames[..k], frames[..k + 1];
    assert upTo == pre + [frames[k]] && frames == upTo + frames[k + 1..];
    SentConcat(last, interval, maxLen, pre, [frames[k]]);
    SentConcat(last, interval, maxLen, upTo, frames[k + 1..]);
    ReferenceIsLastSent(last, interval, maxLen, pre);
    if Clocked(last, frames) {
      ReferenceIsLatest(last, interval, maxLen, pre);
    }
  }

  lemma {:induction false} NoticedConcat(last: Reference, interval: int, a: seq<Frame>, b: seq<Frame>)
    ensures Noticed(last, interval, a + b) ==
            Noticed(last, interval, a) + Noticed(LastAccepted(last, interval, a), interval, b)
    decreases |a|
  {
    if a == [] {
      assert a + b == b;
    } else {
      NoticedConcat(Step(last, interval, a[0]), interval, a[1..], b);
      assert (a + b)[0] == a[0] && (a + b)[1..] == a[1..] + b;
      NoticedCons(last, interval, a[0], a[1..]);
      NoticedCons(last, interval, a[0], a[1..] + b);
      assert [a[0]] + a[1..] == a && [a[0]] + (a[1..] + b) == a + b;
    }
  }

  lemma NoticedCons(last: Reference, interval: int, f: Frame, post: seq<Frame>)
    ensures var rest := Noticed(Step(last, interval, f), interval, post);
            Noticed(last, interval, [f] + post) ==
            if IsChat(f) && Due(last, interval, f.at) && f.timedOut then [f.at] + rest else rest
  {
    assert ([f] + post)[1..] == post;
  }

  /** What frame k adds to the broadcasts and to the notices, by what it is and by when the last message was accepted:
      nothing if it does not parse, is no chat, is empty or comes too early; a notice if its client is timed out; and
      otherwise its text, or the first `maxLen` bytes of it. */
  lemma FrameFate(last: Reference, interval: int, maxLen: nat, frames: seq<Frame>, k: nat)
    requires k < |frames|
    ensures var f, reference := frames[k], LastAccepted(last, interval, frames[..k]);
            var sent, sent' := Sent(last, interval, maxLen, frames[..k]), Sent(last, interval, maxLen, frames[..k + 1]);
            var told, told' := Noticed(last, interval, frames[..k]), Noticed(last, interval, frames[..k + 1]);
            var dropped := !f.parses || f.kind != "chat" || |f.text| == 0 ||
                           (reference.At? && f.at - reference.time < interval);
            && (dropped ==> sent' == sent && told' == told)
            && (!dropped && f.timedOut ==> sent' == sent && told' == told + [f.at])
            && (!dropped && !f.timedOut ==>
                  told' == told && sent' == sent + [Message(if |f.text| > maxLen then f.text[..maxLen] else f.text, f.at)])
  {
    var pre, upTo := frames[..k], frames[..k + 1];
    assert upTo == pre + [frames[k]];
    SentConcat(last, interval, maxLen, pre, [frames[k]]);
    NoticedConcat(last, interval, pre, [frames[k]]);
  }
}
