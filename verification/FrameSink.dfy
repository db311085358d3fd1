/** The part both streaming sessions share: frames are buffered until the response stream is attached,
    sent directly afterwards, and dropped once the session is closing. */
module FrameSink {
  import opened SseFrames
  import opened Wrappers

  /** What the response stream object sees. */
  datatype Event = Sent(frame: Frame, ok: bool) | Closed

  /** `stream`, `buffered` and `closing` are the session's fields. The rest records the run:
      whether the stream was ever attached, every frame offered for sending, the calls on the stream,
      whether a frame was dropped or a send failed, the cancel callbacks taken because of a failed
      send, and the calls of close() on the session and on the stream that threads still owe. */
  datatype Sink = Sink(
    stream: bool, buffered: seq<Frame>, closing: bool,
    attached: bool, produced: seq<Frame>, calls: seq<Event>, lossy: bool, cancels: nat,
    closeCallsDue: nat, streamClosesDue: nat)

  function EmptySink(): Sink {
    Sink(false, [], false, false, [], [], false, 0, 0, 0)
  }

  // ---------- critical sections ----------

  /** push_frame_locked; `ok` is the answer of the stream if it is asked. */
  function PushFrame(s: Sink, frame: Frame, ok: bool): (s': Sink)
    ensures s'.cancels >= s.cancels
  {
    var s := s.(produced := s.produced + [frame]);
    if s.closing then s.(lossy := true)
    else if !s.stream then s.(buffered := s.buffered + [frame])
    else if ok then s.(calls := s.calls + [Sent(frame, true)])
    else s.(calls := s.calls + [Sent(frame, false)], closing := true, lossy := true,
            cancels := s.cancels + 1)
  }

  /** push_token behind the frame it made: a refused send obliges the thread to call close(). */
  function SendToken(s: Sink, frame: Frame, ok: bool): Sink {
    var s' := PushFrame(s, frame, ok);
    s'.(closeCallsDue := s'.closeCallsDue + (s'.cancels - s.cancels))
  }

  function SendAll(s: Sink, frames: seq<Frame>, oks: seq<bool>): Sink
    requires |frames| == |oks|
    decreases |frames|
  {
    if frames == [] then s else SendAll(PushFrame(s, frames[0], oks[0]), frames[1..], oks[1..])
  }

  lemma {:induction false} SendAllSnoc(s: Sink, frames: seq<Frame>, oks: seq<bool>, frame: Frame, ok: bool)
    requires |frames| == |oks|
    ensures SendAll(s, frames + [frame], oks + [ok]) == PushFrame(SendAll(s, frames, oks), frame, ok)
    decreases |frames|
  {
    if frames == [] {
      assert (frames + [frame])[1..] == [] && (oks + [ok])[1..] == [];
    } else {
      assert (frames + [frame])[1..] == frames[1..] + [frame] && (oks + [ok])[1..] == oks[1..] + [ok];
      SendAllSnoc(PushFrame(s, frames[0], oks[0]), frames[1..], oks[1..], frame, ok);
    }
  }

  /** finish_success and finish_error: some frames, and a call of close() in any case. */
  function SendLast(s: Sink, frames: seq<Frame>, oks: seq<bool>): Sink
    requires |frames| == |oks|
  {
    var s' := SendAll(s, frames, oks);
    s'.(closeCallsDue := s'.closeCallsDue + 1)
  }

  function AllSent(frames: seq<Frame>): seq<Event> {
    seq(|frames|, i requires 0 <= i < |frames| => Sent(frames[i], true))
  }

  /** attach_stream: the buffer is sent up to the first refusal, at position `failAt` if there is one. */
  function Attach(s: Sink, failAt: Option<nat>): Sink {
    var failed := failAt.Some? && failAt.value < |s.buffered|;
    var sent := if failed then AllSent(s.buffered[..failAt.value]) + [Sent(s.buffered[failAt.value], false)]
                else AllSent(s.buffered);
    var closing := s.closing || failed;
    s.(stream := true, attached := true, buffered := [], closing := closing, lossy := s.lossy || failed,
       calls := s.calls + sent, cancels := s.cancels + (if failed then 1 else 0),
       streamClosesDue := s.streamClosesDue + (if closing then 1 else 0))
  }

  /** close(): the stream is taken out under the lock and closed after it. */
  function Close(s: Sink): Sink {
    if s.closing && !s.stream then s
    else if s.stream then
      s.(closing := true, stream := false, buffered := [], streamClosesDue := s.streamClosesDue + 1)
    else s.(closing := true)
  }

  /** A thread that owes a call of close() makes it. */
  function OwedClose(s: Sink): Sink
    requires s.closeCallsDue > 0
  {
    Close(s.(closeCallsDue := s.closeCallsDue - 1))
  }

  /** A thread that took the stream out closes it. */
  function CloseStream(s: Sink): Sink
    requires s.streamClosesDue > 0
  {
    s.(calls := s.calls + [Closed], streamClosesDue := s.streamClosesDue - 1)
  }

  // ---------- what every step keeps ----------

  /** The frames the stream accepted, in order. */
  function Delivered(calls: seq<Event>): seq<Frame> {
    if calls == [] then []
    else
      var last := calls[|calls| - 1];
      Delivered(calls[..|calls| - 1]) + (if last.Sent? && last.ok then [last.frame] else [])
  }

  /** The number of refused sends. */
  function Refused(calls: seq<Event>): nat {
    if calls == [] then 0
    else
      var last := calls[|calls| - 1];
      Refused(calls[..|calls| - 1]) + (if last.Sent? && !last.ok then 1 else 0)
  }

  ghost predicate NoSendAfterClose(calls: seq<Event>) {
    forall i, j | 0 <= i < j < |calls| && calls[i].Closed? :: !calls[j].Sent?
  }

  ghost predicate Inv(s: Sink) {
    // Conservation: nothing is reordered, duplicated or skipped.
    && Delivered(s.calls) + s.buffered <= s.produced
    && (!s.lossy ==> Delivered(s.calls) + s.buffered == s.produced)
    && (s.lossy ==> s.closing)
    // Attaching empties the buffer for good.
    && (s.attached ==> s.buffered == [])
    && (s.stream ==> s.attached)
    && (s.attached && !s.stream ==> s.closing)
    // Only an attached stream of a closing session is closed or about to be.
    && (s.streamClosesDue > 0 || Closed in s.calls ==> s.closing && s.attached)
    && (!s.attached ==> s.calls == [])
    && NoSendAfterClose(s.calls)
    // At most one send is refused, and each refusal takes the cancel callback once.
    && s.cancels == Refused(s.calls) <= 1
    && (s.cancels == 1 ==> s.closing && s.attached)
  }

  /** The stream of a closing session is closed, or some thread is bound to close it. */
  ghost predicate WillClose(s: Sink) {
    s.attached && s.closing ==>
      s.streamClosesDue > 0 || Closed in s.calls || (s.stream && s.closeCallsDue > 0)
  }

  lemma DeliveredSnoc(calls: seq<Event>, e: Event)
    ensures Delivered(calls + [e]) == Delivered(calls) + (if e.Sent? && e.ok then [e.frame] else [])
    ensures Refused(calls + [e]) == Refused(calls) + (if e.Sent? && !e.ok then 1 else 0)
  {
    assert (calls + [e])[..|calls|] == calls;
  }

  lemma {:induction false} DeliveredAllSent(frames: seq<Frame>)
    ensures Delivered(AllSent(frames)) == frames && Refused(AllSent(frames)) == 0
    decreases |frames|
  {
    if frames != [] {
      var front := frames[..|frames| - 1];
      DeliveredAllSent(front);
      assert AllSent(frames)[..|frames| - 1] == AllSent(front);
      assert front + [frames[|frames| - 1]] == frames;
    }
  }

  lemma InitialInv()
    ensures Inv(EmptySink())
  {
  }

  lemma BufferKeepsInv(s: Sink, frame: Frame, ok: bool)
    requires Inv(s) && (s.closing || !s.stream)
    ensures Inv(PushFrame(s, frame, ok))
  {
    var sent := Delivered(s.calls);
    assert sent + (s.buffered + [frame]) == (sent + s.buffered) + [frame];
  }

  lemma NoSendSnoc(calls: seq<Event>, e: Event)
    requires NoSendAfterClose(calls) && (e.Closed? || Closed !in calls)
    ensures NoSendAfterClose(calls + [e])
  {
  }

  lemma SendKeepsInv(s: Sink, frame: Frame, ok: bool)
    requires Inv(s) && !s.closing && s.stream
    ensures Inv(PushFrame(s, frame, ok))
  {
    var sent := Delivered(s.calls);
    DeliveredSnoc(s.calls, Sent(frame, ok));
    NoSendSnoc(s.calls, Sent(frame, ok));
    assert sent + [] == sent && (sent + [frame]) + [] == sent + [frame];
  }

  lemma PushFrameKeepsInv(s: Sink, frame: Frame, ok: bool)
    requires Inv(s)
    ensures Inv(PushFrame(s, frame, ok))
  {
    if s.closing || !s.stream {
      BufferKeepsInv(s, frame, ok);
    } else {
      SendKeepsInv(s, frame, ok);
    }
  }

  /** Attaching delivers the buffered frames in order up to the first refusal, which takes the one cancel; with
      no refusal it delivers them all. */
  lemma AttachSends(s: Sink, failAt: Option<nat>)
    requires s.calls == []
    ensures var s' := Attach(s, failAt);
      && Closed !in s'.calls
      && Delivered(s'.calls) ==
         (if failAt.Some? && failAt.value < |s.buffered| then s.buffered[..failAt.value] else s.buffered)
      && Refused(s'.calls) == s'.cancels - s.cancels
      && (s'.cancels > s.cancels <==> failAt.Some? && failAt.value < |s.buffered|)
  {
    if failAt.Some? && failAt.value < |s.buffered| {
      RefusedAt(s.buffered, failAt.value);
    } else {
      DeliveredAllSent(s.buffered);
      AllSentIsOpen(s.buffered);
    }
    AttachFields(s, failAt);
    AttachedCalls(s, failAt);
    hide Delivered, Refused, AllSent, Attach;
  }

  lemma AttachedCalls(s: Sink, failAt: Option<nat>)
    requires s.calls == []
    ensures Attach(s, failAt).calls ==
      if failAt.Some? && failAt.value < |s.buffered|
      then AllSent(s.buffered[..failAt.value]) + [Sent(s.buffered[failAt.value], false)] else AllSent(s.buffered)
  {
    hide AllSent;
    assert forall calls: seq<Event> :: [] + calls == calls;
  }

  lemma AllSentIsOpen(frames: seq<Frame>)
    ensures Closed !in AllSent(frames)
  {
  }

  lemma RefusedAt(frames: seq<Frame>, i: nat)
    requires i < |frames|
    ensures var calls := AllSent(frames[..i]) + [Sent(frames[i], false)];
      Delivered(calls) == frames[..i] && Refused(calls) == 1 && Closed !in calls
  {
    var sent := AllSent(frames[..i]);
    DeliveredAllSent(frames[..i]);
    AllSentIsOpen(frames[..i]);
    DeliveredSnoc(sent, Sent(frames[i], false));
    hide Delivered, Refused, AllSent;
    assert frames[..i] + [] == frames[..i];
  }

  /** The fields of an attached session but for its calls. */
  lemma AttachFields(s: Sink, failAt: Option<nat>)
    ensures var s', failed := Attach(s, failAt), failAt.Some? && failAt.value < |s.buffered|;
      && s'.stream && s'.attached && s'.buffered == [] && s'.produced == s.produced
      && s'.closing == (s.closing || failed) && s'.lossy == (s.lossy || failed)
      && s'.cancels == s.cancels + (if failed then 1 else 0)
      && s'.closeCallsDue == s.closeCallsDue
      && s'.streamClosesDue == s.streamClosesDue + (if s'.closing then 1 else 0)
  {
    hide AllSent;
  }

  lemma NothingDelivered(s: Sink)
    requires Inv(s) && !s.attached
    ensures s.calls == [] && s.buffered <= s.produced && (!s.lossy ==> s.buffered == s.produced)
    ensures !s.stream && s.cancels == 0 && (s.lossy ==> s.closing) && s.streamClosesDue == 0
  {
    assert Delivered(s.calls) + s.buffered == s.buffered;
  }

  lemma AttachKeepsInv(s: Sink, failAt: Option<nat>)
    requires Inv(s) && !s.attached
    ensures Inv(Attach(s, failAt))
  {
    hide Delivered, Refused, AllSent, NoSendAfterClose, Attach;
    NothingDelivered(s);
    AttachSends(s, failAt);
    AttachFields(s, failAt);
    hide Inv;
    var s' := Attach(s, failAt);
    if s'.cancels == 0 {
      assert Delivered(s'.calls) == s.buffered;
    }
    PrefixOfPrefix(Delivered(s'.calls), s.buffered, s.produced);
    AttachedInv(s');
  }

  /** The invariant of a session with a stream that has only been sent to. */
  lemma AttachedInv(s: Sink)
    requires s.stream && s.attached && s.buffered == [] && Closed !in s.calls
    requires Delivered(s.calls) <= s.produced && (!s.lossy ==> Delivered(s.calls) == s.produced)
    requires (s.lossy ==> s.closing) && (s.streamClosesDue > 0 ==> s.closing)
    requires s.cancels == Refused(s.calls) <= 1 && (s.cancels == 1 ==> s.closing)
    ensures Inv(s)
  {
    hide Delivered, Refused;
    assert Delivered(s.calls) + [] == Delivered(s.calls);
  }

  lemma PrefixOfPrefix(a: seq<Frame>, b: seq<Frame>, c: seq<Frame>)
    requires a <= b <= c
    ensures a <= c && a + [] == a
  {
  }

  lemma CloseKeepsInv(s: Sink)
    requires Inv(s)
    ensures Inv(Close(s))
    ensures WillClose(s) ==> WillClose(Close(s))
    ensures Close(s).closing
  {
  }

  lemma OwedCloseKeepsInv(s: Sink)
    requires Inv(s) && s.closeCallsDue > 0
    ensures Inv(OwedClose(s))
    ensures WillClose(s) ==> WillClose(OwedClose(s))
    ensures OwedClose(s).closing
  {
  }

  lemma CloseStreamKeepsInv(s: Sink)
    requires Inv(s) && s.streamClosesDue > 0
    ensures Inv(CloseStream(s)) && WillClose(CloseStream(s))
  {
    DeliveredSnoc(s.calls, Closed);
    NoSendSnoc(s.calls, Closed);
    assert Closed in CloseStream(s).calls by { assert CloseStream(s).calls[|s.calls|] == Closed; }
  }

  lemma AttachWillClose(s: Sink, failAt: Option<nat>)
    requires Inv(s) && !s.attached
    ensures WillClose(Attach(s, failAt))
  {
  }

  lemma SendTokenKeepsInv(s: Sink, frame: Frame, ok: bool)
    requires Inv(s) && WillClose(s)
    ensures var s' := SendToken(s, frame, ok);
      Inv(s') && WillClose(s') && s'.produced == s.produced + [frame]
    ensures SendToken(s, frame, ok).closeCallsDue >= s.closeCallsDue
    ensures s.closing ==> SendToken(s, frame, ok).closing
  {
    PushFrameKeepsInv(s, frame, ok);
    ClosedSnoc(s.calls, Sent(frame, ok));
  }

  lemma ClosedSnoc(calls: seq<Event>, e: Event)
    ensures Closed in calls ==> Closed in calls + [e]
  {
  }

  lemma PushFrameEffect(s: Sink, frame: Frame, ok: bool)
    ensures var s' := PushFrame(s, frame, ok);
      && s'.produced == s.produced + [frame]
      && s'.closeCallsDue == s.closeCallsDue && s'.streamClosesDue == s.streamClosesDue
      && s'.stream == s.stream && s'.attached == s.attached
      && (Closed in s.calls ==> Closed in s'.calls)
      && (s.closing ==> s'.closing)
  {
    ClosedSnoc(s.calls, Sent(frame, ok));
  }

  lemma {:induction false} SendAllKeepsInv(s: Sink, frames: seq<Frame>, oks: seq<bool>)
    requires |frames| == |oks| && Inv(s)
    ensures var s' := SendAll(s, frames, oks);
      && Inv(s') && s'.produced == s.produced + frames
      && s'.closeCallsDue == s.closeCallsDue && s'.streamClosesDue == s.streamClosesDue
      && s'.stream == s.stream && s'.attached == s.attached
      && (Closed in s.calls ==> Closed in s'.calls)
      && (s.closing ==> s'.closing)
    decreases |frames|
  {
    hide Inv;
    hide PushFrame;
    if frames == [] {
      assert s.produced + frames == s.produced;
    } else {
      PushFrameKeepsInv(s, frames[0], oks[0]);
      PushFrameEffect(s, frames[0], oks[0]);
      var s1 := PushFrame(s, frames[0], oks[0]);
      SendAllKeepsInv(s1, frames[1..], oks[1..]);
      assert s1.produced + frames[1..] == s.produced + frames;
    }
  }

  lemma SendLastKeepsInv(s: Sink, frames: seq<Frame>, oks: seq<bool>)
    requires |frames| == |oks| && Inv(s) && WillClose(s)
    ensures var s' := SendLast(s, frames, oks);
      Inv(s') && WillClose(s') && s'.produced == s.produced + frames && s'.closeCallsDue > 0
  {
    SendAllKeepsInv(s, frames, oks);
  }
}
