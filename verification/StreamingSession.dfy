/** The streaming session objects. Each method is one critical section of the session's lock; its
    contract says which step of StreamSpec it is. Completion and extraction sessions differ only in the
    frames they make, so `kind` stands for the choice between the two classes. */
module StreamingSession {
  import opened Wrappers
  import opened Json
  import opened SseFrames
  import opened FrameSink
  import Spec = StreamSpec

  /** The response stream of the web framework: it may refuse a frame. */
  class ResponseStream {
    ghost var calls: seq<Event>

    constructor ()
      ensures calls == []
    {
      calls := [];
    }

    method Send(frame: Frame) returns (ok: bool)
      modifies this
      ensures calls == old(calls) + [Sent(frame, ok)]
    {
      ok := *;
      calls := calls + [Sent(frame, ok)];
    }

    method Close()
      modifies this
      ensures calls == old(calls) + [Closed]
    {
      calls := calls + [Closed];
    }

    /** Sends the buffered frames in order, up to the first refusal. */
    method SendBuffered(frames: seq<Frame>) returns (failAt: Option<nat>)
      modifies this
      ensures failAt.Some? ==> failAt.value < |frames|
      ensures calls == old(calls) +
        (match failAt
         case None => AllSent(frames)
         case Some(i) => AllSent(frames[..i]) + [Sent(frames[i], false)])
    {
      var i := 0;
      while i < |frames|
        invariant i <= |frames| && calls == old(calls) + AllSent(frames[..i])
      {
        var ok := Send(frames[i]);
        if !ok {
          return Some(i);
        }
        assert AllSent(frames[..i + 1]) == AllSent(frames[..i]) + [Sent(frames[i], true)];
        i := i + 1;
      }
      assert frames[..i] == frames;
      failAt := None;
    }
  }

  lemma AttachCalls(s: Sink, failAt: Option<nat>)
    requires s.calls == [] && (failAt.Some? ==> failAt.value < |s.buffered|)
    ensures [] + Attach(s, failAt).calls == [] +
      (match failAt
       case None => AllSent(s.buffered)
       case Some(i) => AllSent(s.buffered[..i]) + [Sent(s.buffered[i], false)])
  {
  }

  /** The result body plays no part in the frames of a completion. */
  lemma EndingOfCompletion(s: Spec.Session, text: string, body: Value, frames: seq<Frame>, stop: Frame)
    requires s.kind.Completion? && s.meta.Some? && frames + [stop, Done] == Spec.FinalFrames(s, text, Null)
    ensures (frames + [stop]) + [Done] == Spec.FinalFrames(s, text, body)
  {
    assert (frames + [stop]) + [Done] == frames + [stop, Done];
  }

  class Session {
    const kind: Spec.Kind
    var metadataReady: bool
    var meta: Metadata
    var stream: ResponseStream?
    var bufferedFrames: seq<Frame>
    var pendingTokens: seq<string>
    var closing: bool
    var sentRole: bool
    var sentContent: bool

    ghost var state: Spec.Session
    ghost var attached: ResponseStream?

    ghost predicate Valid()
      reads this, attached
    {
      && state.kind == kind
      && state.meta == (if metadataReady then Some(meta) else None)
      && state.pending == pendingTokens
      && state.sentRole == sentRole && state.sentContent == sentContent
      && state.sink.stream == (stream != null)
      && state.sink.buffered == bufferedFrames
      && state.sink.closing == closing
      && state.sink.attached == (attached != null)
      && (stream != null ==> stream == attached)
      && (attached == null ==> state.sink.calls == [])
      && (attached != null ==> attached.calls == state.sink.calls)
    }

    constructor (kind: Spec.Kind)
      ensures Valid() && state == Spec.NewSession(kind)
    {
      this.kind := kind;
      metadataReady, meta := false, Metadata("", 0, "");
      stream, attached := null, null;
      bufferedFrames, pendingTokens := [], [];
      closing, sentRole, sentContent := false, false, false;
      state := Spec.NewSession(kind);
    }

    /** set_metadata up to the release of the lock; the caller pushes the tokens it gets. */
    method SetMetadata(id: string, created: int, model: string) returns (pending: seq<string>)
      requires Valid()
      modifies this
      ensures Valid() && attached == old(attached)
      ensures state == Spec.SetMetadata(old(state), Metadata(id, created, model))
      ensures pending == state.draining
    {
      meta := Metadata(id, created, model);
      metadataReady := true;
      pending, pendingTokens := pendingTokens, [];
      state := Spec.SetMetadata(state, meta);
    }

    /** push_frame_locked. `ok` is the stream's answer when it was asked. */
    method PushFrameLocked(frame: Frame) returns (shouldClose: bool, ghost ok: bool)
      requires Valid()
      modifies this, attached
      ensures Valid() && attached == old(attached)
      ensures state == old(state).(sink := PushFrame(old(state.sink), frame, ok))
      ensures shouldClose == (state.sink.cancels > old(state.sink.cancels))
      ensures metadataReady == old(metadataReady) && meta == old(meta)
    {
      shouldClose, ok := false, true;
      state := state.(sink := PushFrame(state.sink, frame, ok));
      if closing {
        return;
      }
      if stream == null {
        bufferedFrames := bufferedFrames + [frame];
        return;
      }
      var accepted := stream.Send(frame);
      ok := accepted;
      state := old(state).(sink := PushFrame(old(state.sink), frame, ok));
      if !accepted {
        closing := true;
        shouldClose := true;
      }
    }

    /** The frame for the next token; a completion remembers that it has spoken. */
    method NextTokenFrame(token: string) returns (frame: Frame)
      requires Valid() && metadataReady
      modifies this`sentRole, this`sentContent, this`state
      ensures Valid() && frame == Spec.TokenFrame(kind, meta, token, !old(state.sentRole))
      ensures state == old(state).(sentRole := old(state.sentRole) || kind.Completion?,
                                   sentContent := old(state.sentContent) || kind.Completion?)
    {
      match kind {
        case Completion =>
          frame := if !sentRole then Chunk(meta, Some(token), true, None)
                   else Chunk(meta, Some(token), false, None);
          sentRole := true;
          sentContent := true;
          state := state.(sentRole := true, sentContent := true);
        case Extraction =>
          frame := Delta(token);
      }
    }

    /** push_token behind the check of the metadata; `number` is the token's place among the arrivals. */
    method EmitToken(token: string, ghost number: nat) returns (shouldClose: bool, ghost ok: bool)
      requires Valid() && metadataReady
      modifies this, attached
      ensures Valid() && attached == old(attached)
      ensures state == Spec.EmitToken(old(state), token, number, ok)
      ensures shouldClose == (state.sink.cancels > old(state.sink.cancels))
    {
      hide Spec.TokenFrame, PushFrame;
      ghost var before := state;
      var frame := NextTokenFrame(token);
      shouldClose, ok := PushFrameLocked(frame);
      state := Spec.EmitToken(before, token, number, ok);
    }

    /** push_token, called by the agent, or by set_metadata for the next token it took (`draining`). */
    method PushToken(token: string, ghost draining: bool) returns (shouldClose: bool, ghost ok: bool)
      requires Valid()
      requires draining ==> Spec.Enabled(state, Spec.DrainStep(true)) && token == state.draining[0] && token != ""
      modifies this, attached
      ensures Valid() && attached == old(attached)
      ensures state == if draining then Spec.DrainToken(old(state), ok) else Spec.PushToken(old(state), token, ok)
    {
      shouldClose, ok := false, true;
      if token == "" {
        return;
      }
      if !metadataReady {
        pendingTokens := pendingTokens + [token];
        state := Spec.PushToken(state, token, true);
        return;
      }
      hide PushFrame, Spec.TokenFrame;
      ghost var before := state;
      ghost var number: nat := if draining then state.early - |state.draining| else |state.arrivals|;
      shouldClose, ok := EmitToken(token, number);
      state := if draining then Spec.DrainToken(before, ok) else Spec.PushToken(before, token, ok);
    }

    /** finish_success up to the release of the lock; a call of close() follows. */
    method FinishSuccess(text: string, body: Value) returns (ghost oks: seq<bool>)
      requires Valid() && metadataReady
      modifies this, attached
      ensures Valid() && attached == old(attached)
      ensures |oks| == |Spec.FinalFrames(old(state), text, body)|
      ensures state == Spec.FinishSuccess(old(state), text, body, oks)
    {
      match kind {
        case Completion => oks := FinishCompletion(text, body);
        case Extraction => oks := FinishExtraction(text, body);
      }
    }

    method FinishCompletion(text: string, body: Value) returns (ghost oks: seq<bool>)
      requires Valid() && metadataReady && kind.Completion?
      modifies this, attached
      ensures Valid() && attached == old(attached)
      ensures |oks| == |Spec.FinalFrames(old(state), text, body)|
      ensures state == Spec.FinishSuccess(old(state), text, body, oks)
    {
      ghost var before := state;
      ghost var frames: seq<Frame>;
      frames, oks := SendUnsentText(text);
      var stop := Chunk(meta, None, false, Some("stop"));
      oks := SendEnding(stop, before.sink, frames, oks);
      EndingOfCompletion(before, text, body, frames, stop);
      hide Spec.FinalFrames, SendAll;
      state := Spec.FinishSuccess(before, text, body, oks);
    }

    method FinishExtraction(text: string, body: Value) returns (ghost oks: seq<bool>)
      requires Valid() && metadataReady && kind.Extraction?
      modifies this, attached
      ensures Valid() && attached == old(attached)
      ensures |oks| == |Spec.FinalFrames(old(state), text, body)|
      ensures state == Spec.FinishSuccess(old(state), text, body, oks)
    {
      ghost var before := state;
      oks := SendEnding(ResultData(body), before.sink, [], []);
      assert ([] + [ResultData(body)]) + [Done] == Spec.FinalFrames(before, text, body);
      state := Spec.FinishSuccess(before, text, body, oks);
    }

    /** The last frame with contents, and the end marker after it. */
    method SendEnding(frame: Frame, ghost from: Sink, ghost frames: seq<Frame>, ghost before: seq<bool>)
      returns (ghost oks: seq<bool>)
      requires Valid() && |frames| == |before| && state.sink == SendAll(from, frames, before)
      modifies this, attached
      ensures Valid() && attached == old(attached) && |oks| == |frames| + 2
      ensures state == old(state).(sink := SendAll(from, (frames + [frame]) + [Done], oks))
    {
      ghost var ok := SendNext(frame, from, frames, before);
      ghost var last := SendNext(Done, from, frames + [frame], before + [ok]);
      oks := (before + [ok]) + [last];
    }

    /** One more frame of a finish: `frames` went out before it, from the sink `from` on. */
    method SendNext(frame: Frame, ghost from: Sink, ghost frames: seq<Frame>, ghost oks: seq<bool>)
      returns (ghost ok: bool)
      requires Valid() && |frames| == |oks| && state.sink == SendAll(from, frames, oks)
      modifies this, attached
      ensures Valid() && attached == old(attached)
      ensures metadataReady == old(metadataReady) && meta == old(meta)
      ensures state == old(state).(sink := SendAll(from, frames + [frame], oks + [ok]))
    {
      var shouldClose;
      shouldClose, ok := PushFrameLocked(frame);
      SendAllSnoc(from, frames, oks, frame, ok);
    }

    /** The part of finish_success that makes up for a stream without tokens. */
    method SendUnsentText(text: string) returns (ghost frames: seq<Frame>, ghost oks: seq<bool>)
      requires Valid() && metadataReady && kind.Completion?
      modifies this, attached
      ensures Valid() && attached == old(attached)
      ensures metadataReady && meta == old(meta) && |frames| == |oks|
      ensures frames + [Chunk(meta, None, false, Some("stop")), Done] == Spec.FinalFrames(old(state), text, Null)
      ensures state == old(state).(sink := SendAll(old(state.sink), frames, oks), sentRole := true,
                                   sentContent := old(state.sentContent) || text != "")
    {
      ghost var before := state;
      frames, oks := [], [];
      var unsent := NextUnsent(text);
      if unsent.Some? {
        ghost var ok := SendNext(unsent.value, before.sink, [], []);
        frames, oks := [] + [unsent.value], [] + [ok];
      }
    }

    /** The first frame that a finish owes to a stream without tokens, if any. */
    method NextUnsent(text: string) returns (frame: Option<Frame>)
      requires Valid() && metadataReady && kind.Completion?
      modifies this`sentRole, this`sentContent, this`state
      ensures Valid()
      ensures (if frame.Some? then [frame.value] else []) + [Chunk(meta, None, false, Some("stop")), Done]
              == Spec.FinalFrames(old(state), text, Null)
      ensures state == old(state).(sentRole := true, sentContent := old(state.sentContent) || text != "")
    {
      frame := None;
      if !sentRole {
        if text == "" {
          frame := Some(Chunk(meta, None, true, None));
        } else {
          frame := Some(Chunk(meta, Some(text), true, None));
          sentContent := true;
        }
        sentRole := true;
      } else if !sentContent && text != "" {
        frame := Some(Chunk(meta, Some(text), false, None));
        sentContent := true;
      }
      state := state.(sentRole := true, sentContent := sentContent);
    }

    /** finish_error up to the release of the lock; a call of close() follows. */
    method FinishError(error: Value) returns (ghost oks: seq<bool>)
      requires Valid()
      modifies this, attached
      ensures Valid() && attached == old(attached)
      ensures |oks| == |Spec.ErrorFrames(old(state), error)|
      ensures state == Spec.FinishError(old(state), error, oks)
    {
      ghost var before := state;
      oks := [];
      if kind.Extraction? || (!sentContent && !sentRole) {
        ghost var ok := SendNext(ErrorData(error), before.sink, [], []);
        oks := [] + [ok];
        assert [] + [ErrorData(error)] == Spec.ErrorFrames(before, error);
      }
      state := Spec.FinishError(before, error, oks);
    }

    /** attach_stream up to the release of the lock. */
    method AttachStream(newStream: ResponseStream) returns (shouldClose: bool, failAt: Option<nat>)
      requires Valid() && attached == null && newStream.calls == []
      modifies this, newStream
      ensures Valid() && attached == newStream
      ensures state == old(state).(sink := Attach(old(state.sink), failAt))
      ensures shouldClose == state.sink.closing
    {
      stream := newStream;
      attached := newStream;
      failAt := newStream.SendBuffered(bufferedFrames);
      AttachFields(state.sink, failAt);
      AttachCalls(state.sink, failAt);
      hide Attach, AllSent;
      assert [] + newStream.calls == newStream.calls;
      if failAt.Some? {
        closing := true;
      }
      shouldClose := closing;
      bufferedFrames := [];
      state := state.(sink := Attach(state.sink, failAt));
    }

    /** close() up to the release of the lock; the caller closes the stream it gets. `owed` tells a call
        that push_token or a finish makes from one of the disconnect handler. */
    method Close(ghost owed: bool) returns (taken: ResponseStream?)
      requires Valid() && (owed ==> state.sink.closeCallsDue > 0)
      modifies this
      ensures Valid() && attached == old(attached)
      ensures state == old(state).(sink := if owed then OwedClose(old(state.sink)) else FrameSink.Close(old(state.sink)))
      ensures taken == old(stream) && stream == null && closing
    {
      state := state.(sink := if owed then OwedClose(state.sink) else FrameSink.Close(state.sink));
      if closing && stream == null {
        return null;
      }
      closing := true;
      taken := stream;
      stream := null;
      if taken != null {
        bufferedFrames := [];
      }
    }

    /** The close of the response stream, outside the lock. */
    method CloseStream(taken: ResponseStream)
      requires Valid() && taken == attached && state.sink.streamClosesDue > 0
      modifies this, taken
      ensures Valid() && attached == old(attached)
      ensures state == old(state).(sink := FrameSink.CloseStream(old(state.sink)))
    {
      taken.Close();
      state := state.(sink := FrameSink.CloseStream(state.sink));
    }
  }
}
