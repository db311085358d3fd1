/** The streaming sessions as a step system. One step is one critical section of the session's lock, or
    one close of the response stream, which happens outside it; steps of all threads interleave freely. */
module StreamSpec {
  import opened Wrappers
  import opened Json
  import opened SseFrames
  import opened FrameSink

  datatype Kind = Completion | Extraction

  datatype Outcome = Pending | Succeeded(text: string, body: Value) | FailedWith(error: Value)

  /** `meta`, `pending`, `sentRole`, `sentContent` and `sink` hold the fields; `draining` is what the
      thread in set_metadata has taken from `pending` and not pushed yet. The rest records the run:
      the non-empty tokens in order of arrival, how many of them came before the metadata, the arrival
      numbers in the order their frames were made, whether a token was pushed inside the drain, and
      how the session was finished. */
  datatype Session = Session(
    kind: Kind, sink: Sink, meta: Option<Metadata>, pending: seq<string>, draining: seq<string>,
    sentRole: bool, sentContent: bool,
    arrivals: seq<string>, early: nat, order: seq<nat>, overtaken: bool, outcome: Outcome)

  function NewSession(kind: Kind): Session {
    Session(kind, EmptySink(), None, [], [], false, false, [], 0, [], false, Pending)
  }

  // ---------- critical sections ----------

  /** set_metadata up to the release of the lock. */
  function SetMetadata(s: Session, meta: Metadata): Session {
    s.(meta := Some(meta), draining := s.pending, pending := [], early := |s.arrivals|)
  }

  function TokenFrame(kind: Kind, meta: Metadata, token: string, first: bool): Frame {
    match kind
    case Completion => Chunk(meta, Some(token), first, None)
    case Extraction => Delta(token)
  }

  /** The locked part of push_token once the metadata is known. */
  function EmitToken(s: Session, token: string, number: nat, ok: bool): Session
    requires s.meta.Some?
  {
    s.(sink := SendToken(s.sink, TokenFrame(s.kind, s.meta.value, token, !s.sentRole), ok),
       sentRole := s.sentRole || s.kind.Completion?,
       sentContent := s.sentContent || s.kind.Completion?,
       order := s.order + [number])
  }

  /** push_token, called by the agent. */
  function PushToken(s: Session, token: string, ok: bool): Session {
    if token == "" then s
    else if s.meta.None? then s.(pending := s.pending + [token], arrivals := s.arrivals + [token])
    else
      var s' := EmitToken(s, token, |s.arrivals|, ok);
      s'.(arrivals := s.arrivals + [token], overtaken := s.overtaken || s.draining != [])
  }

  /** push_token, called by set_metadata for the next of the tokens it took. */
  function DrainToken(s: Session, ok: bool): Session
    requires s.meta.Some? && s.draining != [] && |s.draining| <= s.early
  {
    EmitToken(s, s.draining[0], s.early - |s.draining|, ok).(draining := s.draining[1..])
  }

  /** The frames finish_success sends. */
  function FinalFrames(s: Session, text: string, body: Value): seq<Frame>
    requires s.meta.Some?
  {
    var meta := s.meta.value;
    match s.kind
    case Completion =>
      (if !s.sentRole then
         [Chunk(meta, if text == "" then None else Some(text), true, None)]
       else if !s.sentContent && text != "" then [Chunk(meta, Some(text), false, None)]
       else [])
      + [Chunk(meta, None, false, Some("stop")), Done]
    case Extraction => [ResultData(body), Done]
  }

  function FinishSuccess(s: Session, text: string, body: Value, oks: seq<bool>): Session
    requires s.meta.Some? && |oks| == |FinalFrames(s, text, body)|
  {
    s.(sink := SendLast(s.sink, FinalFrames(s, text, body), oks),
       sentContent := s.sentContent || (s.kind.Completion? && text != ""),
       sentRole := s.sentRole || s.kind.Completion?,
       outcome := Succeeded(text, body))
  }

  /** The frame finish_error sends; a completion that already said something ends without one. */
  function ErrorFrames(s: Session, error: Value): seq<Frame> {
    if s.kind.Completion? && (s.sentContent || s.sentRole) then [] else [ErrorData(error)]
  }

  function FinishError(s: Session, error: Value, oks: seq<bool>): Session
    requires |oks| == |ErrorFrames(s, error)|
  {
    s.(sink := SendLast(s.sink, ErrorFrames(s, error), oks), outcome := FailedWith(error))
  }

  // ---------- the step system ----------

  /** `ok`, `oks` and `failAt` are the answers of the stream. */
  datatype Step =
    | SetMetadataStep(meta: Metadata)
    | PushStep(token: string, ok: bool)
    | DrainStep(ok: bool)
    | SuccessStep(text: string, body: Value, oks: seq<bool>)
    | ErrorStep(error: Value, oks: seq<bool>)
    | AttachStep(failAt: Option<nat>)
    | DisconnectStep
    | OwedCloseStep
    | CloseStreamStep

  /** The controllers set the metadata once, finish once, after the drain and after the last token, and
      hand over the stream once; a disconnect may happen at any time. */
  predicate Enabled(s: Session, step: Step) {
    match step
    case SetMetadataStep(_) => s.meta.None?
    case PushStep(_, _) => s.outcome.Pending?
    case DrainStep(_) => s.meta.Some? && 0 < |s.draining| <= s.early
    case SuccessStep(text, body, oks) =>
      s.meta.Some? && s.draining == [] && s.outcome.Pending? && |oks| == |FinalFrames(s, text, body)|
    case ErrorStep(error, oks) =>
      s.meta.Some? && s.draining == [] && s.outcome.Pending? && |oks| == |ErrorFrames(s, error)|
    case AttachStep(_) => !s.sink.attached
    case DisconnectStep => true
    case OwedCloseStep => s.sink.closeCallsDue > 0
    case CloseStreamStep => s.sink.streamClosesDue > 0
  }

  function Apply(s: Session, step: Step): Session
    requires Enabled(s, step)
  {
    match step
    case SetMetadataStep(meta) => SetMetadata(s, meta)
    case PushStep(token, ok) => PushToken(s, token, ok)
    case DrainStep(ok) => DrainToken(s, ok)
    case SuccessStep(text, body, oks) => FinishSuccess(s, text, body, oks)
    case ErrorStep(error, oks) => FinishError(s, error, oks)
    case AttachStep(failAt) => s.(sink := Attach(s.sink, failAt))
    case DisconnectStep => s.(sink := Close(s.sink))
    case OwedCloseStep => s.(sink := OwedClose(s.sink))
    case CloseStreamStep => s.(sink := CloseStream(s.sink))
  }

  predicate IsRun(s: Session, steps: seq<Step>)
    decreases |steps|
  {
    steps == [] || (Enabled(s, steps[0]) && IsRun(Apply(s, steps[0]), steps[1..]))
  }

  function Exec(s: Session, steps: seq<Step>): Session
    requires IsRun(s, steps)
    decreases |steps|
  {
    if steps == [] then s else Exec(Apply(s, steps[0]), steps[1..])
  }

  // ---------- what the produced frames are ----------

  function Range(from: nat, to: nat): seq<nat>
    requires from <= to
  {
    seq(to - from, i requires 0 <= i < to - from => from + i)
  }

  /** The numbers below `p`, and those from `p` on, in their order. */
  function Below(order: seq<nat>, p: nat): seq<nat> {
    if order == [] then []
    else
      var last := order[|order| - 1];
      Below(order[..|order| - 1], p) + (if last < p then [last] else [])
  }

  function From(order: seq<nat>, p: nat): seq<nat> {
    if order == [] then []
    else
      var last := order[|order| - 1];
      From(order[..|order| - 1], p) + (if last >= p then [last] else [])
  }

  function Pick(arrivals: seq<string>, order: seq<nat>): seq<string> {
    seq(|order|, i requires 0 <= i < |order| =>
      if order[i] < |arrivals| then arrivals[order[i]] else "")
  }

  function TokenFrames(kind: Kind, meta: Metadata, tokens: seq<string>): seq<Frame> {
    seq(|tokens|, i requires 0 <= i < |tokens| => TokenFrame(kind, meta, tokens[i], i == 0))
  }

  function Ending(kind: Kind, meta: Metadata, silent: bool, outcome: Outcome): seq<Frame> {
    match (kind, outcome)
    case (_, Pending) => []
    case (Completion, Succeeded(text, _)) =>
      (if silent then [Chunk(meta, if text == "" then None else Some(text), true, None)] else [])
      + [Chunk(meta, None, false, Some("stop")), Done]
    case (Completion, FailedWith(error)) => if silent then [ErrorData(error)] else []
    case (Extraction, Succeeded(_, body)) => [ResultData(body), Done]
    case (Extraction, FailedWith(error)) => [ErrorData(error)]
  }

  /** The whole stream: one frame for every token, in the order `order`, and the ending. */
  function Word(s: Session): seq<Frame> {
    match s.meta
    case None => []
    case Some(meta) =>
      TokenFrames(s.kind, meta, Pick(s.arrivals, s.order))
      + Ending(s.kind, meta, s.order == [], s.outcome)
  }

  // ---------- invariants ----------

  /** Of `arrived` tokens, `early` of them before the metadata, the first `drained` and all the late
      ones have their frame. */
  ghost predicate OrderOk(order: seq<nat>, early: nat, drained: nat, arrived: nat, overtaken: bool) {
    && drained <= early <= arrived
    && |order| == drained + (arrived - early)
    && Below(order, early) == Range(0, drained)
    && From(order, early) == Range(early, arrived)
    && (!overtaken <==> order == Range(0, |order|))
    && (!overtaken && drained < early ==> arrived == early)
  }

  /** What is being drained are the last of the early tokens. */
  ghost predicate LastEarly(draining: seq<string>, arrivals: seq<string>, early: nat) {
    |draining| <= early <= |arrivals| && draining == arrivals[early - |draining|..early]
  }

  ghost predicate NonEmpty(tokens: seq<string>) {
    forall i | 0 <= i < |tokens| :: tokens[i] != ""
  }

  ghost predicate Bounded(order: seq<nat>, n: nat) {
    forall i | 0 <= i < |order| :: order[i] < n
  }

  /** Every token that arrived is waiting, or being drained, or was turned into exactly one frame; both
      the early and the late tokens keep their order, and the full order of arrival is kept exactly
      when no token was pushed inside the drain. */
  ghost predicate Conserves(s: Session) {
    && (s.meta.None? ==>
          s.pending == s.arrivals && s.draining == [] && s.order == [] && s.early == 0 && !s.overtaken)
    && (s.meta.Some? ==>
          && s.pending == []
          && LastEarly(s.draining, s.arrivals, s.early)
          && OrderOk(s.order, s.early, s.early - |s.draining|, |s.arrivals|, s.overtaken))
    && NonEmpty(s.arrivals) && Bounded(s.order, |s.arrivals|)
  }

  ghost predicate FlagsOk(s: Session) {
    && (s.outcome.Pending? ==> s.sentRole == s.sentContent == (s.kind.Completion? && s.order != []))
    && (!s.outcome.Pending? ==>
          && s.meta.Some? && s.draining == []
          && (s.sink.closing || s.sink.closeCallsDue > 0))
  }

  ghost predicate SessionInv(s: Session) {
    && Inv(s.sink) && WillClose(s.sink)
    && Conserves(s) && FlagsOk(s)
    && s.sink.produced == Word(s)
  }

  // ---------- every step keeps them ----------

  lemma NewSessionInv(kind: Kind)
    ensures SessionInv(NewSession(kind))
  {
  }

  lemma SplitSnoc(order: seq<nat>, n: nat, p: nat)
    ensures Below(order + [n], p) == Below(order, p) + (if n < p then [n] else [])
    ensures From(order + [n], p) == From(order, p) + (if n >= p then [n] else [])
  {
    assert (order + [n])[..|order|] == order;
  }

  lemma RangeSnoc(from: nat, to: nat)
    requires from <= to
    ensures Range(from, to) + [to] == Range(from, to + 1)
  {
  }

  lemma RangeIffSnoc(order: seq<nat>, n: nat)
    ensures order + [n] == Range(0, |order| + 1) <==> order == Range(0, |order|) && n == |order|
  {
    if order == Range(0, |order|) && n == |order| {
      RangeSnoc(0, |order|);
    }
    if order + [n] == Range(0, |order| + 1) {
      assert (order + [n])[|order|] == Range(0, |order| + 1)[|order|];
      forall i | 0 <= i < |order|
        ensures order[i] == i
      {
        assert (order + [n])[i] == Range(0, |order| + 1)[i];
      }
    }
  }

  lemma PickSnoc(arrivals: seq<string>, order: seq<nat>, n: nat)
    requires n < |arrivals|
    ensures Pick(arrivals, order + [n]) == Pick(arrivals, order) + [arrivals[n]]
  {
  }

  lemma PickGrown(arrivals: seq<string>, token: string, order: seq<nat>)
    requires forall i | 0 <= i < |order| :: order[i] < |arrivals|
    ensures Pick(arrivals + [token], order) == Pick(arrivals, order)
  {
  }

  lemma TokenFramesSnoc(kind: Kind, meta: Metadata, tokens: seq<string>, token: string)
    ensures TokenFrames(kind, meta, tokens + [token]) ==
            TokenFrames(kind, meta, tokens) + [TokenFrame(kind, meta, token, tokens == [])]
  {
  }

  /** A frame for arrival number `n`, whose token is among the arrivals. */
  lemma EmitKeepsWord(s: Session, token: string, n: nat, ok: bool)
    requires Inv(s.sink) && WillClose(s.sink) && FlagsOk(s) && s.sink.produced == Word(s)
    requires s.meta.Some? && s.outcome.Pending? && n < |s.arrivals| && s.arrivals[n] == token
    ensures var s' := EmitToken(s, token, n, ok);
      && Inv(s'.sink) && WillClose(s'.sink) && s'.sink.produced == Word(s')
      && s'.sentRole == s'.sentContent == s.kind.Completion?
  {
    var frame := TokenFrame(s.kind, s.meta.value, token, !s.sentRole);
    SendTokenKeepsInv(s.sink, frame, ok);
    PickSnoc(s.arrivals, s.order, n);
    TokenFramesSnoc(s.kind, s.meta.value, Pick(s.arrivals, s.order), token);
  }

  lemma LateToken(order: seq<nat>, early: nat, drained: nat, arrived: nat, overtaken: bool)
    requires OrderOk(order, early, drained, arrived, overtaken)
    ensures OrderOk(order + [arrived], early, drained, arrived + 1, overtaken || drained < early)
  {
    SplitSnoc(order, arrived, early);
    RangeSnoc(early, arrived);
    RangeIffSnoc(order, arrived);
  }

  lemma EarlyToken(order: seq<nat>, early: nat, drained: nat, arrived: nat, overtaken: bool)
    requires OrderOk(order, early, drained, arrived, overtaken) && drained < early
    ensures OrderOk(order + [drained], early, drained + 1, arrived, overtaken)
  {
    SplitSnoc(order, drained, early);
    RangeSnoc(0, drained);
    RangeIffSnoc(order, drained);
  }

  lemma LatePushConserves(s: Session, s': Session, token: string)
    requires Conserves(s) && token != "" && s.meta.Some?
    requires s'.meta == s.meta && s'.pending == s.pending && s'.draining == s.draining && s'.early == s.early
    requires s'.arrivals == s.arrivals + [token] && s'.order == s.order + [|s.arrivals|]
    requires s'.overtaken == (s.overtaken || s.draining != [])
    ensures Conserves(s')
  {
    LateToken(s.order, s.early, s.early - |s.draining|, |s.arrivals|, s.overtaken);
    LateArrival(s.draining, s.arrivals, s.early, s.order, token);
  }

  lemma LateArrival(draining: seq<string>, arrivals: seq<string>, early: nat, order: seq<nat>, token: string)
    requires LastEarly(draining, arrivals, early) && NonEmpty(arrivals) && Bounded(order, |arrivals|) && token != ""
    ensures LastEarly(draining, arrivals + [token], early) && NonEmpty(arrivals + [token])
    ensures Bounded(order + [|arrivals|], |arrivals| + 1)
  {
  }

  lemma EarlyPushConserves(s: Session, token: string, ok: bool)
    requires Conserves(s) && token != "" && s.meta.None?
    ensures Conserves(PushToken(s, token, ok))
  {
  }

  lemma DrainConserves(s: Session, s': Session)
    requires Conserves(s) && s.meta.Some? && s.draining != []
    requires s'.meta == s.meta && s'.pending == s.pending && s'.draining == s.draining[1..] && s'.early == s.early
    requires s'.arrivals == s.arrivals && s'.order == s.order + [s.early - |s.draining|]
    requires s'.overtaken == s.overtaken
    ensures Conserves(s')
  {
    EarlyToken(s.order, s.early, s.early - |s.draining|, |s.arrivals|, s.overtaken);
  }

  lemma LatePushKeepsWord(s: Session, token: string, ok: bool)
    requires SessionInv(s) && s.outcome.Pending? && s.meta.Some? && token != ""
    ensures var s' := PushToken(s, token, ok);
      Inv(s'.sink) && WillClose(s'.sink) && s'.sink.produced == Word(s') && FlagsOk(s')
  {
    PickGrown(s.arrivals, token, s.order);
    EmitKeepsWord(s.(arrivals := s.arrivals + [token]), token, |s.arrivals|, ok);
  }

  lemma PushKeepsInv(s: Session, token: string, ok: bool)
    requires SessionInv(s) && s.outcome.Pending?
    ensures SessionInv(PushToken(s, token, ok))
  {
    if token != "" && s.meta.None? {
      EarlyPushConserves(s, token, ok);
    } else if token != "" {
      LatePushConserves(s, PushToken(s, token, ok), token);
      LatePushKeepsWord(s, token, ok);
    }
  }

  lemma DrainKeepsInv(s: Session, ok: bool)
    requires SessionInv(s) && s.meta.Some? && s.draining != []
    ensures SessionInv(DrainToken(s, ok))
  {
    DrainConserves(s, DrainToken(s, ok));
    HeadOfDrain(s);
    DrainKeepsWord(s, ok);
  }

  lemma HeadOfDrain(s: Session)
    requires Conserves(s) && s.meta.Some? && s.draining != []
    ensures var n := s.early - |s.draining|;
      0 <= n < |s.arrivals| && s.arrivals[n] == s.draining[0]
  {
  }

  lemma DrainKeepsWord(s: Session, ok: bool)
    requires Inv(s.sink) && WillClose(s.sink) && FlagsOk(s) && s.sink.produced == Word(s)
    requires s.meta.Some? && 0 < |s.draining| <= s.early
    requires s.early - |s.draining| < |s.arrivals| && s.arrivals[s.early - |s.draining|] == s.draining[0]
    ensures var s' := DrainToken(s, ok);
      Inv(s'.sink) && WillClose(s'.sink) && s'.sink.produced == Word(s') && FlagsOk(s')
  {
    EmitKeepsWord(s, s.draining[0], s.early - |s.draining|, ok);
  }

  lemma FinalFramesAreEnding(s: Session, text: string, body: Value)
    requires FlagsOk(s) && s.meta.Some? && s.outcome.Pending?
    ensures FinalFrames(s, text, body) == Ending(s.kind, s.meta.value, s.order == [], Succeeded(text, body))
  {
  }

  lemma ErrorFramesAreEnding(s: Session, error: Value)
    requires FlagsOk(s) && s.meta.Some? && s.outcome.Pending?
    ensures ErrorFrames(s, error) == Ending(s.kind, s.meta.value, s.order == [], FailedWith(error))
  {
  }

  /** A finish: what was produced gets its ending. */
  lemma FinishKeepsInv(s: Session, s': Session, outcome: Outcome)
    requires SessionInv(s) && s.meta.Some? && s.draining == [] && s.outcome.Pending? && !outcome.Pending?
    requires s'.meta == s.meta && s'.pending == s.pending && s'.draining == s.draining && s'.kind == s.kind
    requires s'.arrivals == s.arrivals && s'.early == s.early && s'.order == s.order && s'.overtaken == s.overtaken
    requires s'.outcome == outcome && Inv(s'.sink) && WillClose(s'.sink) && s'.sink.closeCallsDue > 0
    requires s'.sink.produced == s.sink.produced + Ending(s.kind, s.meta.value, s.order == [], outcome)
    ensures SessionInv(s')
  {
    hide Inv, WillClose, OrderOk, Ending;
    var tokens := TokenFrames(s.kind, s.meta.value, Pick(s.arrivals, s.order));
    assert Ending(s.kind, s.meta.value, s.order == [], Pending) == [] by { EmptyEnding(s.kind, s.meta.value, s.order == []); }
    assert s.sink.produced == tokens;
  }

  lemma EmptyEnding(kind: Kind, meta: Metadata, silent: bool)
    ensures Ending(kind, meta, silent, Pending) == []
  {
  }

  lemma SuccessKeepsInv(s: Session, text: string, body: Value, oks: seq<bool>)
    requires SessionInv(s) && Enabled(s, SuccessStep(text, body, oks))
    ensures SessionInv(FinishSuccess(s, text, body, oks))
  {
    SendLastKeepsInv(s.sink, FinalFrames(s, text, body), oks);
    FinalFramesAreEnding(s, text, body);
    hide Inv, WillClose, SendLast, Ending, Conserves, FinalFrames;
    FinishKeepsInv(s, FinishSuccess(s, text, body, oks), Succeeded(text, body));
  }

  lemma ErrorKeepsInv(s: Session, error: Value, oks: seq<bool>)
    requires SessionInv(s) && Enabled(s, ErrorStep(error, oks))
    ensures SessionInv(FinishError(s, error, oks))
  {
    SendLastKeepsInv(s.sink, ErrorFrames(s, error), oks);
    ErrorFramesAreEnding(s, error);
    hide Inv, WillClose, SendLast, Ending, Conserves, ErrorFrames;
    FinishKeepsInv(s, FinishError(s, error, oks), FailedWith(error));
  }

  lemma OthersIgnoreSink(s: Session, sink: Sink)
    ensures Conserves(s) ==> Conserves(s.(sink := sink))
    ensures Word(s.(sink := sink)) == Word(s)
  {
  }

  lemma SinkStepKeepsInv(s: Session, sink: Sink)
    requires SessionInv(s) && Inv(sink) && WillClose(sink) && sink.produced == s.sink.produced
    requires !s.outcome.Pending? ==> sink.closing || sink.closeCallsDue > 0
    ensures SessionInv(s.(sink := sink))
  {
    OthersIgnoreSink(s, sink);
    assert FlagsOk(s.(sink := sink));
  }

  lemma MetadataKeepsInv(s: Session, meta: Metadata)
    requires SessionInv(s) && s.meta.None?
    ensures SessionInv(SetMetadata(s, meta))
  {
    var s' := SetMetadata(s, meta);
    assert s'.draining == s'.arrivals[s'.early - |s'.draining|..s'.early];
  }

  lemma StepKeepsInv(s: Session, step: Step)
    requires SessionInv(s) && Enabled(s, step)
    ensures SessionInv(Apply(s, step))
  {
    match step
    case SetMetadataStep(meta) => MetadataKeepsInv(s, meta);
    case PushStep(token, ok) => PushKeepsInv(s, token, ok);
    case DrainStep(ok) => DrainKeepsInv(s, ok);
    case SuccessStep(text, body, oks) => SuccessKeepsInv(s, text, body, oks);
    case ErrorStep(error, oks) => ErrorKeepsInv(s, error, oks);
    case AttachStep(failAt) =>
      AttachKeepsInv(s.sink, failAt);
      AttachWillClose(s.sink, failAt);
      SinkStepKeepsInv(s, Attach(s.sink, failAt));
    case DisconnectStep =>
      CloseKeepsInv(s.sink);
      SinkStepKeepsInv(s, Close(s.sink));
    case OwedCloseStep =>
      OwedCloseKeepsInv(s.sink);
      SinkStepKeepsInv(s, OwedClose(s.sink));
    case CloseStreamStep =>
      CloseStreamKeepsInv(s.sink);
      SinkStepKeepsInv(s, CloseStream(s.sink));
  }

  lemma {:induction false} RunKeepsInv(s: Session, steps: seq<Step>)
    requires SessionInv(s) && IsRun(s, steps)
    ensures SessionInv(Exec(s, steps))
    decreases |steps|
  {
    if steps != [] {
      StepKeepsInv(s, steps[0]);
      RunKeepsInv(Apply(s, steps[0]), steps[1..]);
    }
  }
}
