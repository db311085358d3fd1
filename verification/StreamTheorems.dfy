/** What every interleaving of the streaming sessions' steps guarantees about the delivered stream. */
module StreamTheorems {
  import opened Wrappers
  import opened Json
  import opened SseFrames
  import opened FrameSink
  import opened StreamSpec
  import opened StreamRuns
  import opened SseClient

  /** Prefix, conservation, at most one cancel, and no send after a close, in every run. */
  lemma DeliveredIsPrefix(kind: Kind, steps: seq<Step>)
    requires IsRun(NewSession(kind), steps)
    ensures var s := Exec(NewSession(kind), steps);
      && Delivered(s.sink.calls) + s.sink.buffered <= Word(s)
      && Delivered(s.sink.calls) <= Word(s)
      && (!s.sink.closing ==> Delivered(s.sink.calls) + s.sink.buffered == Word(s))
      && NoSendAfterClose(s.sink.calls)
      && s.sink.cancels == Refused(s.sink.calls) <= 1
  {
    NewSessionInv(kind);
    RunKeepsInv(NewSession(kind), steps);
    var s := Exec(NewSession(kind), steps);
    assert Delivered(s.sink.calls) <= Delivered(s.sink.calls) + s.sink.buffered;
  }

  /** A stream that was attached at some time and lost nothing has delivered every produced frame. */
  lemma AttachedDeliversAll(kind: Kind, steps: seq<Step>)
    requires IsRun(NewSession(kind), steps) && Undisturbed(steps, false) && Attaches(steps)
    ensures var s := Exec(NewSession(kind), steps); Delivered(s.sink.calls) == Word(s)
  {
    NewSessionInv(kind);
    RunKeepsInv(NewSession(kind), steps);
    UndisturbedLosesNothing(kind, steps);
    AttachedByAStep(NewSession(kind), steps);
    var s := Exec(NewSession(kind), steps);
    assert Delivered(s.sink.calls) + [] == Delivered(s.sink.calls);
  }

  /** When the stream is attached makes no difference. Take two runs in which the agent's side does the same,
      with the stream attached anywhere in either: before the first token, in between or after the finish. If
      no send fails and no disconnect comes before the finish, both deliver the same sequence of frames. */
  lemma AttachTimeIsIrrelevant(kind: Kind, a: seq<Step>, b: seq<Step>)
    requires IsRun(NewSession(kind), a) && IsRun(NewSession(kind), b) && Production(a) == Production(b)
    requires Undisturbed(a, false) && Undisturbed(b, false) && Attaches(a) && Attaches(b)
    ensures Delivered(Exec(NewSession(kind), a).sink.calls) == Delivered(Exec(NewSession(kind), b).sink.calls)
  {
    AttachedDeliversAll(kind, a);
    AttachedDeliversAll(kind, b);
    StreamHasNoPartInTheWord(kind, a, b);
  }

  /** So of any undisturbed run without attachment, every place to attach delivers the same frames. */
  lemma AttachedEarlyOrLate(kind: Kind, steps: seq<Step>, i: nat, j: nat)
    requires IsRun(NewSession(kind), steps) && Undisturbed(steps, false) && !Attaches(steps)
    requires i <= |steps| && j <= |steps|
    ensures IsRun(NewSession(kind), WithAttachAt(steps, i)) && IsRun(NewSession(kind), WithAttachAt(steps, j))
    ensures Delivered(Exec(NewSession(kind), WithAttachAt(steps, i)).sink.calls) ==
            Delivered(Exec(NewSession(kind), WithAttachAt(steps, j)).sink.calls)
  {
    AttachAnywhere(kind, steps, i);
    AttachAnywhere(kind, steps, j);
    AttachTimeIsIrrelevant(kind, WithAttachAt(steps, i), WithAttachAt(steps, j));
  }

  /** Once the session is finished and no thread owes a close any more, an attached stream has been
      closed, at least once. */
  lemma FinishedStreamIsClosed(kind: Kind, steps: seq<Step>)
    requires IsRun(NewSession(kind), steps)
    requires var s := Exec(NewSession(kind), steps);
      !s.outcome.Pending? && s.sink.attached && s.sink.closeCallsDue == 0 && s.sink.streamClosesDue == 0
    ensures Closed in Exec(NewSession(kind), steps).sink.calls
  {
    NewSessionInv(kind);
    RunKeepsInv(NewSession(kind), steps);
  }

  /** Every non-empty token that arrived is waiting for the metadata, waiting in the drain, or has
      exactly one frame; early and late tokens keep their order among themselves; and the frames stand
      in order of arrival exactly when no token was pushed inside the drain. */
  lemma EachTokenHasOneFrame(kind: Kind, steps: seq<Step>)
    requires IsRun(NewSession(kind), steps)
    ensures var s := Exec(NewSession(kind), steps);
      && (s.meta.None? ==> s.pending == s.arrivals && s.sink.produced == [])
      && (s.meta.Some? ==>
            && LastEarly(s.draining, s.arrivals, s.early)
            && OrderOk(s.order, s.early, s.early - |s.draining|, |s.arrivals|, s.overtaken)
            && s.sink.produced ==
               TokenFrames(kind, s.meta.value, Pick(s.arrivals, s.order))
               + Ending(kind, s.meta.value, s.order == [], s.outcome))
  {
    NewSessionInv(kind);
    RunKeepsInv(NewSession(kind), steps);
    ExecKeepsKind(NewSession(kind), steps);
  }

  lemma {:induction false} ExecKeepsKind(s: Session, steps: seq<Step>)
    requires IsRun(s, steps)
    ensures Exec(s, steps).kind == s.kind
    decreases |steps|
  {
    if steps != [] { ExecKeepsKind(Apply(s, steps[0]), steps[1..]); }
  }

  // ---------- the grammar of the delivered stream ----------

  ghost predicate IsStop(f: Frame) {
    f.Chunk? && f.finish == Some("stop")
  }

  /** Positions, not runs: the role stands in the first frame only; an error stands alone; the stop
      chunk is last or followed by Done; Done is last and follows a stop chunk. */
  ghost predicate CompletionGrammar(w: seq<Frame>) {
    && (forall i | 0 <= i < |w| :: w[i].Chunk? || w[i].Done? || (w[i].ErrorData? && |w| == 1))
    && (forall i | 0 <= i < |w| && w[i].Chunk? :: w[i].role <==> i == 0)
    && (forall i | 0 <= i < |w| && w[i].Chunk? && w[i].finish.Some? ::
          IsStop(w[i]) && w[i].content == None && 0 < i && |w| - 2 <= i)
    && (forall i | 0 <= i < |w| && w[i].Done? :: i == |w| - 1 && 0 < i && IsStop(w[i - 1]))
    && (forall i | 0 < i < |w| && w[i].Chunk? && w[i].finish.None? :: w[i].content.Some?)
  }

  ghost predicate ExtractionGrammar(w: seq<Frame>) {
    && (forall i | 0 <= i < |w| :: !w[i].Chunk?)
    && (forall i | 0 <= i < |w| && w[i].ErrorData? :: i == |w| - 1)
    && (forall i | 0 <= i < |w| && w[i].ResultData? :: |w| - 2 <= i)
    && (forall i | 0 <= i < |w| && w[i].Done? :: i == |w| - 1 && 0 < i && w[i - 1].ResultData?)
  }

  ghost predicate Grammar(kind: Kind, w: seq<Frame>) {
    match kind
    case Completion => CompletionGrammar(w)
    case Extraction => ExtractionGrammar(w)
  }

  lemma WordGrammar(s: Session)
    ensures Grammar(s.kind, Word(s))
  {
    if s.meta.Some? {
      var tokens := Pick(s.arrivals, s.order);
      CompletionWord(s.meta.value, tokens, s.outcome);
      ExtractionWord(s.meta.value, tokens, s.outcome);
      hide CompletionGrammar, ExtractionGrammar, TokenFrames, Ending;
    }
  }

  lemma CompletionWord(meta: Metadata, tokens: seq<string>, outcome: Outcome)
    ensures CompletionGrammar(TokenFrames(Completion, meta, tokens) + Ending(Completion, meta, tokens == [], outcome))
  {
  }

  lemma ExtractionWord(meta: Metadata, tokens: seq<string>, outcome: Outcome)
    ensures ExtractionGrammar(TokenFrames(Extraction, meta, tokens) + Ending(Extraction, meta, tokens == [], outcome))
  {
  }

  lemma GrammarOfPrefix(kind: Kind, w: seq<Frame>, prefix: seq<Frame>)
    requires Grammar(kind, w) && prefix <= w
    ensures Grammar(kind, prefix)
  {
    assert forall i | 0 <= i < |prefix| :: prefix[i] == w[i];
  }

  /** In every run the delivered stream obeys the grammar at every moment. */
  lemma DeliveredGrammar(kind: Kind, steps: seq<Step>)
    requires IsRun(NewSession(kind), steps)
    ensures Grammar(kind, Delivered(Exec(NewSession(kind), steps).sink.calls))
  {
    var s := Exec(NewSession(kind), steps);
    DeliveredIsPrefix(kind, steps);
    ExecKeepsKind(NewSession(kind), steps);
    WordGrammar(s);
    GrammarOfPrefix(kind, Word(s), Delivered(s.sink.calls));
  }

  // ---------- the content of the delivered stream ----------

  function Text(tokens: seq<string>): string {
    if tokens == [] then "" else tokens[0] + Text(tokens[1..])
  }

  lemma {:induction false} ContentsOfAppend(a: seq<Frame>, b: seq<Frame>)
    ensures Contents(a + b) == Contents(a) + Contents(b)
    decreases |a|
  {
    if a == [] {
      assert a + b == b;
    } else {
      assert (a + b)[0] == a[0] && (a + b)[1..] == a[1..] + b;
      ContentsOfAppend(a[1..], b);
    }
  }

  lemma {:induction false} ContentsOfChunks(frames: seq<Frame>, tokens: seq<string>)
    requires |frames| == |tokens|
    requires forall i | 0 <= i < |tokens| ::
      frames[i].Chunk? && frames[i].content == Some(tokens[i])
    ensures Contents(frames) == Text(tokens)
    decreases |frames|
  {
    if frames != [] {
      ChunkContent(frames[0].meta, frames[0].content, frames[0].role, frames[0].finish);
      ContentsOfChunks(frames[1..], tokens[1..]);
    }
  }

  lemma ContentsOfStop(meta: Metadata)
    ensures Contents([Chunk(meta, None, false, Some("stop")), Done]) == ""
  {
    var stop := Chunk(meta, None, false, Some("stop"));
    ChunkContent(meta, None, false, Some("stop"));
    assert [stop, Done][1..] == [Done] && [Done][1..] == [];
    assert Contents([Done]) == "";
  }

  lemma ContentsOfEnding(meta: Metadata, silent: bool, outcome: Outcome)
    requires outcome.Succeeded?
    ensures Contents(Ending(Completion, meta, silent, outcome)) == if silent then outcome.text else ""
  {
    var stop := [Chunk(meta, None, false, Some("stop")), Done];
    ContentsOfStop(meta);
    if silent {
      var content := if outcome.text == "" then None else Some(outcome.text);
      var first := [Chunk(meta, content, true, None)];
      ContentsOfAppend(first, stop);
      ChunkContent(meta, content, true, None);
      assert first[1..] == [];
      assert Contents(first) == outcome.text;
    } else {
      assert [] + stop == stop;
    }
  }

  /** A successful completion says its tokens, or the response text if there were none. */
  lemma ContentsOfWord(s: Session)
    requires s.kind.Completion? && s.meta.Some? && s.outcome.Succeeded?
    ensures Contents(Word(s)) ==
            if s.order == [] then s.outcome.text else Text(Pick(s.arrivals, s.order))
  {
    var tokens := Pick(s.arrivals, s.order);
    var frames := TokenFrames(Completion, s.meta.value, tokens);
    var ending := Ending(Completion, s.meta.value, s.order == [], s.outcome);
    ContentsOfAppend(frames, ending);
    ContentsOfChunks(frames, tokens);
    ContentsOfEnding(s.meta.value, s.order == [], s.outcome);
    if s.order == [] {
      assert Contents(frames) == "";
    }
  }

  lemma PickInOrder(arrivals: seq<string>)
    ensures Pick(arrivals, Range(0, |arrivals|)) == arrivals
  {
  }

  /** End to end, from the steps of the run. A completion ran in any interleaving, the agent succeeded, the
      stream was attached at some time, no send failed and no disconnect came before the finish. Then the
      client, reading the delivered bytes in any chunks, ends with every payload in order and with the agent's
      tokens as the assistant's text, in the order of their frames, or with the response text if no
      non-empty token came. */
  lemma ClientSeesAllTokens(steps: seq<Step>, text: string, body: Value, oks: seq<bool>, chunks: seq<string>)
    requires IsRun(NewSession(Completion), steps) && SuccessStep(text, body, oks) in steps
    requires Undisturbed(steps, false) && Attaches(steps)
    requires Concat(chunks) == Wire(Delivered(Exec(NewSession(Completion), steps).sink.calls))
    ensures var s := Exec(NewSession(Completion), steps);
      && ClientOf(Concat(chunks)) ==
         Client(RawFrames(Word(s)), if Tokens(steps) == [] then text else Text(Pick(Tokens(steps), s.order)))
      && |s.order| == |Tokens(steps)|
  {
    var s := Exec(NewSession(Completion), steps);
    NewSessionInv(Completion);
    RunKeepsInv(NewSession(Completion), steps);
    ExecKeepsKind(NewSession(Completion), steps);
    FinishIsTheOutcome(NewSession(Completion), steps, SuccessStep(text, body, oks));
    ArrivalsAreTokens(NewSession(Completion), steps);
    assert [] + Tokens(steps) == Tokens(steps);
    AttachedDeliversAll(Completion, steps);
    ClientOfWire(Word(s), chunks);
    ContentsOfWord(s);
    hide Word, Wire, ClientOf, Contents, RawFrames, Inv, Pick;
  }

  /** And if no token was pushed while set_metadata was draining, the text is the agent's tokens in the order
      in which they were pushed. */
  lemma ClientSeesTheTokens(steps: seq<Step>, text: string, body: Value, oks: seq<bool>, chunks: seq<string>)
    requires IsRun(NewSession(Completion), steps) && SuccessStep(text, body, oks) in steps
    requires Undisturbed(steps, false) && Attaches(steps) && PushesOutsideDrain(steps, 0, 0, false)
    requires Concat(chunks) == Wire(Delivered(Exec(NewSession(Completion), steps).sink.calls))
    ensures ClientOf(Concat(chunks)) ==
            Client(RawFrames(Word(Exec(NewSession(Completion), steps))),
                   if Tokens(steps) == [] then text else Text(Tokens(steps)))
  {
    ClientSeesAllTokens(steps, text, body, oks, chunks);
    NoOvertakingIff(Completion, steps);
    OrderOfArrival(Completion, steps);
    PickInOrder(Tokens(steps));
  }

  // ---------- what stands on the wire, payload by payload ----------

  /** The stream's text in any chunks, of an attached run without disturbance and without overtaking. */
  ghost predicate ReadsWhole(kind: Kind, steps: seq<Step>, chunks: seq<string>) {
    && IsRun(NewSession(kind), steps) && Undisturbed(steps, false) && Attaches(steps)
    && PushesOutsideDrain(steps, 0, 0, false)
    && Concat(chunks) == Wire(Delivered(Exec(NewSession(kind), steps).sink.calls))
  }

  /** The payload behind "data: " in an event of the client's list. */
  function EventPayload(raw: string): Option<string> {
    if "data: " <= raw then Some(raw[6..]) else None
  }

  function EventValue(raw: string): Option<Value> {
    match EventPayload(raw)
    case Some(text) => Parse(text)
    case None => None
  }

  /** The payloads the client has read, each with the frame it was made from. */
  ghost predicate AreEvents(events: seq<string>, frames: seq<Frame>) {
    |events| == |frames| && forall i | 0 <= i < |frames| :: EventPayload(events[i]) == Some(Payload(frames[i]))
  }

  lemma {:induction false} RawFramesAreEvents(frames: seq<Frame>)
    ensures AreEvents(RawFrames(frames), frames)
    decreases |frames|
  {
    hide Payload;
    if frames != [] {
      RawFramesAreEvents(frames[1..]);
      assert forall i | 0 < i < |frames| :: RawFrames(frames)[i] == RawFrames(frames[1..])[i - 1] && frames[i] == frames[1..][i - 1];
      assert ("data: " + Payload(frames[0]))[6..] == Payload(frames[0]);
    }
  }

  lemma WordInOrder(s: Session)
    requires Conserves(s) && FlagsOk(s) && !s.outcome.Pending? && !s.overtaken
    ensures s.meta.Some?
    ensures Word(s) == TokenFrames(s.kind, s.meta.value, s.arrivals) + Ending(s.kind, s.meta.value, s.arrivals == [], s.outcome)
  {
    PickInOrder(s.arrivals);
    hide TokenFrames, Ending, Pick, Below, From;
  }

  /** What a finished run has produced, by its steps. */
  lemma FinishedWord(kind: Kind, steps: seq<Step>, finish: Step)
    requires IsRun(NewSession(kind), steps) && finish in steps && IsFinish(finish)
    requires PushesOutsideDrain(steps, 0, 0, false)
    ensures var s := Exec(NewSession(kind), steps);
      && s.meta.Some? && SetMetadataStep(s.meta.value) in steps
      && Word(s) == TokenFrames(kind, s.meta.value, Tokens(steps))
                    + Ending(kind, s.meta.value, Tokens(steps) == [], OutcomeOf(finish))
  {
    assert NewSession(kind).kind == kind && NewSession(kind).meta.None? && NewSession(kind).arrivals == [];
    assert [] + Tokens(steps) == Tokens(steps);
    assert !OutcomeOf(finish).Pending?;
    hide *;
    NewSessionInv(kind);
    RunKeepsInv(NewSession(kind), steps);
    ExecKeepsKind(NewSession(kind), steps);
    FinishIsTheOutcome(NewSession(kind), steps, finish);
    MetaIsTheOneSet(NewSession(kind), steps);
    ArrivalsAreTokens(NewSession(kind), steps);
    NoOvertakingIff(kind, steps);
    InvParts(Exec(NewSession(kind), steps));
    WordInOrder(Exec(NewSession(kind), steps));
  }

  lemma InvParts(s: Session)
    requires SessionInv(s)
    ensures Conserves(s) && FlagsOk(s)
  {
  }

  lemma ClientReadsTheWord(kind: Kind, steps: seq<Step>, finish: Step, chunks: seq<string>) returns (meta: Metadata)
    requires ReadsWhole(kind, steps, chunks) && finish in steps && IsFinish(finish)
    ensures ClientOf(Concat(chunks)).Client? && SetMetadataStep(meta) in steps
    ensures AreEvents(ClientOf(Concat(chunks)).rawFrames,
                      TokenFrames(kind, meta, Tokens(steps)) + Ending(kind, meta, Tokens(steps) == [], OutcomeOf(finish)))
  {
    AttachedDeliversAll(kind, steps);
    FinishedWord(kind, steps, finish);
    meta := Exec(NewSession(kind), steps).meta.value;
    var word := Word(Exec(NewSession(kind), steps));
    ClientOfWire(word, chunks);
    RawFramesAreEvents(word);
    hide Word, Wire, ClientOf, Contents, RawFrames, AreEvents, TokenFrames, Ending;
  }

  /** An extraction on the wire: one object for each token, in the order in which they were pushed, with the token
      under "delta"; then the body of the result and the end marker; or, if the agent failed, the error. */
  lemma ClientReadsTheDeltas(steps: seq<Step>, finish: Step, chunks: seq<string>)
    requires ReadsWhole(Extraction, steps, chunks) && finish in steps && IsFinish(finish)
    ensures var client, tokens := ClientOf(Concat(chunks)), Tokens(steps);
      && client.Client? && |client.rawFrames| == |tokens| + (if finish.SuccessStep? then 2 else 1)
      && (forall i | 0 <= i < |tokens| ::
            EventValue(client.rawFrames[i]) == Some(Obj([Field("delta", Str(tokens[i]))])))
      && EventValue(client.rawFrames[|tokens|]) == Some(if finish.SuccessStep? then finish.body else finish.error)
      && (finish.SuccessStep? ==> EventPayload(client.rawFrames[|tokens| + 1]) == Some("[DONE]"))
  {
    hide *;
    var meta := ClientReadsTheWord(Extraction, steps, finish, chunks);
    DeltaEvents(ClientOf(Concat(chunks)).rawFrames, meta, Tokens(steps), finish);
  }

  lemma DeltaEvents(events: seq<string>, meta: Metadata, tokens: seq<string>, finish: Step)
    requires IsFinish(finish)
    requires AreEvents(events, TokenFrames(Extraction, meta, tokens) + Ending(Extraction, meta, tokens == [], OutcomeOf(finish)))
    ensures |events| == |tokens| + (if finish.SuccessStep? then 2 else 1)
    ensures forall i | 0 <= i < |tokens| :: EventValue(events[i]) == Some(Obj([Field("delta", Str(tokens[i]))]))
    ensures EventValue(events[|tokens|]) == Some(if finish.SuccessStep? then finish.body else finish.error)
    ensures finish.SuccessStep? ==> EventPayload(events[|tokens| + 1]) == Some("[DONE]")
  {
    hide Parse, Payload;
    ghost var frames := TokenFrames(Extraction, meta, tokens) + Ending(Extraction, meta, tokens == [], OutcomeOf(finish));
    forall i | 0 <= i < |tokens|
      ensures EventValue(events[i]) == Some(Obj([Field("delta", Str(tokens[i]))]))
    {
      assert frames[i] == Delta(tokens[i]);
      BodyReadsBack(frames[i]);
    }
    BodyReadsBack(frames[|tokens|]);
    if finish.SuccessStep? { PayloadStart(frames[|tokens| + 1]); }
  }

  /** A completion on the wire: one chunk for each token, in the order in which they were pushed, all with the
      metadata of the one call of set_metadata, the first with the role; the response text in their place if
      there were none; then the stop chunk and the end marker. A completion that fails ends after its tokens,
      or with the error alone. */
  lemma ClientReadsTheChunks(steps: seq<Step>, finish: Step, meta: Metadata, chunks: seq<string>)
    requires ReadsWhole(Completion, steps, chunks) && finish in steps && IsFinish(finish) && SetMetadataStep(meta) in steps
    ensures var client, tokens := ClientOf(Concat(chunks)), Tokens(steps);
      && client.Client?
      && |client.rawFrames| == (if tokens == [] then 1 else |tokens|) + (if finish.SuccessStep? then 2 else 0)
      && (forall i | 0 <= i < |tokens| ::
            SaysChunk(client.rawFrames[i], Chunk(meta, Some(tokens[i]), i == 0, None)))
      && (tokens == [] ==>
            if finish.ErrorStep? then EventValue(client.rawFrames[0]) == Some(finish.error)
            else SaysChunk(client.rawFrames[0], Chunk(meta, if finish.text == "" then None else Some(finish.text), true, None)))
      && (finish.SuccessStep? ==>
            && SaysChunk(client.rawFrames[|client.rawFrames| - 2], Chunk(meta, None, false, Some("stop")))
            && EventPayload(client.rawFrames[|client.rawFrames| - 1]) == Some("[DONE]"))
  {
    assert NewSession(Completion).meta.None?;
    hide *;
    var given := ClientReadsTheWord(Completion, steps, finish, chunks);
    MetaIsTheOneSet(NewSession(Completion), steps);
    ChunkEvents(ClientOf(Concat(chunks)).rawFrames, meta, Tokens(steps), finish);
  }

  lemma ChunkEvents(events: seq<string>, meta: Metadata, tokens: seq<string>, finish: Step)
    requires IsFinish(finish)
    requires AreEvents(events, TokenFrames(Completion, meta, tokens) + Ending(Completion, meta, tokens == [], OutcomeOf(finish)))
    ensures |events| == (if tokens == [] then 1 else |tokens|) + (if finish.SuccessStep? then 2 else 0)
    ensures forall i | 0 <= i < |tokens| :: SaysChunk(events[i], Chunk(meta, Some(tokens[i]), i == 0, None))
    ensures tokens == [] ==>
      if finish.ErrorStep? then EventValue(events[0]) == Some(finish.error)
      else SaysChunk(events[0], Chunk(meta, if finish.text == "" then None else Some(finish.text), true, None))
    ensures finish.SuccessStep? ==>
      && SaysChunk(events[|events| - 2], Chunk(meta, None, false, Some("stop")))
      && EventPayload(events[|events| - 1]) == Some("[DONE]")
  {
    hide Parse, Payload, SaysChunk;
    ghost var frames := TokenFrames(Completion, meta, tokens) + Ending(Completion, meta, tokens == [], OutcomeOf(finish));
    EventsSayChunks(events, frames);
    assert forall i | 0 <= i < |tokens| :: frames[i] == Chunk(meta, Some(tokens[i]), i == 0, None);
    if tokens == [] && finish.ErrorStep? { BodyReadsBack(frames[0]); }
    if finish.SuccessStep? { PayloadStart(frames[|frames| - 1]); }
  }

  /** The event parses to a chunk whose fields, read by their names, are these. */
  ghost predicate SaysChunk(raw: string, chunk: Frame) {
    EventValue(raw).Some? && ReadChunk(EventValue(raw).value) == Some(chunk)
  }

  lemma EventsSayChunks(events: seq<string>, frames: seq<Frame>)
    requires AreEvents(events, frames)
    ensures forall i | 0 <= i < |frames| && frames[i].Chunk? :: SaysChunk(events[i], frames[i])
  {
    hide Payload, Parse, ReadChunk;
    forall i | 0 <= i < |frames| && frames[i].Chunk? ensures SaysChunk(events[i], frames[i]) {
      ChunkReadsBack(frames[i].meta, frames[i].content, frames[i].role, frames[i].finish);
    }
  }

  lemma OrderOfArrival(kind: Kind, steps: seq<Step>)
    requires IsRun(NewSession(kind), steps) && !Exec(NewSession(kind), steps).overtaken
    ensures var s := Exec(NewSession(kind), steps); s.order == Range(0, |s.order|)
  {
    NewSessionInv(kind);
    RunKeepsInv(NewSession(kind), steps);
  }

  /** The overtaking is real: a run in which a late token is framed before an early one. */
  lemma OvertakingHappens(meta: Metadata)
    ensures exists steps ::
      && IsRun(NewSession(Completion), steps)
      && var s := Exec(NewSession(Completion), steps);
         && s.overtaken && s.arrivals == ["a", "b"] && s.order == [1, 0]
         && s.sink.produced == [Chunk(meta, Some("b"), true, None), Chunk(meta, Some("a"), false, None)]
  {
    var s1 := Apply(NewSession(Completion), PushStep("a", true));
    var s2 := Apply(s1, SetMetadataStep(meta));
    var s3 := Apply(s2, PushStep("b", true));
    var s4 := Apply(s3, DrainStep(true));
    RunCons(s3, DrainStep(true), []);
    RunCons(s2, PushStep("b", true), [DrainStep(true)]);
    RunCons(s1, SetMetadataStep(meta), [PushStep("b", true)] + [DrainStep(true)]);
    var rest := [SetMetadataStep(meta)] + ([PushStep("b", true)] + [DrainStep(true)]);
    RunCons(NewSession(Completion), PushStep("a", true), rest);
    var steps := [PushStep("a", true)] + rest;
    assert IsRun(NewSession(Completion), steps) && Exec(NewSession(Completion), steps) == s4;
    assert s4.order == [1, 0];
  }

  lemma RunCons(s: Session, step: Step, rest: seq<Step>)
    requires Enabled(s, step) && IsRun(Apply(s, step), rest)
    ensures IsRun(s, [step] + rest) && Exec(s, [step] + rest) == Exec(Apply(s, step), rest)
    ensures [step] + [] == [step]
  {
    assert ([step] + rest)[1..] == rest;
  }
}
