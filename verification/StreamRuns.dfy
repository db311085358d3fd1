/** Runs of a streaming session, told by their steps alone: what the agent said, whether the stream was
    disturbed, and that attaching and closing have no part in what is produced. */
module StreamRuns {
  import opened Wrappers
  import opened Json
  import opened SseFrames
  import opened FrameSink
  import opened StreamSpec

  predicate IsFinish(step: Step) {
    step.SuccessStep? || step.ErrorStep?
  }

  /** The step is one of the stream's side: it attaches or closes. */
  predicate IsStreamSide(step: Step) {
    step.AttachStep? || step.DisconnectStep? || step.OwedCloseStep? || step.CloseStreamStep?
  }

  // ---------- nothing is lost without a cause ----------

  predicate AllTrue(oks: seq<bool>) {
    forall i | 0 <= i < |oks| :: oks[i]
  }

  /** The stream accepts every frame the step sends. */
  predicate IsAccepted(step: Step) {
    match step
    case PushStep(_, ok) => ok
    case DrainStep(ok) => ok
    case SuccessStep(_, _, oks) => AllTrue(oks)
    case ErrorStep(_, oks) => AllTrue(oks)
    case AttachStep(failAt) => failAt.None?
    case _ => true
  }

  /** No send fails, and no disconnect comes before the finish. */
  predicate Undisturbed(steps: seq<Step>, finished: bool) {
    steps == [] ||
    (&& IsAccepted(steps[0])
     && (steps[0].DisconnectStep? ==> finished)
     && Undisturbed(steps[1..], finished || IsFinish(steps[0])))
  }

  /** Nothing was lost, and before the finish nothing closes. */
  ghost predicate Quiet(s: Session) {
    && !s.sink.lossy
    && (s.outcome.Pending? ==> !s.sink.closing && s.sink.closeCallsDue == 0)
    && (!s.outcome.Pending? ==> s.meta.Some? && s.draining == [])
  }

  lemma {:induction false} AcceptedSendAll(s: Sink, frames: seq<Frame>, oks: seq<bool>)
    requires |frames| == |oks| && AllTrue(oks) && !s.lossy && !s.closing
    ensures !SendAll(s, frames, oks).lossy && !SendAll(s, frames, oks).closing
    decreases |frames|
  {
    if frames != [] {
      AcceptedSendAll(PushFrame(s, frames[0], oks[0]), frames[1..], oks[1..]);
    }
  }

  lemma QuietStep(s: Session, step: Step)
    requires Quiet(s) && Enabled(s, step) && IsAccepted(step)
    requires step.DisconnectStep? ==> !s.outcome.Pending?
    ensures Quiet(Apply(s, step))
    ensures Apply(s, step).outcome.Pending? <==> s.outcome.Pending? && !IsFinish(step)
  {
    match step
    case SuccessStep(text, body, oks) => AcceptedSendAll(s.sink, FinalFrames(s, text, body), oks);
    case ErrorStep(error, oks) => AcceptedSendAll(s.sink, ErrorFrames(s, error), oks);
    case _ =>
  }

  lemma {:induction false} QuietRun(s: Session, steps: seq<Step>)
    requires Quiet(s) && IsRun(s, steps) && Undisturbed(steps, !s.outcome.Pending?)
    ensures Quiet(Exec(s, steps))
    decreases |steps|
  {
    if steps != [] {
      QuietStep(s, steps[0]);
      hide Quiet, Enabled, Apply, IsAccepted;
      QuietRun(Apply(s, steps[0]), steps[1..]);
    }
  }

  /** If every send is accepted and no disconnect comes before the finish, no frame is lost. */
  lemma UndisturbedLosesNothing(kind: Kind, steps: seq<Step>)
    requires IsRun(NewSession(kind), steps) && Undisturbed(steps, false)
    ensures !Exec(NewSession(kind), steps).sink.lossy
  {
    QuietRun(NewSession(kind), steps);
  }

  // ---------- what is produced does not depend on the stream ----------

  /** The step without the stream's answers. */
  function Said(step: Step): Step {
    match step
    case PushStep(token, _) => PushStep(token, true)
    case DrainStep(_) => DrainStep(true)
    case SuccessStep(text, body, _) => SuccessStep(text, body, [])
    case ErrorStep(error, _) => ErrorStep(error, [])
    case _ => step
  }

  /** The steps of the agent's side, without the stream's answers. */
  function Production(steps: seq<Step>): seq<Step> {
    if steps == [] then []
    else if IsStreamSide(steps[0]) then Production(steps[1..])
    else [Said(steps[0])] + Production(steps[1..])
  }

  /** The session as it would be had its frames gone nowhere. */
  function Bare(s: Session): Session {
    s.(sink := EmptySink())
  }

  /** What a step of the agent's side makes of a bare session. */
  function Told(s: Session, said: Step): Session {
    match said
    case SetMetadataStep(meta) => SetMetadata(s, meta)
    case PushStep(token, ok) => Bare(PushToken(s, token, ok))
    case DrainStep(ok) =>
      if s.meta.Some? && s.draining != [] && |s.draining| <= s.early then Bare(DrainToken(s, ok)) else s
    case SuccessStep(text, body, _) =>
      s.(sentContent := s.sentContent || (s.kind.Completion? && text != ""),
         sentRole := s.sentRole || s.kind.Completion?, outcome := Succeeded(text, body))
    case ErrorStep(error, _) => s.(outcome := FailedWith(error))
    case _ => s
  }

  function Replay(s: Session, production: seq<Step>): Session
    decreases |production|
  {
    if production == [] then s else Replay(Told(s, production[0]), production[1..])
  }

  lemma StreamSideIsSilent(s: Session, step: Step)
    requires Enabled(s, step) && IsStreamSide(step)
    ensures Bare(Apply(s, step)) == Bare(s)
  {
    hide Attach, Close, CloseStream;
  }

  lemma EmitIsTold(s: Session, token: string, number: nat, ok: bool)
    requires s.meta.Some?
    ensures Bare(EmitToken(s, token, number, ok)) == Bare(EmitToken(Bare(s), token, number, true))
  {
    hide SendToken, TokenFrame;
  }

  lemma PushIsTold(s: Session, token: string, ok: bool)
    ensures Bare(PushToken(s, token, ok)) == Bare(PushToken(Bare(s), token, true))
  {
    if s.meta.Some? { EmitIsTold(s, token, |s.arrivals|, ok); }
    hide EmitToken;
  }

  lemma DrainIsTold(s: Session, ok: bool)
    requires s.meta.Some? && 0 < |s.draining| <= s.early
    ensures Bare(DrainToken(s, ok)) == Bare(DrainToken(Bare(s), true))
  {
    EmitIsTold(s, s.draining[0], s.early - |s.draining|, ok);
    hide EmitToken;
  }

  lemma TokensAreTold(s: Session, step: Step)
    requires Enabled(s, step) && (step.PushStep? || step.DrainStep? || step.SetMetadataStep?)
    ensures Bare(Apply(s, step)) == Told(Bare(s), Said(step))
  {
    hide PushToken, DrainToken;
    match step
    case SetMetadataStep(_) =>
    case PushStep(token, ok) => PushIsTold(s, token, ok);
    case DrainStep(ok) => DrainIsTold(s, ok);
  }

  lemma FinishIsTold(s: Session, step: Step)
    requires Enabled(s, step) && IsFinish(step)
    ensures Bare(Apply(s, step)) == Told(Bare(s), Said(step))
  {
    hide SendLast, FinalFrames, ErrorFrames;
  }

  lemma ToldIsApplied(s: Session, step: Step)
    requires Enabled(s, step)
    ensures if IsStreamSide(step) then Bare(Apply(s, step)) == Bare(s)
            else Bare(Apply(s, step)) == Told(Bare(s), Said(step))
  {
    hide Apply, Enabled, Told, Bare, Said;
    if IsStreamSide(step) {
      StreamSideIsSilent(s, step);
    } else if IsFinish(step) {
      FinishIsTold(s, step);
    } else {
      TokensAreTold(s, step);
    }
  }

  lemma {:induction false} ExecIsReplay(s: Session, steps: seq<Step>)
    requires IsRun(s, steps)
    ensures Bare(Exec(s, steps)) == Replay(Bare(s), Production(steps))
    decreases |steps|
  {
    if steps != [] {
      ToldIsApplied(s, steps[0]);
      ExecIsReplay(Apply(s, steps[0]), steps[1..]);
      hide Told, Apply, Enabled, Said, Bare;
      if !IsStreamSide(steps[0]) {
        assert Production(steps)[1..] == Production(steps[1..]);
      }
    }
  }

  /** Two runs that agree but for attaching, closing and the stream's answers differ in the sink only: they
      have the same tokens, the same order, the same ending and so the same word. */
  lemma StreamHasNoPartInTheWord(kind: Kind, a: seq<Step>, b: seq<Step>)
    requires IsRun(NewSession(kind), a) && IsRun(NewSession(kind), b) && Production(a) == Production(b)
    ensures var s, t := Exec(NewSession(kind), a), Exec(NewSession(kind), b);
      t == s.(sink := t.sink) && Word(s) == Word(t)
  {
    ExecIsReplay(NewSession(kind), a);
    ExecIsReplay(NewSession(kind), b);
    var s, t := Exec(NewSession(kind), a), Exec(NewSession(kind), b);
    assert Bare(s) == Bare(t);
    assert t == Bare(t).(sink := t.sink) == s.(sink := t.sink);
    OthersIgnoreSink(s, t.sink);
  }

  // ---------- tokens, finish and attachment, from the steps ----------

  /** The non-empty tokens in the order in which the agent pushed them. */
  function Tokens(steps: seq<Step>): seq<string> {
    if steps == [] then []
    else (if steps[0].PushStep? && steps[0].token != "" then [steps[0].token] else []) + Tokens(steps[1..])
  }

  lemma {:induction false} ArrivalsAreTokens(s: Session, steps: seq<Step>)
    requires IsRun(s, steps)
    ensures Exec(s, steps).arrivals == s.arrivals + Tokens(steps)
    decreases |steps|
  {
    hide Apply, Enabled;
    if steps != [] {
      ArrivalsAfter(s, steps[0]);
      ArrivalsAreTokens(Apply(s, steps[0]), steps[1..]);
      var token := if steps[0].PushStep? && steps[0].token != "" then [steps[0].token] else [];
      assert (s.arrivals + token) + Tokens(steps[1..]) == s.arrivals + (token + Tokens(steps[1..]));
    }
  }

  lemma ArrivalsAfter(s: Session, step: Step)
    requires Enabled(s, step)
    ensures Apply(s, step).arrivals ==
            s.arrivals + (if step.PushStep? && step.token != "" then [step.token] else [])
  {
    hide PushFrame, SendAll, Attach, Close, FinalFrames, ErrorFrames;
    assert s.arrivals + [] == s.arrivals;
  }

  lemma OutcomeAfter(s: Session, step: Step)
    requires Enabled(s, step)
    ensures var s' := Apply(s, step);
      match step
      case SuccessStep(text, body, _) => s.outcome.Pending? && s'.outcome == Succeeded(text, body)
      case ErrorStep(error, _) => s.outcome.Pending? && s'.outcome == FailedWith(error)
      case _ => s'.outcome == s.outcome
    ensures Apply(s, step).sink.attached == (s.sink.attached || step.AttachStep?)
  {
    hide SendAll, FinalFrames, ErrorFrames;
    match step
    case SuccessStep(text, body, oks) => SendAllAttached(s.sink, FinalFrames(s, text, body), oks);
    case ErrorStep(error, oks) => SendAllAttached(s.sink, ErrorFrames(s, error), oks);
    case _ =>
  }

  lemma {:induction false} SendAllAttached(s: Sink, frames: seq<Frame>, oks: seq<bool>)
    requires |frames| == |oks|
    ensures SendAll(s, frames, oks).attached == s.attached
    decreases |frames|
  {
    if frames != [] { SendAllAttached(PushFrame(s, frames[0], oks[0]), frames[1..], oks[1..]); }
  }

  /** A session stays finished as it was finished. */
  lemma {:induction false} OutcomeStays(s: Session, steps: seq<Step>)
    requires IsRun(s, steps) && !s.outcome.Pending?
    ensures Exec(s, steps).outcome == s.outcome
    decreases |steps|
  {
    if steps != [] {
      OutcomeAfter(s, steps[0]);
      hide Apply, Enabled;
      OutcomeStays(Apply(s, steps[0]), steps[1..]);
    }
  }

  function OutcomeOf(finish: Step): Outcome
    requires IsFinish(finish)
  {
    if finish.SuccessStep? then Succeeded(finish.text, finish.body) else FailedWith(finish.error)
  }

  /** A run that contains a finish ends with its outcome. */
  lemma {:induction false} FinishIsTheOutcome(s: Session, steps: seq<Step>, finish: Step)
    requires IsRun(s, steps) && finish in steps && IsFinish(finish)
    ensures Exec(s, steps).outcome == OutcomeOf(finish)
    decreases |steps|
  {
    OutcomeAfter(s, steps[0]);
    hide Apply, Enabled;
    if steps[0] == finish {
      OutcomeStays(Apply(s, steps[0]), steps[1..]);
    } else {
      FinishIsTheOutcome(Apply(s, steps[0]), steps[1..], finish);
    }
  }

  lemma MetaAfter(s: Session, step: Step)
    requires Enabled(s, step)
    ensures Apply(s, step).meta == if step.SetMetadataStep? then Some(step.meta) else s.meta
    ensures step.SetMetadataStep? ==> s.meta.None?
  {
    hide PushFrame, SendAll, Attach, Close, FinalFrames, ErrorFrames;
  }

  lemma {:induction false} MetaStays(s: Session, steps: seq<Step>)
    requires IsRun(s, steps) && s.meta.Some?
    ensures Exec(s, steps).meta == s.meta && forall meta :: SetMetadataStep(meta) !in steps
    decreases |steps|
  {
    if steps != [] {
      MetaAfter(s, steps[0]);
      hide Apply, Enabled;
      MetaStays(Apply(s, steps[0]), steps[1..]);
    }
  }

  /** The metadata of a session are those that its one call of set_metadata brought. */
  lemma {:induction false} MetaIsTheOneSet(s: Session, steps: seq<Step>)
    requires IsRun(s, steps) && s.meta.None?
    ensures Exec(s, steps).meta.Some? ==> SetMetadataStep(Exec(s, steps).meta.value) in steps
    ensures forall meta | SetMetadataStep(meta) in steps :: Exec(s, steps).meta == Some(meta)
    decreases |steps|
  {
    if steps != [] {
      MetaAfter(s, steps[0]);
      hide Apply, Enabled;
      if steps[0].SetMetadataStep? {
        MetaStays(Apply(s, steps[0]), steps[1..]);
      } else {
        MetaIsTheOneSet(Apply(s, steps[0]), steps[1..]);
      }
    }
  }

  predicate Attaches(steps: seq<Step>) {
    exists i :: 0 <= i < |steps| && steps[i].AttachStep?
  }

  lemma {:induction false} AttachedByAStep(s: Session, steps: seq<Step>)
    requires IsRun(s, steps)
    ensures Exec(s, steps).sink.attached <==> s.sink.attached || Attaches(steps)
    decreases |steps|
  {
    if steps != [] {
      OutcomeAfter(s, steps[0]);
      hide Apply, Enabled;
      AttachedByAStep(Apply(s, steps[0]), steps[1..]);
      if Attaches(steps[1..]) {
        var i :| 0 <= i < |steps| - 1 && steps[1..][i].AttachStep?;
        assert steps[i + 1].AttachStep?;
      }
      if Attaches(steps) && !steps[0].AttachStep? {
        var i :| 0 <= i < |steps| && steps[i].AttachStep?;
        assert steps[1..][i - 1].AttachStep?;
      }
    }
  }

  // ---------- the stream may be attached anywhere ----------

  /** `s` has no stream; `t` is the same session with one. */
  ghost predicate Twins(s: Session, t: Session) {
    && Bare(s) == Bare(t) && s.sink.closeCallsDue == t.sink.closeCallsDue
    && !s.sink.stream && s.sink.streamClosesDue == 0
    && Quiet(s) && Quiet(t)
  }

  lemma TwinsStep(s: Session, t: Session, step: Step)
    requires Twins(s, t) && Enabled(s, step) && IsAccepted(step) && !step.AttachStep?
    requires step.DisconnectStep? ==> !s.outcome.Pending?
    ensures Enabled(t, step) && Twins(Apply(s, step), Apply(t, step))
  {
    QuietStep(s, step);
    assert Enabled(t, step);
    QuietStep(t, step);
    ToldIsApplied(s, step);
    ToldIsApplied(t, step);
    SinkAfter(s, step);
    SinkAfter(t, step);
    hide Quiet, Apply, Enabled, Told, IsAccepted;
  }

  /** What a step without attachment makes of the closes that are owed. */
  lemma SinkAfter(s: Session, step: Step)
    requires Quiet(s) && Enabled(s, step) && IsAccepted(step) && !step.AttachStep?
    requires step.DisconnectStep? ==> !s.outcome.Pending?
    ensures var s' := Apply(s, step);
      && s'.sink.closeCallsDue == (if IsFinish(step) then s.sink.closeCallsDue + 1
                                   else if step.OwedCloseStep? then s.sink.closeCallsDue - 1 else s.sink.closeCallsDue)
      && (!s.sink.stream ==> !s'.sink.stream)
      && (!s.sink.stream && s.sink.streamClosesDue == 0 ==> s'.sink.streamClosesDue == 0)
  {
    match step
    case SuccessStep(text, body, oks) => SendAllOwes(s.sink, FinalFrames(s, text, body), oks);
    case ErrorStep(error, oks) => SendAllOwes(s.sink, ErrorFrames(s, error), oks);
    case _ =>
  }

  lemma {:induction false} SendAllOwes(s: Sink, frames: seq<Frame>, oks: seq<bool>)
    requires |frames| == |oks|
    ensures var s' := SendAll(s, frames, oks);
      s'.closeCallsDue == s.closeCallsDue && s'.stream == s.stream && s'.streamClosesDue == s.streamClosesDue
    decreases |frames|
  {
    if frames != [] { SendAllOwes(PushFrame(s, frames[0], oks[0]), frames[1..], oks[1..]); }
  }

  lemma {:induction false} TwinsRun(s: Session, t: Session, steps: seq<Step>)
    requires Twins(s, t) && IsRun(s, steps) && Undisturbed(steps, !s.outcome.Pending?) && !Attaches(steps)
    ensures IsRun(t, steps)
    decreases |steps|
  {
    if steps != [] {
      TwinsStep(s, t, steps[0]);
      QuietStep(s, steps[0]);
      NoAttachLater(steps);
      hide Twins, Enabled, Apply, IsAccepted;
      TwinsRun(Apply(s, steps[0]), Apply(t, steps[0]), steps[1..]);
    }
  }

  /** Attaching now, with every buffered frame accepted, gives a twin. */
  lemma AttachingTwins(s: Session)
    requires Quiet(s) && !s.sink.stream && !s.sink.attached && s.sink.streamClosesDue == 0
    ensures Enabled(s, AttachStep(None)) && Twins(s, Apply(s, AttachStep(None)))
  {
  }

  /** The steps with an attachment before step `i`. */
  function WithAttachAt(steps: seq<Step>, i: nat): seq<Step>
    requires i <= |steps|
  {
    if i == 0 then [AttachStep(None)] + steps else [steps[0]] + WithAttachAt(steps[1..], i - 1)
  }

  ghost predicate Unattached(s: Session) {
    Quiet(s) && !s.sink.stream && !s.sink.attached && s.sink.streamClosesDue == 0
  }

  lemma StaysUnattached(s: Session, step: Step)
    requires Unattached(s) && Enabled(s, step) && IsAccepted(step) && !step.AttachStep?
    requires step.DisconnectStep? ==> !s.outcome.Pending?
    ensures Unattached(Apply(s, step))
    ensures Apply(s, step).outcome.Pending? <==> s.outcome.Pending? && !IsFinish(step)
  {
    QuietStep(s, step);
    SinkAfter(s, step);
    OutcomeAfter(s, step);
    hide Quiet, Apply, Enabled, IsAccepted;
  }

  lemma AttachFirst(s: Session, steps: seq<Step>)
    requires Unattached(s) && IsRun(s, steps) && Undisturbed(steps, !s.outcome.Pending?) && !Attaches(steps)
    ensures var more := [AttachStep(None)] + steps;
      && IsRun(s, more) && Undisturbed(more, !s.outcome.Pending?) && Attaches(more)
      && Production(more) == Production(steps)
  {
    var more := [AttachStep(None)] + steps;
    AttachingTwins(s);
    TwinsRun(s, Apply(s, AttachStep(None)), steps);
    hide Unattached, Quiet, Apply, Enabled, Twins;
    assert more[0].AttachStep? && more[1..] == steps;
  }

  /** A first step before a longer run. */
  lemma StepBefore(s: Session, step: Step, rest: seq<Step>, others: seq<Step>)
    requires Enabled(s, step) && IsRun(Apply(s, step), rest) && IsAccepted(step)
    requires step.DisconnectStep? ==> !s.outcome.Pending?
    requires Undisturbed(rest, !s.outcome.Pending? || IsFinish(step)) && Attaches(rest)
    requires Production(rest) == Production(others)
    ensures var more := [step] + rest;
      && IsRun(s, more) && Undisturbed(more, !s.outcome.Pending?) && Attaches(more)
      && Production(more) == Production([step] + others)
  {
    hide Enabled, Apply, IsAccepted;
    var more := [step] + rest;
    assert more[1..] == rest && ([step] + others)[1..] == others;
    var k :| 0 <= k < |rest| && rest[k].AttachStep?;
    assert more[k + 1].AttachStep?;
  }

  lemma {:induction false} AttachFrom(s: Session, steps: seq<Step>, i: nat)
    requires Unattached(s)
    requires IsRun(s, steps) && Undisturbed(steps, !s.outcome.Pending?) && !Attaches(steps) && i <= |steps|
    ensures var more := WithAttachAt(steps, i);
      && IsRun(s, more) && Undisturbed(more, !s.outcome.Pending?) && Attaches(more)
      && Production(more) == Production(steps)
    decreases i
  {
    hide Unattached, Apply, Enabled, IsAccepted, Production, Attaches;
    if i == 0 {
      AttachFirst(s, steps);
    } else {
      NoAttachLater(steps);
      StaysUnattached(s, steps[0]);
      AttachFrom(Apply(s, steps[0]), steps[1..], i - 1);
      StepBefore(s, steps[0], WithAttachAt(steps[1..], i - 1), steps[1..]);
      assert [steps[0]] + steps[1..] == steps;
    }
  }

  lemma NoAttachLater(steps: seq<Step>)
    requires steps != [] && !Attaches(steps)
    ensures !Attaches(steps[1..]) && !steps[0].AttachStep?
  {
    assert forall i | 0 <= i < |steps| - 1 :: steps[1..][i] == steps[i + 1];
  }

  /** The stream can be attached at any place of an undisturbed run that does not attach it yet: the run goes
      on as before, undisturbed, and the agent's side of it is the same. */
  lemma AttachAnywhere(kind: Kind, steps: seq<Step>, i: nat)
    requires IsRun(NewSession(kind), steps) && Undisturbed(steps, false) && !Attaches(steps) && i <= |steps|
    ensures var more := WithAttachAt(steps, i);
      && IsRun(NewSession(kind), more) && Undisturbed(more, false) && Attaches(more)
      && Production(more) == Production(steps)
  {
    AttachFrom(NewSession(kind), steps, i);
  }

  // ---------- overtaking, from the steps ----------

  /** No non-empty token is pushed while set_metadata is still draining: counting the tokens that wait and
      those still to be drained. */
  predicate PushesOutsideDrain(steps: seq<Step>, waiting: nat, draining: nat, known: bool) {
    steps == [] ||
    match steps[0]
    case SetMetadataStep(_) => PushesOutsideDrain(steps[1..], 0, waiting, true)
    case PushStep(token, _) =>
      if token == "" then PushesOutsideDrain(steps[1..], waiting, draining, known)
      else if !known then PushesOutsideDrain(steps[1..], waiting + 1, draining, known)
      else draining == 0 && PushesOutsideDrain(steps[1..], waiting, draining, known)
    case DrainStep(_) => PushesOutsideDrain(steps[1..], waiting, if draining > 0 then draining - 1 else 0, known)
    case _ => PushesOutsideDrain(steps[1..], waiting, draining, known)
  }

  lemma DrainAfter(s: Session, step: Step)
    requires Enabled(s, step) && (s.meta.None? ==> s.draining == [])
    ensures var s' := Apply(s, step);
      && (s'.meta.None? ==> s'.draining == [])
      && s'.meta.Some? == (s.meta.Some? || step.SetMetadataStep?)
      && |s'.pending| == (if step.SetMetadataStep? then 0
                          else if step.PushStep? && step.token != "" && s.meta.None? then |s.pending| + 1 else |s.pending|)
      && |s'.draining| == (if step.SetMetadataStep? then |s.pending|
                           else if step.DrainStep? then |s.draining| - 1 else |s.draining|)
      && s'.overtaken == (s.overtaken || (step.PushStep? && step.token != "" && s.meta.Some? && s.draining != []))
  {
    hide PushFrame, SendAll, Attach, Close, FinalFrames, ErrorFrames;
  }

  lemma {:induction false} OvertakenByAPush(s: Session, steps: seq<Step>)
    requires IsRun(s, steps) && (s.meta.None? ==> s.draining == [])
    ensures !Exec(s, steps).overtaken <==>
            !s.overtaken && PushesOutsideDrain(steps, |s.pending|, |s.draining|, s.meta.Some?)
    decreases |steps|
  {
    if steps != [] {
      DrainAfter(s, steps[0]);
      if steps[0].DrainStep? { DrainIsNotEmpty(s, steps[0]); }
      hide Apply, Enabled;
      OvertakenByAPush(Apply(s, steps[0]), steps[1..]);
      if s.overtaken || Apply(s, steps[0]).overtaken {
        OvertakenStays(Apply(s, steps[0]), steps[1..]);
      }
    }
  }

  lemma DrainIsNotEmpty(s: Session, step: Step)
    requires Enabled(s, step) && step.DrainStep?
    ensures |s.draining| > 0
  {
  }

  lemma {:induction false} OvertakenStays(s: Session, steps: seq<Step>)
    requires IsRun(s, steps) && s.overtaken
    ensures Exec(s, steps).overtaken
    decreases |steps|
  {
    if steps != [] { OvertakenStays(Apply(s, steps[0]), steps[1..]); }
  }

  /** In a run no token is overtaken exactly if none is pushed inside the drain. */
  lemma NoOvertakingIff(kind: Kind, steps: seq<Step>)
    requires IsRun(NewSession(kind), steps)
    ensures !Exec(NewSession(kind), steps).overtaken <==> PushesOutsideDrain(steps, 0, 0, false)
  {
    OvertakenByAPush(NewSession(kind), steps);
  }
}
