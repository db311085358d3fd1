/** Session history: the incremental trim, and the window of committed turns it maintains. */
module History {
  import opened Messages

  /** One committed exchange. */
  datatype Turn = Turn(user: Message, assistant: Message)

  ghost predicate WellFormedTurn(t: Turn) {
    t.user.role == User && t.assistant.role == Assistant
  }

  ghost predicate WellFormedLog(log: seq<Turn>) {
    forall i | 0 <= i < |log| :: WellFormedTurn(log[i])
  }

  function SystemOffset(messages: seq<Message>): (off: nat)
    ensures off <= |messages|
  {
    if messages != [] && messages[0].role == System then 1 else 0
  }

  // ---------- what a trim must achieve ----------

  /** A suffix the trim may keep: nothing, or something that starts with a user message. */
  ghost predicate UserSuffix(body: seq<Message>, cut: nat)
    requires cut <= |body|
  {
    cut < |body| ==> body[cut].role == User
  }

  /** `body[cut..]` is the longest user-initial suffix with at most `max` messages. */
  ghost predicate BestCut(body: seq<Message>, max: nat, cut: nat) {
    && |body| - max <= cut <= |body|
    && UserSuffix(body, cut)
    && forall k: nat | |body| - max <= k < cut :: !UserSuffix(body, k)
  }

  /** `kept` is `messages` without what lies between the leading system message and the longest
      user-initial suffix of the rest that fits into `max` messages. */
  ghost predicate IsTrimmed(messages: seq<Message>, max: nat, kept: seq<Message>) {
    var off := SystemOffset(messages);
    var body := messages[off..];
    if |body| <= max then kept == messages
    else exists cut: nat :: BestCut(body, max, cut) && kept == messages[..off] + body[cut..]
  }

  /** The trim, with the scan of the original: start `max` messages from the end and move forward to
      the next user message. */
  method TrimHistoryToFit(messages: seq<Message>, max: nat) returns (kept: seq<Message>)
    ensures IsTrimmed(messages, max, kept)
  {
    var off := SystemOffset(messages);
    if |messages| <= off + max {
      return messages;
    }
    var eraseEnd := |messages| - max;
    if eraseEnd < off {
      eraseEnd := off;
    }
    ghost var start := eraseEnd;
    ghost var body := messages[off..];
    while eraseEnd < |messages| && messages[eraseEnd].role != User
      invariant start <= eraseEnd <= |messages|
      invariant forall k | start <= k < eraseEnd :: messages[k].role != User
    {
      eraseEnd := eraseEnd + 1;
    }
    if eraseEnd <= off {
      return messages;
    }
    kept := messages[..off] + messages[eraseEnd..];
    ghost var cut: nat := eraseEnd - off;
    assert body[cut..] == messages[eraseEnd..];
    assert BestCut(body, max, cut);
  }

  /** The description leaves no choice: two trims of the same history agree. */
  lemma TrimmedIsUnique(messages: seq<Message>, max: nat, a: seq<Message>, b: seq<Message>)
    requires IsTrimmed(messages, max, a) && IsTrimmed(messages, max, b)
    ensures a == b
  {
    var off := SystemOffset(messages);
    var body := messages[off..];
    if |body| > max {
      var i: nat :| BestCut(body, max, i) && a == messages[..off] + body[i..];
      var j: nat :| BestCut(body, max, j) && b == messages[..off] + body[j..];
      assert i == j;
    }
  }

  // ---------- the window over the full log ----------

  /** The user message (0) or the assistant message (1) of a turn. */
  function Half(turn: Turn, which: nat): Message {
    if which == 0 then turn.user else turn.assistant
  }

  /** The messages of a log in order. */
  function Flatten(log: seq<Turn>): seq<Message> {
    seq(2 * |log|, i requires 0 <= i < 2 * |log| => Half(log[i / 2], i % 2))
  }

  function Min(a: nat, b: nat): nat {
    if a <= b then a else b
  }

  /** The last min(n, max / 2) of the n turns of a log. */
  function Window(log: seq<Turn>, max: nat): (window: seq<Turn>) {
    log[|log| - Min(|log|, max / 2)..]
  }

  /** The history a session must hold once `log` has been committed behind `prefix`. */
  function WindowedHistory(prefix: seq<Message>, log: seq<Turn>, max: nat): seq<Message> {
    prefix + Flatten(Window(log, max))
  }

  ghost predicate SystemPrefix(prefix: seq<Message>) {
    prefix == [] || (|prefix| == 1 && prefix[0].role == System)
  }

  lemma FlattenDrop(log: seq<Turn>, n: nat)
    requires n <= |log|
    ensures Flatten(log)[2 * n..] == Flatten(log[n..])
  {
    var all, rest := Flatten(log), Flatten(log[n..]);
    forall i | 0 <= i < |rest|
      ensures all[2 * n + i] == rest[i]
    {
      assert (2 * n + i) / 2 == n + i / 2 && (2 * n + i) % 2 == i % 2;
      assert log[n..][i / 2] == log[n + i / 2];
    }
  }

  lemma FlattenRoles(log: seq<Turn>, i: nat)
    requires WellFormedLog(log) && i < 2 * |log|
    ensures Flatten(log)[i].role == User <==> i % 2 == 0
    ensures Flatten(log)[i].role != System
  {
    assert WellFormedTurn(log[i / 2]);
  }

  /** Only the prefix of a windowed history holds a system message. */
  lemma PrefixIsOffset(prefix: seq<Message>, log: seq<Turn>, tail: seq<Message>)
    requires SystemPrefix(prefix) && WellFormedLog(log)
    requires tail != [] ==> tail[0].role != System
    ensures SystemOffset(prefix + Flatten(log) + tail) == |prefix|
  {
    if prefix == [] && log != [] { FlattenRoles(log, 0); }
  }

  /** In a flattened log the longest fitting user-initial suffix is the window of turns. */
  lemma LongestSuffixIsWindow(log: seq<Turn>, max: nat, cut: nat)
    requires WellFormedLog(log) && 2 * |log| > max && BestCut(Flatten(log), max, cut)
    ensures Flatten(log)[cut..] == Flatten(Window(log, max))
  {
    var n: nat := |log| - max / 2;
    if cut < 2 * |log| { FlattenRoles(log, cut); }
    if 2 * n < 2 * |log| { FlattenRoles(log, 2 * n); }
    assert UserSuffix(Flatten(log), 2 * n);
    assert cut == 2 * n;
    FlattenDrop(log, n);
  }

  /** Trimming a whole log behind its system prefix leaves the prefix and the window. */
  lemma TrimOfLogIsWindow(prefix: seq<Message>, log: seq<Turn>, max: nat, kept: seq<Message>)
    requires SystemPrefix(prefix) && WellFormedLog(log)
    requires IsTrimmed(prefix + Flatten(log), max, kept)
    ensures kept == WindowedHistory(prefix, log, max)
  {
    var body := Flatten(log);
    var messages := prefix + body;
    assert SystemOffset(messages) == |prefix| by {
      PrefixIsOffset(prefix, log, []);
      assert messages == prefix + body + [];
    }
    assert messages[|prefix|..] == body && messages[..|prefix|] == prefix;
    if |body| <= max {
      assert Window(log, max) == log;
    } else {
      var cut: nat :| BestCut(body, max, cut) && kept == messages[..|prefix|] + body[cut..];
      LongestSuffixIsWindow(log, max, cut);
    }
  }

  lemma TrimAfterTurn(prefix: seq<Message>, window: seq<Turn>, max: nat, turn: Turn, kept: seq<Message>)
    requires SystemPrefix(prefix) && WellFormedLog(window) && WellFormedTurn(turn)
    requires IsTrimmed(prefix + Flatten(window) + [turn.user, turn.assistant], max, kept)
    ensures kept == WindowedHistory(prefix, window + [turn], max)
  {
    GrownHistory(prefix, window, turn);
    TrimOfLogIsWindow(prefix, window + [turn], max, kept);
  }

  /** One commit: appending a turn to a windowed history and trimming it again gives exactly the
      window of the log with that turn added, for every limit (odd, 0 and 1 included). */
  lemma CommitKeepsWindow(prefix: seq<Message>, log: seq<Turn>, max: nat, turn: Turn, kept: seq<Message>)
    requires SystemPrefix(prefix) && WellFormedLog(log) && WellFormedTurn(turn)
    requires IsTrimmed(WindowedHistory(prefix, log, max) + [turn.user, turn.assistant], max, kept)
    ensures kept == WindowedHistory(prefix, log + [turn], max)
  {
    TrimAfterTurn(prefix, Window(log, max), max, turn, kept);
    WindowOfWindow(log, max, turn);
  }

  lemma GrownHistory(prefix: seq<Message>, log: seq<Turn>, turn: Turn)
    ensures prefix + Flatten(log) + [turn.user, turn.assistant] == prefix + Flatten(log + [turn])
  {
    FlattenSnoc(log, turn);
    assert prefix + Flatten(log) + [turn.user, turn.assistant] ==
           prefix + (Flatten(log) + [turn.user, turn.assistant]);
  }

  lemma WindowOfWindow(log: seq<Turn>, max: nat, turn: Turn)
    ensures Window(Window(log, max) + [turn], max) == Window(log + [turn], max)
  {
  }

  lemma FlattenSnoc(log: seq<Turn>, turn: Turn)
    ensures Flatten(log + [turn]) == Flatten(log) + [turn.user, turn.assistant]
  {
  }

  /** What the agent is handed: an optional system message, alternating user and assistant messages,
      and a final user message. */
  ghost predicate AgentInput(messages: seq<Message>) {
    var off := SystemOffset(messages);
    && |messages| > off
    && (|messages| - off) % 2 == 1
    && forall i: nat | off <= i < |messages| ::
         messages[i].role == if (i - off) % 2 == 0 then User else Assistant
  }

  lemma WindowedHistoryIsAgentInput(prefix: seq<Message>, log: seq<Turn>, max: nat, user: Message)
    requires SystemPrefix(prefix) && WellFormedLog(log) && user.role == User
    ensures AgentInput(WindowedHistory(prefix, log, max) + [user])
    ensures |WindowedHistory(prefix, log, max)| <= |prefix| + max
  {
    var window := Window(log, max);
    var messages := WindowedHistory(prefix, log, max) + [user];
    assert WellFormedLog(window);
    PrefixIsOffset(prefix, window, [user]);
    forall i: nat | |prefix| <= i < |messages|
      ensures messages[i].role == if (i - |prefix|) % 2 == 0 then User else Assistant
    {
      var k := i - |prefix|;
      if i < |messages| - 1 {
        assert messages[i] == Flatten(window)[k];
        assert WellFormedTurn(window[k / 2]);
      }
    }
  }
}
