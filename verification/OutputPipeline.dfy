/** Collecting the output of a command: one scanner for each of stdout and stderr, a bounded channel, and one
    consumer that appends to the output; whichever scanner stops last closes the channel
    (agent/executer.go). A stream is the sequence of lines its scanner yields before it stops. */
module OutputPipeline {
  const CAPACITY := 10

  /** A scanner reads a line, offers it, and goes on; `Leaving` has stopped and is about to run its deferred
      check of the shared flag. */
  datatype Producer = Reading(unread: seq<string>) | Offering(line: string, unread: seq<string>) | Leaving | Gone

  /** A scanner with the lines it has put on the channel. */
  datatype Side = Side(producer: Producer, sent: seq<string>)

  datatype State = State(
    out: Side,
    err: Side,
    channel: seq<string>,
    flag: bool,            // set by the first scanner to stop
    closes: nat,
    sentAfterClose: bool,
    consuming: bool,
    output: seq<string>,
    cancelled: bool)

  function Of(s: State, stdout: bool): Side {
    if stdout then s.out else s.err
  }

  function With(s: State, stdout: bool, side: Side): State {
    if stdout then s.(out := side) else s.(err := side)
  }

  datatype Action =
    | Scan(stdout: bool)
    | Send(stdout: bool)
    | GiveUp(stdout: bool)
    | Leave(stdout: bool)
    | Receive
    | SeeClosed
    | StopConsuming
    | Cancel

  predicate Enabled(s: State, a: Action) {
    match a
    case Scan(p) => Of(s, p).producer.Reading?
    case Send(p) => Of(s, p).producer.Offering? && |s.channel| < CAPACITY
    case GiveUp(p) => Of(s, p).producer.Offering? && s.cancelled
    case Leave(p) => Of(s, p).producer.Leaving?
    case Receive => s.consuming && s.channel != []
    case SeeClosed => s.consuming && s.channel == [] && s.closes > 0
    case StopConsuming => s.consuming && s.cancelled
    case Cancel => !s.cancelled
  }

  function ScanLine(side: Side): Side
    requires side.producer.Reading?
  {
    var unread := side.producer.unread;
    side.(producer := if unread == [] then Leaving else Offering(unread[0], unread[1..]))
  }

  function SendLine(side: Side): Side
    requires side.producer.Offering?
  {
    Side(Reading(side.producer.unread), side.sent + [side.producer.line])
  }

  function Step(s: State, a: Action): State {
    if !Enabled(s, a) then s else
    match a
    case Scan(p) => With(s, p, ScanLine(Of(s, p)))
    case Send(p) =>
      With(s, p, SendLine(Of(s, p))).(channel := s.channel + [Of(s, p).producer.line],
                                      sentAfterClose := s.sentAfterClose || s.closes > 0)
    case GiveUp(p) => With(s, p, Of(s, p).(producer := Leaving))
    case Leave(p) =>
      // the compare-and-swap succeeds for the first scanner; the second one closes the channel
      var gone := With(s, p, Of(s, p).(producer := Gone));
      if !s.flag then gone.(flag := true) else gone.(closes := s.closes + 1)
    case Receive => s.(channel := s.channel[1..], output := s.output + [s.channel[0]])
    case SeeClosed => s.(consuming := false)
    case StopConsuming => s.(consuming := false)
    case Cancel => s.(cancelled := true)
  }

  function Start(stdout: seq<string>, stderr: seq<string>): State {
    State(Side(Reading(stdout), []), Side(Reading(stderr), []), [], false, 0, false, true, [], false)
  }

  function Run(s: State, actions: seq<Action>): State {
    if actions == [] then s else Step(Run(s, actions[..|actions| - 1]), actions[|actions| - 1])
  }

  // ----- merging -----

  /** `all` consists of `a` and `b`, each in its own order. */
  ghost predicate Merges(all: seq<string>, a: seq<string>, b: seq<string>)
    decreases |all|
  {
    if all == [] then a == [] && b == [] else
    var last := all[|all| - 1];
    var front := all[..|all| - 1];
    || (a != [] && a[|a| - 1] == last && Merges(front, a[..|a| - 1], b))
    || (b != [] && b[|b| - 1] == last && Merges(front, a, b[..|b| - 1]))
  }

  /** A merge holds every line of both exactly as often as they do, and keeps each one's order. */
  lemma {:induction false} MergeKeepsLines(all: seq<string>, a: seq<string>, b: seq<string>)
    requires Merges(all, a, b)
    ensures multiset(all) == multiset(a) + multiset(b)
    ensures Within(a, all) && Within(b, all)
    decreases |all|
  {
    if all != [] {
      var n := |all| - 1;
      var front, last := all[..n], all[n];
      assert all == front + [last];
      if a != [] && a[|a| - 1] == last && Merges(front, a[..|a| - 1], b) {
        assert a == a[..|a| - 1] + [last];
        MergeKeepsLines(front, a[..|a| - 1], b);
      } else {
        assert b == b[..|b| - 1] + [last];
        MergeKeepsLines(front, a, b[..|b| - 1]);
      }
    }
  }

  /** `part` is what is left of `all` when some lines are struck out. */
  ghost predicate Within(part: seq<string>, all: seq<string>) {
    part == [] ||
    (all != [] &&
     (Within(part, all[..|all| - 1])
      || (part[|part| - 1] == all[|all| - 1] && Within(part[..|part| - 1], all[..|all| - 1]))))
  }

  lemma MergeOneMore(all: seq<string>, a: seq<string>, b: seq<string>, x: string)
    requires Merges(all, a, b)
    ensures Merges(all + [x], a + [x], b) && Merges(all + [x], a, b + [x])
  {
    assert (all + [x])[..|all|] == all && (a + [x])[..|a|] == a && (b + [x])[..|b|] == b;
  }

  // ----- what every step keeps -----

  /** The part of a stream not yet on the channel, as far as its scanner has not given it up. */
  function Ahead(p: Producer): seq<string> {
    match p
    case Reading(unread) => unread
    case Offering(line, unread) => [line] + unread
    case _ => []
  }

  function Held(side: Side): seq<string> {
    side.sent + Ahead(side.producer)
  }

  function GoneCount(s: State): nat {
    (if s.out.producer.Gone? then 1 else 0) + if s.err.producer.Gone? then 1 else 0
  }

  /** Lines sent are a prefix of the stream; nothing is skipped, and a line is lost only by giving up. */
  predicate Accounts(side: Side, stream: seq<string>, cancelled: bool) {
    Held(side) <= stream && (!cancelled ==> Held(side) == stream)
  }

  /** The bookkeeping of who has stopped and of the close. */
  predicate Closing(s: State) {
    && (s.flag <==> GoneCount(s) >= 1)
    && s.closes == (if GoneCount(s) == 2 then 1 else 0)
    && !s.sentAfterClose
    && (!s.consuming && !s.cancelled ==> s.channel == [] && s.closes == 1)
  }

  ghost predicate Good(s: State, stdout: seq<string>, stderr: seq<string>) {
    && Accounts(s.out, stdout, s.cancelled) && Accounts(s.err, stderr, s.cancelled)
    && |s.channel| <= CAPACITY
    && Merges(s.output + s.channel, s.out.sent, s.err.sent)
    && Closing(s)
  }

  /** Reading or sending a line moves it along without losing it; giving up keeps what was sent. */
  lemma SideKeepsLines(side: Side)
    ensures side.producer.Reading? ==> Held(ScanLine(side)) == Held(side)
    ensures side.producer.Offering? ==> Held(SendLine(side)) == Held(side)
    ensures Held(side.(producer := Leaving)) == Held(side.(producer := Gone)) == side.sent <= Held(side)
  {
    assert side.sent + [] == side.sent;
    if side.producer.Offering? {
      assert side.sent + ([side.producer.line] + side.producer.unread)
          == side.sent + [side.producer.line] + side.producer.unread;
    }
  }

  lemma StepKeepsAccounts(s: State, a: Action, p: bool, stream: seq<string>)
    requires Accounts(Of(s, p), stream, s.cancelled)
    ensures Accounts(Of(Step(s, a), p), stream, Step(s, a).cancelled)
  {
    SideKeepsLines(Of(s, p));
    if Enabled(s, a) {
      match a
      case Scan(q) => assert Of(Step(s, a), p) == if p == q then ScanLine(Of(s, p)) else Of(s, p);
      case Send(q) => assert Of(Step(s, a), p) == if p == q then SendLine(Of(s, p)) else Of(s, p);
      case GiveUp(q) =>
        assert Of(Step(s, a), p) == if p == q then Of(s, p).(producer := Leaving) else Of(s, p);
      case Leave(q) =>
        assert Of(Step(s, a), p) == if p == q then Of(s, p).(producer := Gone) else Of(s, p);
      case _ => assert Of(Step(s, a), p) == Of(s, p);
    }
  }

  lemma SendKeepsMerge(s: State, p: bool)
    requires Merges(s.output + s.channel, s.out.sent, s.err.sent) && Enabled(s, Send(p))
    ensures var next := Step(s, Send(p));
            Merges(next.output + next.channel, next.out.sent, next.err.sent)
  {
    var line := Of(s, p).producer.line;
    var next := Step(s, Send(p));
    MergeOneMore(s.output + s.channel, s.out.sent, s.err.sent, line);
    assert next.output + next.channel == s.output + s.channel + [line];
    assert p ==> next.out.sent == s.out.sent + [line] && next.err.sent == s.err.sent;
    assert !p ==> next.out.sent == s.out.sent && next.err.sent == s.err.sent + [line];
  }

  /** Only a send changes what has been sent, or what output and channel hold together. */
  lemma OthersMoveNoLine(s: State, a: Action)
    requires !a.Send?
    ensures var next := Step(s, a);
            next.output + next.channel == s.output + s.channel
            && next.out.sent == s.out.sent && next.err.sent == s.err.sent
  {
    if Enabled(s, a) && a.Receive? {
      assert s.output + [s.channel[0]] + s.channel[1..] == s.output + s.channel;
    }
  }

  lemma StepKeepsMerge(s: State, a: Action)
    requires Merges(s.output + s.channel, s.out.sent, s.err.sent)
    ensures var next := Step(s, a);
            Merges(next.output + next.channel, next.out.sent, next.err.sent)
  {
    if a.Send? {
      if Enabled(s, a) {
        SendKeepsMerge(s, a.stdout);
      }
    } else {
      OthersMoveNoLine(s, a);
    }
  }

  lemma StepKeepsClosing(s: State, a: Action)
    requires Closing(s)
    ensures Closing(Step(s, a))
  {
  }

  lemma StepKeepsCapacity(s: State, a: Action)
    requires |s.channel| <= CAPACITY
    ensures |Step(s, a).channel| <= CAPACITY
  {
  }

  lemma StepKeepsGood(s: State, a: Action, stdout: seq<string>, stderr: seq<string>)
    requires Good(s, stdout, stderr)
    ensures Good(Step(s, a), stdout, stderr)
  {
    var next := Step(s, a);
    assert Accounts(next.out, stdout, next.cancelled) by {
      StepKeepsAccounts(s, a, true, stdout);
    }
    assert Accounts(next.err, stderr, next.cancelled) by {
      StepKeepsAccounts(s, a, false, stderr);
    }
    assert |next.channel| <= CAPACITY by {
      StepKeepsCapacity(s, a);
    }
    assert Merges(next.output + next.channel, next.out.sent, next.err.sent) by {
      StepKeepsMerge(s, a);
    }
    assert Closing(next) by {
      StepKeepsClosing(s, a);
    }
  }

  lemma {:induction false} EveryRunIsGood(stdout: seq<string>, stderr: seq<string>, actions: seq<Action>)
    ensures Good(Run(Start(stdout, stderr), actions), stdout, stderr)
  {
    if actions == [] {
      assert [] + stdout == stdout && [] + stderr == stderr;
      assert Good(Start(stdout, stderr), stdout, stderr);
    } else {
      var front := actions[..|actions| - 1];
      EveryRunIsGood(stdout, stderr, front);
      StepKeepsGood(Run(Start(stdout, stderr), front), actions[|actions| - 1], stdout, stderr);
    }
  }

  /** Every interleaving: the channel is closed at most once, and only after both scanners stopped; nothing is
      sent after that; and output followed by channel merges prefixes of the two streams in order. */
  lemma OutputMergesPrefixes(stdout: seq<string>, stderr: seq<string>, actions: seq<Action>)
    ensures var s := Run(Start(stdout, stderr), actions);
            && s.closes <= 1 && !s.sentAfterClose
            && (s.closes == 1 <==> s.out.producer.Gone? && s.err.producer.Gone?)
            && |s.channel| <= CAPACITY
            && s.out.sent <= stdout && s.err.sent <= stderr
            && Merges(s.output + s.channel, s.out.sent, s.err.sent)
  {
    EveryRunIsGood(stdout, stderr, actions);
    var s := Run(Start(stdout, stderr), actions);
    assert s.out.sent <= Held(s.out);
    assert s.err.sent <= Held(s.err);
  }

  /** If the context is never done, a consumer that has stopped has the complete merge of both streams. */
  lemma UncancelledOutputIsComplete(stdout: seq<string>, stderr: seq<string>, actions: seq<Action>)
    ensures var s := Run(Start(stdout, stderr), actions);
            !s.cancelled && !s.consuming ==> Merges(s.output, stdout, stderr)
  {
    EveryRunIsGood(stdout, stderr, actions);
    var s := Run(Start(stdout, stderr), actions);
    if !s.cancelled && !s.consuming {
      assert s.output + s.channel == s.output;
      assert Held(s.out) == s.out.sent && Held(s.err) == s.err.sent;
    }
  }

  // ----- termination -----

  predicate Finished(s: State) {
    !s.consuming && s.out.producer.Gone? && s.err.producer.Gone?
  }

  /** The pipeline never deadlocks: until everyone has gone, some goroutine can move without a cancellation. */
  lemma SomeoneCanMove(s: State, stdout: seq<string>, stderr: seq<string>)
    requires Good(s, stdout, stderr) && !Finished(s)
    ensures exists a: Action :: !a.Cancel? && Enabled(s, a)
  {
    if p :| Of(s, p).producer.Reading? {
      assert Enabled(s, Scan(p));
    } else if p :| Of(s, p).producer.Leaving? {
      assert Enabled(s, Leave(p));
    } else if p :| Of(s, p).producer.Offering? {
      assert if s.cancelled then Enabled(s, GiveUp(p))
             else if |s.channel| < CAPACITY then Enabled(s, Send(p)) else Enabled(s, Receive);
    } else {
      assert !Of(s, true).producer.Reading? && !Of(s, false).producer.Reading?;
      assert Of(s, true).producer.Gone? && Of(s, false).producer.Gone?;
      assert if s.channel == [] then Enabled(s, SeeClosed) else Enabled(s, Receive);
    }
  }

  function Work(p: Producer): nat {
    match p
    case Reading(unread) => 3 * |unread| + 3
    case Offering(_, unread) => 3 * |unread| + 5
    case Leaving => 1
    case Gone => 0
  }

  function Remaining(s: State): nat {
    Work(s.out.producer) + Work(s.err.producer) + |s.channel|
    + (if s.consuming then 1 else 0) + if s.cancelled then 0 else 1
  }

  /** Every enabled step uses up some of the work left, so a run has a bounded number of them, and a run that
      cannot be continued has finished. */
  lemma StepUsesWork(s: State, a: Action)
    requires Enabled(s, a)
    ensures Remaining(Step(s, a)) < Remaining(s)
  {
  }

  lemma OnlyCancelCancels(s: State, a: Action)
    ensures Step(s, a).cancelled <==> s.cancelled || a == Cancel
  {
  }

  /** Only a cancellation cancels. */
  lemma {:induction false} CancelledIff(stdout: seq<string>, stderr: seq<string>, actions: seq<Action>)
    ensures Run(Start(stdout, stderr), actions).cancelled <==> Cancel in actions
  {
    if actions != [] {
      var n := |actions| - 1;
      CancelledIff(stdout, stderr, actions[..n]);
      OnlyCancelCancels(Run(Start(stdout, stderr), actions[..n]), actions[n]);
      assert actions == actions[..n] + [actions[n]];
    }
  }

  /** A send on the closed channel would be seen. */
  lemma LateSendIsSeen(s: State, p: bool)
    requires Enabled(s, Send(p))
    ensures Step(s, Send(p)).sentAfterClose <==> s.sentAfterClose || s.closes > 0
  {
  }

  /** From any reachable state the pipeline can be run to its end, and unless it was cancelled before, that end has
      the complete merge. */
  lemma {:induction false} RunsToCompletion(stdout: seq<string>, stderr: seq<string>, actions: seq<Action>)
    returns (more: seq<Action>)
    ensures forall a: Action :: a in more ==> !a.Cancel?
    ensures var last := Run(Start(stdout, stderr), actions + more);
            Finished(last) && (Cancel !in actions ==> Merges(last.output, stdout, stderr))
    decreases Remaining(Run(Start(stdout, stderr), actions))
  {
    var s := Run(Start(stdout, stderr), actions);
    EveryRunIsGood(stdout, stderr, actions);
    if Finished(s) {
      more := [];
      assert actions + more == actions;
      CancelledIff(stdout, stderr, actions);
      UncancelledOutputIsComplete(stdout, stderr, actions);
    } else {
      SomeoneCanMove(s, stdout, stderr);
      var a: Action :| !a.Cancel? && Enabled(s, a);
      StepUsesWork(s, a);
      assert (actions + [a])[..|actions|] == actions;
      var rest := RunsToCompletion(stdout, stderr, actions + [a]);
      more := [a] + rest;
      assert actions + more == (actions + [a]) + rest;
    }
  }
}
