/**
 The acceptor of one turn's event stream: which streams it accepts, what its observer sees, and how it fails.
 */
module CodexStream {
  import opened Options

  datatype Operation = Start | Resume

  /** Token counts as reported; a report without exactly the five counts is no usage at all. */
  datatype Usage = Usage(input: int, cached: int, cacheWrite: int, output: int, reasoning: int)

  datatype Event =
    | ThreadStarted(thread: string)
    | TurnStarted
    | TurnCompleted(usage: Option<Usage>)
    | TurnFailed
    | StreamError
    | Item

  datatype Code = InvalidEvent | ThreadIdentityChanged | TerminalMissing | TerminalDuplicated | StreamFailure

  datatype Request = Request(operation: Operation, thread: Option<string>)

  datatype Outcome = Returned | Failed(code: Code)

  const MAX_SAFE := 9_007_199_254_740_991

  predicate Letter(c: char) {
    'A' <= c <= 'Z' || 'a' <= c <= 'z' || '0' <= c <= '9'
  }

  predicate ValidThread(id: string) {
    && 0 < |id| <= 128 && Letter(id[0])
    && forall k :: 0 < k < |id| ==> Letter(id[k]) || id[k] == '.' || id[k] == '_' || id[k] == ':' || id[k] == '-'
  }

  predicate Count(n: int) {
    0 <= n <= MAX_SAFE
  }

  predicate Bounded(u: Option<Usage>) {
    u.Some? && Count(u.value.input) && Count(u.value.cached) && Count(u.value.cacheWrite) && Count(u.value.output) &&
    Count(u.value.reasoning)
  }

  // ---------------------------------------------------------------- the streams of a turn

  /** Item events carry model output and are never looked at. */
  function Visible(events: seq<Event>): seq<Event> {
    if events == [] then []
    else if events[|events| - 1].Item? then Visible(events[..|events| - 1])
    else Visible(events[..|events| - 1]) + [events[|events| - 1]]
  }

  predicate Opens(request: Request, e: Event) {
    e.ThreadStarted? && ValidThread(e.thread) && (request.thread.Some? ==> request.thread.value == e.thread)
  }

  predicate Closes(e: Event) {
    e.TurnFailed? || (e.TurnCompleted? && Bounded(e.usage))
  }

  /** Only a start that names no thread has to be told which thread it is. */
  predicate NeedsThread(request: Request) {
    request.operation == Start && request.thread.None?
  }

  /** The visible events of a whole turn: its thread, unless already known; its start; and one terminal event. */
  predicate Complete(request: Request, word: seq<Event>) {
    || (|word| == 3 && Opens(request, word[0]) && word[1].TurnStarted? && Closes(word[2]))
    || (|word| == 2 && !NeedsThread(request) && word[0].TurnStarted? && Closes(word[1]))
  }

  /** What has come so far can still become a whole turn. */
  ghost predicate Viable(request: Request, word: seq<Event>) {
    exists rest: seq<Event> :: Complete(request, word + rest)
  }

  /** What a stream that cannot become a whole turn any more is refused with, by its first event too many. */
  function Refusal(before: seq<Event>, e: Event): Code {
    match e
    case ThreadStarted(_) => ThreadIdentityChanged
    case StreamError => StreamFailure
    case _ => if !e.TurnStarted? && Ended(before) then TerminalDuplicated else InvalidEvent
  }

  predicate Ended(word: seq<Event>) {
    word != [] && Closes(word[|word| - 1])
  }

  /** What an orderly stream that ended too early is refused with. */
  function Shortfall(request: Request, word: seq<Event>): Code {
    if NeedsThread(request) && word == [] then ThreadIdentityChanged else TerminalMissing
  }

  /** The four places a word of a turn can have come to. */
  lemma ViableExactly(request: Request, word: seq<Event>)
    ensures Viable(request, word) <==>
            || word == []
            || (|word| == 1 && (Opens(request, word[0]) || (!NeedsThread(request) && word[0].TurnStarted?)))
            || (|word| == 2 && Opens(request, word[0]) && word[1].TurnStarted?)
            || Complete(request, word)
  {
    var thread := Opening(request);
    if word == [] {
      assert Complete(request, word + if NeedsThread(request) then [thread, TurnStarted, TurnFailed] else [TurnStarted, TurnFailed]);
    } else if |word| == 1 && Opens(request, word[0]) {
      assert Complete(request, word + [TurnStarted, TurnFailed]);
    } else if |word| == 1 && !NeedsThread(request) && word[0].TurnStarted? {
      assert Complete(request, word + [TurnFailed]);
    } else if |word| == 2 && Opens(request, word[0]) && word[1].TurnStarted? {
      assert Complete(request, word + [TurnFailed]);
    } else if Complete(request, word) {
      assert word + [] == word;
    }
  }

  function Opening(request: Request): (e: Event)
    ensures request.thread.None? ==> Opens(request, e)
  {
    if request.thread.Some? then ThreadStarted(request.thread.value) else ThreadStarted("a")
  }

  lemma VisibleStep(events: seq<Event>, k: nat)
    requires k < |events|
    ensures Visible(events[..k + 1]) == if events[k].Item? then Visible(events[..k]) else Visible(events[..k]) + [events[k]]
  {
    assert events[..k + 1][..k] == events[..k];
  }

  // ---------------------------------------------------------------- observers

  datatype Reply = Accepts | Throws(code: Option<Code>)

  /** Whoever watches the turn; what it answers may depend on everything it has seen. */
  class Observer {
    var seen: seq<Event>
    const reply: (seq<Event>, Event) -> Reply

    constructor (reply: (seq<Event>, Event) -> Reply)
      ensures seen == [] && this.reply == reply
    {
      this.reply := reply;
      seen := [];
    }

    method Observe(e: Event) returns (answer: Reply)
      modifies this
      ensures seen == old(seen) + [e] && answer == reply(old(seen), e)
    {
      answer := reply(seen, e);
      seen := seen + [e];
    }
  }

  /** What a driver that calls an observer fails with when the observer throws. */
  function CodeOf(answer: Reply): (r: Option<Code>)
    ensures r.None? <==> answer.Accepts?
  {
    match answer
    case Accepts => None
    case Throws(None) => Some(StreamFailure)
    case Throws(Some(code)) => Some(code)
  }

  predicate AcceptsAll(reply: (seq<Event>, Event) -> Reply, before: seq<Event>, word: seq<Event>) {
    forall k :: 0 <= k < |word| ==> reply(before + word[..k], word[k]).Accepts?
  }

  lemma AcceptsNext(reply: (seq<Event>, Event) -> Reply, before: seq<Event>, word: seq<Event>, e: Event)
    requires AcceptsAll(reply, before, word)
    ensures AcceptsAll(reply, before, word + [e]) <==> reply(before + word, e).Accepts?
  {
    var more := word + [e];
    assert more[..|word|] == word;
    assert forall k :: 0 <= k < |word| ==> more[..k] == word[..k];
    if reply(before + word, e).Accepts? {
      forall k | 0 <= k < |more| ensures reply(before + more[..k], more[k]).Accepts? {
        if k < |word| { assert reply(before + word[..k], word[k]).Accepts?; }
      }
    } else {
      assert !reply(before + more[..|word|], more[|word|]).Accepts?;
    }
  }

  // ---------------------------------------------------------------- the acceptor

  /** The running state of one turn. */
  class TurnState {
    var thread: Option<string>
    var threadStarted: bool
    var turnStarted: bool
    var terminal: bool

    constructor (request: Request)
      ensures thread == request.thread && !threadStarted && !turnStarted && !terminal
      ensures StandsAt(request, [])
    {
      thread := request.thread;
      threadStarted, turnStarted, terminal := false, false, false;
      ViableExactly(request, []);
    }

    /** The state reflects the visible events so far, and these can still become a whole turn. */
    ghost predicate StandsAt(request: Request, word: seq<Event>)
      reads this
    {
      && Viable(request, word)
      && (threadStarted <==> word != [] && word[0].ThreadStarted?)
      && (turnStarted <==> exists k :: 0 <= k < |word| && word[k].TurnStarted?)
      && (terminal <==> Complete(request, word))
      && (thread.None? <==> request.thread.None? && !threadStarted)
      && (threadStarted ==> thread == Some(word[0].thread))
      && (!threadStarted ==> thread == request.thread)
    }

    /**
     Takes the event on exactly when the events so far and this one can still become a whole turn, shows it to the
     observer then, and refuses it otherwise.
     */
    method ObserveEvent(e: Event, request: Request, observer: Observer, ghost word: seq<Event>)
      returns (failure: Option<Code>)
      requires StandsAt(request, word) && !e.Item?
      modifies this, observer
      ensures Viable(request, word + [e]) ==>
                && StandsAt(request, word + [e])
                && observer.seen == old(observer.seen) + [e]
                && failure == CodeOf(observer.reply(old(observer.seen), e))
      ensures !Viable(request, word + [e]) ==>
                observer.seen == old(observer.seen) && failure == Some(Refusal(word, e))
    {
      ViableExactly(request, word);
      ViableExactly(request, word + [e]);
      assert forall k :: 0 <= k < |word| ==> (word + [e])[k] == word[k];
      assert (word + [e])[|word|] == e;
      match e {
        case ThreadStarted(id) =>
          if !ValidThread(id) || (request.thread.Some? && request.thread.value != id) || threadStarted || turnStarted ||
             terminal || (thread.Some? && thread.value != id)
          {
            return Some(ThreadIdentityChanged);
          }
          thread, threadStarted := Some(id), true;
        case TurnStarted =>
          if turnStarted || terminal || (request.operation == Start && thread.None?) { return Some(InvalidEvent); }
          turnStarted := true;
        case TurnCompleted(usage) =>
          if terminal { return Some(TerminalDuplicated); }
          if !turnStarted || !Bounded(usage) { return Some(InvalidEvent); }
          terminal := true;
        case TurnFailed =>
          if terminal { return Some(TerminalDuplicated); }
          if !turnStarted { return Some(InvalidEvent); }
          terminal := true;
        case StreamError =>
          return Some(StreamFailure);
        case Item =>
          assert false;
      }
      var answer := observer.Observe(e);
      failure := CodeOf(answer);
    }
  }

  /** The stream failed by event k, or after all of them when k is their number. */
  ghost predicate FailsAt(
    request: Request, events: seq<Event>, broken: bool, reply: (seq<Event>, Event) -> Reply, before: seq<Event>,
    seen: seq<Event>, code: Code, k: nat)
    requires k <= |events|
  {
    var word := Visible(events[..k]);
    && Viable(request, word) && AcceptsAll(reply, before, word)
    && if k == |events| then
         seen == before + word &&
         if broken then code == StreamFailure else !Complete(request, word) && code == Shortfall(request, word)
       else
         && !events[k].Item?
         && if Viable(request, word + [events[k]])
            then seen == before + word + [events[k]] && CodeOf(reply(before + word, events[k])) == Some(code)
            else seen == before + word && code == Refusal(word, events[k])
  }

  /**
   Consumes a stream that ends after the given events, orderly or by throwing.  It returns exactly when the events
   make up a whole turn, the stream ended orderly and the observer accepted every event; and then the observer has
   seen exactly the visible events.
   */
  method Run(request: Request, events: seq<Event>, broken: bool, observer: Observer) returns (outcome: Outcome)
    modifies observer
    ensures outcome.Returned? <==>
              !broken && Complete(request, Visible(events)) && AcceptsAll(observer.reply, old(observer.seen), Visible(events))
    ensures outcome.Returned? ==> observer.seen == old(observer.seen) + Visible(events)
    ensures outcome.Failed? ==> exists k: nat | k <= |events| ::
              FailsAt(request, events, broken, observer.reply, old(observer.seen), observer.seen, outcome.code, k)
  {
    hide Complete, AcceptsAll, Viable, Refusal, ValidThread, Bounded;
    ghost var before := observer.seen;
    AcceptsNothing(observer.reply, before);
    var state := new TurnState(request);
    for k := 0 to |events|
      invariant fresh(state) && state.StandsAt(request, Visible(events[..k]))
      invariant observer.seen == before + Visible(events[..k])
      invariant AcceptsAll(observer.reply, before, Visible(events[..k]))
    {
      ghost var word := Visible(events[..k]);
      VisibleStep(events, k);
      if !events[k].Item? {
        AcceptsNext(observer.reply, before, word, events[k]);
        var failure := state.ObserveEvent(events[k], request, observer, word);
        if failure.Some? {
          NotWhole(request, events, k, observer.reply, before);
          assert FailsAt(request, events, broken, observer.reply, before, observer.seen, failure.value, k);
          return Failed(failure.value);
        }
      }
    }
    assert events[..|events|] == events;
    EndedEarly(request, Visible(events));
    if broken {
      outcome := Failed(StreamFailure);
    } else if request.operation == Start && state.thread.None? {
      outcome := Failed(ThreadIdentityChanged);
    } else if !state.terminal {
      outcome := Failed(TerminalMissing);
    } else {
      return Returned;
    }
    assert FailsAt(request, events, broken, observer.reply, before, observer.seen, outcome.code, |events|);
  }

  lemma AcceptsNothing(reply: (seq<Event>, Event) -> Reply, before: seq<Event>)
    ensures AcceptsAll(reply, before, [])
  {
  }

  /** What can still become a whole turn has no thread only while nothing has come and one is needed. */
  lemma EndedEarly(request: Request, word: seq<Event>)
    requires Viable(request, word)
    ensures NeedsThread(request) && !(word != [] && word[0].ThreadStarted?) <==> NeedsThread(request) && word == []
    ensures word == [] ==> !Complete(request, word)
  {
    ViableExactly(request, word);
  }

  lemma {:induction false} VisibleGrows(events: seq<Event>, k: nat)
    requires k <= |events|
    ensures Visible(events[..k]) <= Visible(events)
    decreases |events| - k
  {
    if k < |events| {
      VisibleStep(events, k);
      VisibleGrows(events, k + 1);
    } else {
      assert events[..k] == events;
    }
  }

  /** An event refused, by the acceptor or by the observer, is refused whatever comes after it. */
  lemma NotWhole(
    request: Request, events: seq<Event>, k: nat, reply: (seq<Event>, Event) -> Reply, before: seq<Event>)
    requires k < |events|
    requires !Viable(request, Visible(events[..k + 1])) || !AcceptsAll(reply, before, Visible(events[..k + 1]))
    ensures !Complete(request, Visible(events)) || !AcceptsAll(reply, before, Visible(events))
  {
    hide Viable, AcceptsAll, Complete, Visible;
    VisibleGrows(events, k + 1);
    if Complete(request, Visible(events)) { PrefixViable(request, Visible(events[..k + 1]), Visible(events)); }
    if AcceptsAll(reply, before, Visible(events)) { PrefixAccepted(reply, before, Visible(events[..k + 1]), Visible(events)); }
  }

  lemma PrefixViable(request: Request, word: seq<Event>, whole: seq<Event>)
    requires word <= whole && Complete(request, whole)
    ensures Viable(request, word)
  {
    assert word + whole[|word|..] == whole;
  }

  lemma PrefixAccepted(reply: (seq<Event>, Event) -> Reply, before: seq<Event>, word: seq<Event>, whole: seq<Event>)
    requires word <= whole && AcceptsAll(reply, before, whole)
    ensures AcceptsAll(reply, before, word)
  {
    forall j | 0 <= j < |word| ensures reply(before + word[..j], word[j]).Accepts? {
      assert whole[..j] == word[..j] && whole[j] == word[j];
    }
  }

  /** No whole turn goes on: an accepted stream has one terminal event, its last visible one. */
  lemma CompleteEnds(request: Request, word: seq<Event>)
    requires Complete(request, word)
    ensures Closes(word[|word| - 1])
    ensures forall k :: 0 <= k < |word| - 1 ==> !Closes(word[k])
    ensures forall rest: seq<Event> :: rest != [] ==> !Viable(request, word + rest)
  {
    forall rest: seq<Event> | rest != [] ensures !Viable(request, word + rest) {
      ViableExactly(request, word + rest);
    }
  }
}
