/**
 The execution backend of one turn: its journal, the effect it runs at most once, and the terminal event it publishes
 only when the whole stream of the turn has been accepted.
 */
module CodexBackend {
  import opened Options
  import opened CodexStream

  type Id = int

  datatype Lifecycle = Unknown | Active | Succeeded | FailedTurn

  /** A terminal carries its own evidence: the digest of an event stands for the event. */
  datatype Turn = Turn(intent: Id, thread: Option<string>, lifecycle: Lifecycle, terminal: Option<Event>, revision: nat)

  datatype Receipt = Receipt(id: Id, turn: Id, row: Turn)

  datatype Recorded = Recorded(turn: Id, thread: string, terminal: Event, receipt: Receipt)

  datatype JournalError = NotFound | Conflict | Stale | Integrity

  /** Turns by backend execution, and terminal operations by the intent they answer. */
  datatype Book = Book(turns: map<Id, Turn>, operations: map<Id, Recorded>)

  datatype Prepared = Prepared(turn: Id, replayed: bool) | Refused(error: JournalError)

  // ---------------------------------------------------------------- the journal

  predicate HasTurn(b: Book, intent: Id) {
    exists t :: t in b.turns && b.turns[t].intent == intent
  }

  /** The terminal operation of a turn answers its intent, repeats its terminal, and its receipt repeats the turn. */
  predicate Agrees(b: Book, intent: Id, o: Recorded) {
    && o.turn in b.turns && b.turns[o.turn].intent == intent
    && b.turns[o.turn].thread == Some(o.thread) && b.turns[o.turn].terminal == Some(o.terminal)
    && b.turns[o.turn].lifecycle == LifecycleOf(o.terminal)
    && o.receipt == Receipt(o.receipt.id, o.turn, b.turns[o.turn])
  }

  function LifecycleOf(terminal: Event): Lifecycle {
    if terminal.TurnCompleted? then Succeeded else FailedTurn
  }

  ghost predicate Sound(b: Book) {
    && (forall t, u :: t in b.turns && u in b.turns && b.turns[t].intent == b.turns[u].intent ==> t == u)
    && (forall i :: i in b.operations ==> Agrees(b, i, b.operations[i]))
    && (forall t :: t in b.turns ==>
          && (b.turns[t].terminal.Some? <==> b.turns[t].intent in b.operations)
          && (b.turns[t].terminal.None? ==> b.turns[t].lifecycle == Unknown || b.turns[t].lifecycle == Active)
          && (b.turns[t].lifecycle == Active ==> b.turns[t].thread.Some?))
  }

  /** Marks the turn as running in the thread; refusal is what the current authorization and tuple are refused with. */
  function Marked(b: Book, t: Id, thread: string, refusal: Option<JournalError>): (r: Option<JournalError>) {
    if t !in b.turns then Some(NotFound)
    else if refusal.Some? then refusal
    else if b.turns[t].thread.Some? && b.turns[t].thread.value != thread then Some(Conflict)
    else if b.turns[t].lifecycle == Active && b.turns[t].thread == Some(thread) then None
    else if b.turns[t].lifecycle != Unknown then Some(Conflict)
    else None
  }

  function AfterMark(b: Book, t: Id, thread: string, refusal: Option<JournalError>): Book {
    if Marked(b, t, thread, refusal).Some? || b.turns[t].lifecycle == Active then b
    else b.(turns := b.turns[t := b.turns[t].(thread := Some(thread), lifecycle := Active, revision := b.turns[t].revision + 1)])
  }

  lemma MarkSound(b: Book, t: Id, thread: string, refusal: Option<JournalError>)
    requires Sound(b)
    ensures Sound(AfterMark(b, t, thread, refusal))
  {
    var next := AfterMark(b, t, thread, refusal);
    forall i | i in next.operations ensures Agrees(next, i, next.operations[i]) {
      assert Agrees(b, i, b.operations[i]);
    }
  }

  class Journal {
    var turns: map<Id, Turn>
    var operations: map<Id, Recorded>

    function Contents(): Book
      reads this
    {
      Book(turns, operations)
    }

    constructor ()
      ensures Contents() == Book(map[], map[]) && Sound(Contents())
    {
      turns, operations := map[], map[];
    }

    /** A turn is inserted only when its intent has none; otherwise the one it has is handed out again. */
    method Prepare(intent: Id, newTurn: Id, thread: Option<string>, refusal: Option<JournalError>) returns (r: Prepared)
      requires Sound(Contents())
      modifies this
      ensures Sound(Contents()) && operations == old(operations)
      ensures old(HasTurn(Contents(), intent)) ==>
                turns == old(turns) && r.Prepared? && r.replayed && r.turn in turns && turns[r.turn].intent == intent
      ensures !old(HasTurn(Contents(), intent)) ==>
                (r.Prepared? <==> refusal.None? && newTurn !in old(turns)) &&
                (r.Prepared? ==>
                   !r.replayed && r.turn == newTurn &&
                   turns == old(turns)[newTurn := Turn(intent, thread, Unknown, None, 1)]) &&
                (r.Refused? ==> turns == old(turns))
    {
      if t :| t in turns && turns[t].intent == intent {
        return Prepared(t, true);
      }
      if refusal.Some? { return Refused(refusal.value); }
      if newTurn in turns { return Refused(Conflict); }
      ghost var was := Contents();
      turns := turns[newTurn := Turn(intent, thread, Unknown, None, 1)];
      forall i | i in operations ensures i != intent {
        assert Agrees(was, i, operations[i]);
      }
      forall i | i in operations ensures Agrees(Contents(), i, operations[i]) {
        assert Agrees(was, i, operations[i]);
      }
      return Prepared(newTurn, false);
    }

    method MarkActive(t: Id, thread: string, refusal: Option<JournalError>) returns (error: Option<JournalError>)
      requires Sound(Contents())
      modifies this
      ensures error == Marked(old(Contents()), t, thread, refusal)
      ensures Contents() == AfterMark(old(Contents()), t, thread, refusal) && Sound(Contents())
    {
      MarkSound(Contents(), t, thread, refusal);
      error := Marked(Contents(), t, thread, refusal);
      if error.None? && turns[t].lifecycle != Active {
        turns := turns[t := turns[t].(thread := Some(thread), lifecycle := Active, revision := turns[t].revision + 1)];
      }
    }

    /** The one terminal operation of a turn is written together with the turn's terminal, or nothing is. */
    method RecordTerminal(t: Id, terminal: Event, receipt: Id, refusal: Option<JournalError>)
      returns (error: Option<JournalError>)
      requires Sound(Contents()) && Closes(terminal)
      modifies this
      ensures Sound(Contents())
      ensures error.None? <==>
                && t in old(turns) && old(turns[t].thread.Some?) && old(turns[t].lifecycle == Active) && refusal.None?
      ensures error.Some? ==> Contents() == old(Contents())
      ensures error.None? ==>
                && t in turns && turns == old(turns)[t := turns[t]]
                && turns[t] == old(turns[t]).(lifecycle := LifecycleOf(terminal), terminal := Some(terminal),
                                              revision := old(turns[t].revision) + 1)
                && old(turns[t]).intent !in old(operations)
                && operations == old(operations)[turns[t].intent :=
                     Recorded(t, turns[t].thread.value, terminal, Receipt(receipt, t, turns[t]))]
    {
      if t !in turns || turns[t].thread.None? { return Some(NotFound); }
      var row := turns[t];
      if row.intent in operations {
        // The turn has ended: what was recorded for it stays.
        assert Agrees(Contents(), row.intent, operations[row.intent]);
        return Some(if operations[row.intent].terminal.TurnCompleted? == terminal.TurnCompleted? then Integrity else Conflict);
      }
      if refusal.Some? { return refusal; }
      if row.lifecycle != Active { return Some(Conflict); }
      ghost var was := Contents();
      var done := row.(lifecycle := LifecycleOf(terminal), terminal := Some(terminal), revision := row.revision + 1);
      turns := turns[t := done];
      operations := operations[row.intent := Recorded(t, row.thread.value, terminal, Receipt(receipt, t, done))];
      forall i | i in operations ensures Agrees(Contents(), i, operations[i]) {
        if i != row.intent { assert Agrees(was, i, operations[i]); }
      }
      return None;
    }
  }

  // ---------------------------------------------------------------- what the callback does with the events

  /** The terminal event the callback holds back until the stream has been accepted. */
  function Provisional(seen: seq<Event>): Option<Event> {
    if seen == [] then None
    else if Closes(seen[|seen| - 1]) then Some(seen[|seen| - 1]) else Provisional(seen[..|seen| - 1])
  }

  /** The journal after the callback has seen the given events of turn t; refusals are what it runs into. */
  function BookAfter(b: Book, t: Id, refusals: seq<Event> -> Option<JournalError>, seen: seq<Event>): Book {
    if seen == [] then b
    else
      var init, e := seen[..|seen| - 1], seen[|seen| - 1];
      var before := BookAfter(b, t, refusals, init);
      if e.ThreadStarted? then AfterMark(before, t, e.thread, refusals(init)) else before
  }

  /** What the callback answers: an error of the journal is not one of the driver's own. */
  function CallbackReply(b: Book, t: Id, refusals: seq<Event> -> Option<JournalError>, seen: seq<Event>, e: Event): Reply {
    if e.ThreadStarted? then
      if Marked(BookAfter(b, t, refusals, seen), t, e.thread, refusals(seen)).Some? then Throws(None) else Accepts
    else if Closes(e) && Provisional(seen).Some? then Throws(Some(TerminalDuplicated))
    else Accepts
  }

  lemma {:induction false} BookAfterSound(b: Book, t: Id, refusals: seq<Event> -> Option<JournalError>, seen: seq<Event>)
    requires Sound(b)
    ensures var after := BookAfter(b, t, refusals, seen);
            && Sound(after) && after.operations == b.operations && after.turns.Keys == b.turns.Keys
            && (forall u :: u in b.turns && u != t ==> after.turns[u] == b.turns[u])
            && (t in b.turns ==> after.turns[t].intent == b.turns[t].intent && after.turns[t].terminal == b.turns[t].terminal)
    decreases |seen|
  {
    if seen != [] {
      var init, e := seen[..|seen| - 1], seen[|seen| - 1];
      BookAfterSound(b, t, refusals, init);
      if e.ThreadStarted? { MarkSound(BookAfter(b, t, refusals, init), t, e.thread, refusals(init)); }
    }
  }

  /** Of the events of a whole turn, only its thread touches the journal. */
  lemma BookAfterWhole(
    b: Book, t: Id, refusals: seq<Event> -> Option<JournalError>, request: Request, word: seq<Event>)
    requires Complete(request, word)
    ensures BookAfter(b, t, refusals, word) ==
            if word[0].ThreadStarted? then AfterMark(b, t, word[0].thread, refusals([])) else b
    ensures Provisional(word) == Some(word[|word| - 1])
  {
    hide AfterMark, ValidThread, Bounded;
    AfterNext(b, t, refusals, [], word[0]);
    assert [word[0]] == [] + [word[0]];
    AfterNext(b, t, refusals, [word[0]], word[1]);
    if |word| == 3 {
      AfterNext(b, t, refusals, [word[0]] + [word[1]], word[2]);
      assert word == [word[0]] + [word[1]] + [word[2]];
    } else {
      assert word == [word[0]] + [word[1]];
    }
  }

  /** A whole turn whose thread could be marked leaves the turn active in that thread, with its own terminal held back. */
  lemma WholeTurn(
    b: Book, t: Id, refusals: seq<Event> -> Option<JournalError>, request: Request, word: seq<Event>,
    reply: (seq<Event>, Event) -> Reply)
    requires t in b.turns && Complete(request, word) && AcceptsAll(reply, [], word)
    requires forall seen, e :: reply(seen, e) == CallbackReply(b, t, refusals, seen, e)
    requires b.turns[t].thread == request.thread
    requires if request.operation == Start then request.thread.None? else request.thread.Some? && b.turns[t].lifecycle == Active
    ensures var after := BookAfter(b, t, refusals, word);
            && t in after.turns && after.turns[t].lifecycle == Active && after.turns[t].thread.Some?
            && (word[0].ThreadStarted? ==> after.turns[t].thread == Some(word[0].thread))
            && (!word[0].ThreadStarted? ==> after.turns[t].thread == request.thread)
            && Provisional(word) == Some(word[|word| - 1])
  {
    hide Provisional, ValidThread, Bounded;
    BookAfterWhole(b, t, refusals, request, word);
    assert reply([] + word[..0], word[0]).Accepts?;
    assert [] + word[..0] == [];
  }

  /** When the journal lets the thread be marked, the callback accepts every event of a whole turn. */
  lemma WholeTurnAccepted(
    b: Book, t: Id, refusals: seq<Event> -> Option<JournalError>, request: Request, word: seq<Event>,
    reply: (seq<Event>, Event) -> Reply)
    requires Complete(request, word)
    requires forall seen, e :: reply(seen, e) == CallbackReply(b, t, refusals, seen, e)
    ensures AcceptsAll(reply, [], word) <==>
              (word[0].ThreadStarted? ==> Marked(b, t, word[0].thread, refusals([])).None?)
  {
    hide Marked, AfterMark, ValidThread, Bounded;
    assert forall k :: 0 <= k < |word| ==> [] + word[..k] == word[..k];
    assert word[..0] == [];
    assert reply([] + word[..0], word[0]) == CallbackReply(b, t, refusals, [], word[0]);
    CompleteEnds(request, word);
    forall k | 0 < k < |word| ensures reply([] + word[..k], word[k]).Accepts? {
      NoneProvisional(word[..k]);
    }
  }

  lemma {:induction false} NoneProvisional(seen: seq<Event>)
    requires forall k :: 0 <= k < |seen| ==> !Closes(seen[k])
    ensures Provisional(seen) == None
    decreases |seen|
  {
    if seen != [] { NoneProvisional(seen[..|seen| - 1]); }
  }

  lemma AfterNext(b: Book, t: Id, refusals: seq<Event> -> Option<JournalError>, seen: seq<Event>, e: Event)
    ensures BookAfter(b, t, refusals, seen + [e]) ==
            if e.ThreadStarted? then AfterMark(BookAfter(b, t, refusals, seen), t, e.thread, refusals(seen))
            else BookAfter(b, t, refusals, seen)
  {
    assert (seen + [e])[..|seen|] == seen;
  }

  // ---------------------------------------------------------------- the backend

  datatype DriverStatus = DriverReady | CredentialUnavailable | ConfigurationChanged | ConstructionFailed

  datatype Failure = Ambiguous | IntegrityFailure | Conflicting | Unauthorized | PermanentExternal | JournalFailure(error: JournalError)

  datatype Answer = Ok(receipt: Receipt) | Err(failure: Failure)

  /** What an invocation meets outside the journal: the workspace checks, the driver, its stream, the fresh ids, and refusals. */
  datatype Surroundings = Surroundings(
    verified: bool, verifiedAgain: bool, driver: DriverStatus, events: seq<Event>, broken: bool, turn: Id, receipt: Id,
    prepareRefusal: Option<JournalError>, resumeRefusal: Option<JournalError>,
    refusals: seq<Event> -> Option<JournalError>, terminalRefusal: Option<JournalError>)

  function DriverFailure(d: DriverStatus): Failure
    requires !d.DriverReady?
  {
    match d
    case CredentialUnavailable => Unauthorized
    case ConfigurationChanged => Conflicting
    case ConstructionFailed => PermanentExternal
  }

  /** The stream of the turn was accepted as a whole, and nothing else stood in the way of recording its terminal. */
  predicate Succeeds(request: Request, s: Surroundings) {
    && s.verifiedAgain && s.driver.DriverReady? && !s.broken && Complete(request, Visible(s.events))
    && (request.operation == Resume ==> s.resumeRefusal.None?)
    && (Visible(s.events)[0].ThreadStarted? ==> s.refusals([]).None?) && s.terminalRefusal.None?
  }

  /** The thread a stream runs in: the one it names, or else the one it was resumed in. */
  function ThreadOf(request: Request, word: seq<Event>): Option<string> {
    if word != [] && word[0].ThreadStarted? then Some(word[0].thread) else request.thread
  }

  /** What was recorded for an intent rests on this very stream: its turn, its thread, its terminal event. */
  predicate RecordedFrom(request: Request, s: Surroundings, t: Id, o: Recorded) {
    var word := Visible(s.events);
    && word != [] && o.turn == t && o.terminal == word[|word| - 1] && Some(o.thread) == ThreadOf(request, word)
    && o.receipt.id == s.receipt
  }

  lemma WholeNotEmpty(request: Request, events: seq<Event>)
    ensures Complete(request, Visible(events)) ==> Visible(events) != []
  {
  }

  /** What a whole turn leaves in the journal once the callback has seen it, and when the callback accepts it. */
  lemma ConsumedWhole(
    b: Book, t: Id, request: Request, s: Surroundings, reply: (seq<Event>, Event) -> Reply)
    requires t in b.turns && b.turns[t].thread == request.thread
    requires if request.operation == Start then request.thread.None? && b.turns[t].lifecycle == Unknown
             else request.thread.Some? && b.turns[t].lifecycle == Active
    requires forall seen, e :: reply(seen, e) == CallbackReply(b, t, s.refusals, seen, e)
    ensures var word := Visible(s.events);
            Complete(request, word) ==>
              && (AcceptsAll(reply, [], word) <==> (word[0].ThreadStarted? ==> s.refusals([]).None?))
              && (AcceptsAll(reply, [], word) ==>
                    var after := BookAfter(b, t, s.refusals, word);
                    && t in after.turns && after.turns[t].lifecycle == Active && after.turns[t].thread.Some?
                    && after.turns[t].thread == ThreadOf(request, word)
                    && Provisional(word) == Some(word[|word| - 1]) && Closes(word[|word| - 1]))
  {
    hide BookAfter, AcceptsAll, Provisional, ValidThread, Bounded, Visible;
    var word := Visible(s.events);
    if Complete(request, word) {
      WholeTurnAccepted(b, t, s.refusals, request, word, reply);
      CompleteEnds(request, word);
      if AcceptsAll(reply, [], word) { WholeTurn(b, t, s.refusals, request, word, reply); }
    }
  }

  class Backend {
    const journal: Journal
    var active: set<Id>
    /** The turns whose driver was run, in order. */
    ghost var runs: seq<Id>

    constructor (journal: Journal)
      ensures this.journal == journal && active == {} && runs == []
    {
      this.journal := journal;
      active, runs := {}, [];
    }

    /** A turn that was prepared before is answered from what was recorded for it, or not at all. */
    method Replay(t: Id) returns (answer: Answer)
      requires Sound(journal.Contents()) && t in journal.turns
      ensures var i := journal.turns[t].intent;
              answer == if i in journal.operations then Ok(journal.operations[i].receipt) else Err(Ambiguous)
    {
      var i := journal.turns[t].intent;
      if i !in journal.operations { return Err(Ambiguous); }
      var o := journal.operations[i];
      assert Agrees(journal.Contents(), i, o);
      var receipt := Receipt(o.receipt.id, t, journal.turns[t]);
      answer := if receipt == o.receipt then Ok(receipt) else Err(IntegrityFailure);
    }

    /** The effect of a turn that was prepared just now. */
    method RunFresh(t: Id, request: Request, s: Surroundings) returns (answer: Answer)
      requires Sound(journal.Contents()) && t in journal.turns && t !in active
      requires journal.turns[t] == Turn(journal.turns[t].intent, request.thread, Unknown, None, 1)
      requires request.thread.None? <==> request.operation == Start
      modifies this, journal
      ensures Sound(journal.Contents()) && active == old(active)
      ensures runs == old(runs) || runs == old(runs) + [t]
      ensures forall u :: u in old(journal.turns) && u != t ==> u in journal.turns && journal.turns[u] == old(journal.turns[u])
      ensures t in journal.turns && journal.turns[t].intent == old(journal.turns[t].intent)
      ensures journal.turns.Keys == old(journal.turns.Keys)
      ensures answer.Ok? <==> Succeeds(request, s)
      ensures answer.Err? ==> journal.operations == old(journal.operations)
      ensures answer.Ok? ==>
                var i := journal.turns[t].intent;
                && i !in old(journal.operations) && i in journal.operations
                && journal.operations == old(journal.operations)[i := journal.operations[i]]
                && RecordedFrom(request, s, t, journal.operations[i]) && answer.receipt == journal.operations[i].receipt
                && runs == old(runs) + [t]
    {
      if !s.verifiedAgain { return Err(Conflicting); }
      active := active + {t};
      answer := RunActive(t, request, s);
      active := active - {t};
    }

    /** Runs the driver: its stream was accepted as a whole, or there is no terminal event. */
    method Consume(t: Id, request: Request, s: Surroundings) returns (terminal: Option<Event>)
      requires Sound(journal.Contents()) && t in journal.turns && journal.turns[t].thread == request.thread
      requires journal.turns[t].terminal.None?
      requires if request.operation == Start then request.thread.None? && journal.turns[t].lifecycle == Unknown
               else request.thread.Some? && journal.turns[t].lifecycle == Active
      modifies this`runs, journal
      ensures Sound(journal.Contents()) && journal.operations == old(journal.operations) && runs == old(runs) + [t]
      ensures forall u :: u in old(journal.turns) && u != t ==> u in journal.turns && journal.turns[u] == old(journal.turns[u])
      ensures journal.turns.Keys == old(journal.turns.Keys)
      ensures journal.turns[t].intent == old(journal.turns[t].intent)
      ensures var word := Visible(s.events);
              && (terminal.Some? <==>
                    !s.broken && Complete(request, word) && (word[0].ThreadStarted? ==> s.refusals([]).None?))
              && (terminal.Some? ==>
                    && terminal.value == word[|word| - 1] && Closes(terminal.value)
                    && journal.turns[t].lifecycle == Active && journal.turns[t].thread.Some?
                    && journal.turns[t].thread == ThreadOf(request, word))
    {
      var book := journal.Contents();
      var observer := new Observer((seen, e) => CallbackReply(book, t, s.refusals, seen, e));
      runs := runs + [t];
      var outcome := CodexStream.Run(request, s.events, s.broken, observer);
      journal.turns := BookAfter(book, t, s.refusals, observer.seen).turns;
      terminal := if outcome.Returned? then Provisional(observer.seen) else None;
      BookAfterSound(book, t, s.refusals, observer.seen);
      ConsumedWhole(book, t, request, s, observer.reply);
      assert [] + Visible(s.events) == Visible(s.events);
    }

    /** The effect of a turn that was just prepared, while it is registered as active. */
    method RunActive(t: Id, request: Request, s: Surroundings) returns (answer: Answer)
      requires Sound(journal.Contents()) && t in journal.turns && s.verifiedAgain
      requires journal.turns[t] == Turn(journal.turns[t].intent, request.thread, Unknown, None, 1)
      requires request.thread.None? <==> request.operation == Start
      modifies this`runs, journal
      ensures Sound(journal.Contents())
      ensures runs == old(runs) || runs == old(runs) + [t]
      ensures forall u :: u in old(journal.turns) && u != t ==> u in journal.turns && journal.turns[u] == old(journal.turns[u])
      ensures t in journal.turns && journal.turns[t].intent == old(journal.turns[t].intent)
      ensures journal.turns.Keys == old(journal.turns.Keys)
      ensures answer.Ok? <==> Succeeds(request, s)
      ensures answer.Err? ==> journal.operations == old(journal.operations)
      ensures answer.Ok? ==>
                var i := journal.turns[t].intent;
                && i !in old(journal.operations) && i in journal.operations
                && journal.operations == old(journal.operations)[i := journal.operations[i]]
                && RecordedFrom(request, s, t, journal.operations[i]) && answer.receipt == journal.operations[i].receipt
                && runs == old(runs) + [t]
    {
      hide Complete, Agrees, Visible;
      if request.operation == Resume {
        var error := journal.MarkActive(t, request.thread.value, s.resumeRefusal);
        if error.Some? { return Err(JournalFailure(error.value)); }
      }
      if !s.driver.DriverReady? { return Err(DriverFailure(s.driver)); }
      var terminal := Consume(t, request, s);
      if terminal.None? { return Err(Ambiguous); }
      WholeNotEmpty(request, s.events);
      var error := journal.RecordTerminal(t, terminal.value, s.receipt, s.terminalRefusal);
      if error.Some? { return Err(JournalFailure(error.value)); }
      return Ok(journal.operations[journal.turns[t].intent].receipt);
    }

    /** The journal is sound, active turns are journaled, and no driver was run twice for a turn: nor for an intent. */
    ghost predicate Valid()
      reads this, journal
    {
      && Sound(journal.Contents()) && active <= journal.turns.Keys
      && (forall k :: 0 <= k < |runs| ==> runs[k] in journal.turns)
      && (forall j, k :: 0 <= j < k < |runs| ==> runs[j] != runs[k])
    }

    /** start and resume: verify, prepare, and run unless the intent was prepared before. */
    method Invoke(request: Request, intent: Id, s: Surroundings) returns (answer: Answer)
      requires Valid() && (request.thread.None? <==> request.operation == Start)
      modifies this, journal
      ensures Valid() && active == old(active)
      ensures forall i :: i in old(journal.operations) ==>
                i in journal.operations && journal.operations[i] == old(journal.operations[i])
      ensures old(HasTurn(journal.Contents(), intent)) ==>
                && runs == old(runs) && journal.Contents() == old(journal.Contents())
                && (s.verified ==> answer == if intent in journal.operations then Ok(journal.operations[intent].receipt)
                                             else Err(Ambiguous))
      ensures !old(HasTurn(journal.Contents(), intent)) ==>
                && (runs == old(runs) || (runs == old(runs) + [s.turn] && HasTurn(journal.Contents(), intent)))
                && (answer.Ok? <==> s.verified && s.prepareRefusal.None? && s.turn !in old(journal.turns) && Succeeds(request, s))
                && (answer.Ok? ==>
                      && journal.operations.Keys == old(journal.operations.Keys) + {intent}
                      && RecordedFrom(request, s, s.turn, journal.operations[intent])
                      && answer.receipt == journal.operations[intent].receipt)
                && (answer.Err? ==> journal.operations == old(journal.operations))
    {
      if !s.verified { return Err(Conflicting); }
      var prepared := journal.Prepare(intent, s.turn, request.thread, s.prepareRefusal);
      if prepared.Refused? { return Err(JournalFailure(prepared.error)); }
      if prepared.replayed {
        answer := Replay(prepared.turn);
      } else {
        answer := RunFresh(prepared.turn, request, s);
        assert journal.turns[s.turn].intent == intent;
      }
    }
  }
}
