/**
 The command journal: each command is recorded under its owner and key before it is sent on, and
 its outcome is recorded after. Every statement against the table is one atomic step; calls run
 concurrently, retry, and may crash between any two steps.
 */
module CommandJournal {
  import opened Wrappers

  /** JSON text: `canonical` decodes and encodes again, `compact` only drops blanks. */
  datatype Codec = Codec(canonical: string -> Option<string>, compact: string -> Option<string>)

  /** Encoding again changes nothing, and blanks carry no meaning. */
  ghost predicate Lawful(c: Codec) {
    && (forall x :: c.canonical(x).Some? ==> c.canonical(c.canonical(x).value) == c.canonical(x))
    && (forall x :: c.compact(x).Some? ==> c.canonical(c.compact(x).value) == c.canonical(x))
  }

  datatype Id = Id(owner: string, key: string)

  /** A journal row; without a result the command is pending. */
  datatype Row = Row(body: string, result: Option<string>)

  datatype Reason = BadKey | BadCommand | Unreadable | KeyReused | StillPending | NotRouted(status: int) | NotRecorded
    | Unknown | Rejected(status: int) | NotSaved

  datatype Answer = Given(text: string) | Refused(reason: Reason)

  predicate KeyChar(c: char) {
    'A' <= c <= 'Z' || 'a' <= c <= 'z' || '0' <= c <= '9' || c == '_' || c == ':' || c == '-'
  }

  predicate ValidKey(key: string) { 8 <= |key| <= 100 && forall i :: 0 <= i < |key| ==> KeyChar(key[i]) }

  /** A command's canonical text, and the text to store for it. */
  datatype Text = Text(body: string, stored: string)

  /** Checks key and document; the caller may send the original text along, which is then what is stored. */
  function Checked(codec: Codec, key: string, document: string, original: Option<string>): Result<Text, Reason> {
    if !ValidKey(key) then Failure(BadKey)
    else
      var body := codec.canonical(document);
      if body.None? then Failure(BadCommand)
      else if original.None? then Success(Text(body.value, body.value))
      else if codec.canonical(original.value) != body then Failure(BadCommand)
      else if codec.compact(original.value).None? then Failure(BadCommand)
      else Success(Text(body.value, codec.compact(original.value).value))
  }

  lemma CheckedMeansTheSame(codec: Codec, key: string, document: string, original: Option<string>)
    requires Lawful(codec) && Checked(codec, key, document, original).Success?
    ensures var t := Checked(codec, key, document, original).value;
      codec.canonical(t.stored) == Some(t.body) == codec.canonical(document)
  {
  }

  /** What the journal already says about a command; `None` when it has not been seen. */
  function Existing(codec: Codec, rows: map<Id, Row>, id: Id, body: string): Option<Answer> {
    if id !in rows then None
    else if codec.canonical(rows[id].body).None? then Some(Refused(Unreadable))
    else if codec.canonical(rows[id].body).value != body then Some(Refused(KeyReused))
    else if rows[id].result.None? then Some(Refused(StillPending))
    else Some(Given(rows[id].result.value))
  }

  /** The upstream's reply: a result to record, a server-side failure, or a result that has no encoding. */
  datatype Reply = Decided(text: string) | Failed(status: int) | Unencodable

  /** What a statement against the table came to. It may fail after it took effect. */
  datatype Luck = Works | FailsBefore | FailsAfter

  datatype Stage = Checking | Routing | Recording | Rechecking | Sending | Saving(text: string)
    | Answered(answer: Answer) | Crashed

  datatype Call = Call(id: Id, body: string, stored: string, stage: Stage)

  datatype Forward = Forward(id: Id, call: nat, reply: Reply)

  datatype World = World(rows: map<Id, Row>, calls: seq<Call>, forwards: seq<Forward>)

  datatype Step =
    | Start(id: Id, document: string, original: Option<string>)
    | Check(call: nat, readable: bool)
    | Route(call: nat, refusal: Option<int>)
    | Record(call: nat, luck: Luck)
    | Recheck(call: nat, readable: bool)
    | Send(call: nat, reply: Reply)
    | Save(call: nat, luck: Luck)
    | Crash(call: nat)

  predicate At(w: World, i: nat, stage: Stage) { i < |w.calls| && w.calls[i].stage == stage }

  function Move(w: World, i: nat, stage: Stage): World
    requires i < |w.calls|
  {
    w.(calls := w.calls[i := w.calls[i].(stage := stage)])
  }

  /** Steps that are not possible change nothing. */
  function Next(codec: Codec, w: World, step: Step): World {
    match step
    case Start(id, document, original) =>
      var checked := Checked(codec, id.key, document, original);
      w.(calls := w.calls + [if checked.Success? then Call(id, checked.value.body, checked.value.stored, Checking)
                             else Call(id, document, "", Answered(Refused(checked.error)))])
    case Check(i, readable) =>
      if !At(w, i, Checking) then w
      else if !readable then Move(w, i, Answered(Refused(Unreadable)))
      else
        var found := Existing(codec, w.rows, w.calls[i].id, w.calls[i].body);
        Move(w, i, if found.Some? then Answered(found.value) else Routing)
    case Route(i, refusal) =>
      if !At(w, i, Routing) then w
      else Move(w, i, if refusal.Some? then Answered(Refused(NotRouted(refusal.value))) else Recording)
    case Record(i, luck) =>
      if !At(w, i, Recording) then w
      else
        var c := w.calls[i];
        var inserted := w.(rows := if c.id in w.rows then w.rows else w.rows[c.id := Row(c.stored, None)]);
        (match luck
         case FailsBefore => Move(w, i, Answered(Refused(NotRecorded)))
         case FailsAfter => Move(inserted, i, Answered(Refused(Unknown)))
         case Works => Move(inserted, i, if c.id in w.rows then Rechecking else Sending))
    case Recheck(i, readable) =>
      if !At(w, i, Rechecking) then w
      else if !readable then Move(w, i, Answered(Refused(Unreadable)))
      else
        var found := Existing(codec, w.rows, w.calls[i].id, w.calls[i].body);
        Move(w, i, Answered(if found.Some? then found.value else Given("")))
    case Send(i, reply) =>
      if !At(w, i, Sending) then w
      else
        var sent := w.(forwards := w.forwards + [Forward(w.calls[i].id, i, reply)]);
        (match reply
         case Decided(text) => Move(sent, i, Saving(text))
         case Failed(status) => Move(sent, i, Answered(Refused(Rejected(status))))
         case Unencodable => Move(sent, i, Answered(Refused(NotSaved))))
    case Save(i, luck) =>
      if !(i < |w.calls| && w.calls[i].stage.Saving?) then w
      else
        var c := w.calls[i];
        var rows := if c.id in w.rows then w.rows[c.id := w.rows[c.id].(result := Some(c.stage.text))] else w.rows;
        var saved := w.(rows := rows);
        (match luck
         case Works => Move(saved, i, Answered(Given(c.stage.text)))
         case FailsBefore => Move(w, i, Answered(Refused(NotSaved)))
         case FailsAfter => Move(saved, i, Answered(Refused(NotSaved))))
    case Crash(i) => if i < |w.calls| && !w.calls[i].stage.Answered? then Move(w, i, Crashed) else w
  }

  function Run(codec: Codec, steps: seq<Step>): World {
    if steps == [] then World(map[], [], []) else Next(codec, Run(codec, steps[..|steps| - 1]), steps[|steps| - 1])
  }

  // ---- The invariant ----

  /** A call that holds the right to send, or has sent and holds the reply. */
  predicate Holds(c: Call) { c.stage.Sending? || c.stage.Saving? }

  /** Only the call whose insertion made the row holds the right to send. */
  ghost predicate HoldersAreAlone(w: World) {
    forall i, j :: 0 <= i < j < |w.calls| && Holds(w.calls[i]) && Holds(w.calls[j]) ==> w.calls[i].id != w.calls[j].id
  }

  ghost predicate HolderOk(w: World, c: Call, i: nat) {
    Holds(c) ==>
      && c.id in w.rows && w.rows[c.id].result.None?
      && (c.stage.Sending? ==> forall f :: 0 <= f < |w.forwards| ==> w.forwards[f].id != c.id)
      && (c.stage.Saving? ==> SentBy(w, c.id, c.stage.text))
  }

  /** The one reply that was received for `id` said `text`. */
  ghost predicate SentBy(w: World, id: Id, text: string) {
    exists f :: 0 <= f < |w.forwards| && w.forwards[f].id == id && w.forwards[f].reply == Decided(text)
  }

  ghost predicate HoldersOk(w: World) {
    forall i :: 0 <= i < |w.calls| ==> HolderOk(w, w.calls[i], i)
  }

  ghost predicate ForwardsOk(w: World) {
    && (forall f :: 0 <= f < |w.forwards| ==> w.forwards[f].id in w.rows && w.forwards[f].call < |w.calls|)
    && (forall f, g :: 0 <= f < g < |w.forwards| ==> w.forwards[f].id != w.forwards[g].id)
  }

  /** A recorded result is the reply to the one forward. */
  ghost predicate ResultsOk(w: World) {
    forall id :: id in w.rows && w.rows[id].result.Some? ==> SentBy(w, id, w.rows[id].result.value)
  }

  /** What is stored means what its call asked for. */
  ghost predicate BodiesOk(codec: Codec, w: World) {
    && (forall id :: id in w.rows ==> codec.canonical(w.rows[id].body).Some?)
    && (forall i :: 0 <= i < |w.calls| && !w.calls[i].stage.Answered? ==>
        codec.canonical(w.calls[i].stored) == Some(w.calls[i].body))
    && (forall i :: 0 <= i < |w.calls| && Holds(w.calls[i]) && w.calls[i].id in w.rows ==>
        codec.canonical(w.rows[w.calls[i].id].body) == Some(w.calls[i].body))
  }

  /** Whoever was given an answer asked for the recorded command, and got its recorded result. */
  ghost predicate AnswerOk(codec: Codec, w: World, c: Call) {
    && (c.stage.Answered? && c.stage.answer.Given? ==>
      && c.id in w.rows && codec.canonical(w.rows[c.id].body) == Some(c.body)
        && w.rows[c.id].result == Some(c.stage.answer.text))
    && (c.stage.Rechecking? ==> c.id in w.rows)
  }

  ghost predicate AnswersOk(codec: Codec, w: World) {
    forall i :: 0 <= i < |w.calls| ==> AnswerOk(codec, w, w.calls[i])
  }

  ghost predicate Good(codec: Codec, w: World) {
    HoldersAreAlone(w) && HoldersOk(w) && ForwardsOk(w) && ResultsOk(w) && BodiesOk(codec, w) && AnswersOk(codec, w)
  }

  /** A row, once made, keeps its body; a result, once recorded, stays. */
  ghost predicate RowsStay(w: World, v: World) {
    forall id :: id in w.rows ==>
      && id in v.rows && v.rows[id].body == w.rows[id].body
      && (w.rows[id].result.Some? ==> v.rows[id].result == w.rows[id].result)
  }

  /** A call that takes no right to send moves on; nothing else changes. */
  lemma MoveKeepsGood(codec: Codec, w: World, i: nat, stage: Stage)
    requires Good(codec, w) && i < |w.calls| && !stage.Sending? && !stage.Saving?
    requires !stage.Answered? ==> !w.calls[i].stage.Answered?
    requires AnswerOk(codec, w, w.calls[i].(stage := stage))
    ensures Good(codec, Move(w, i, stage)) && RowsStay(w, Move(w, i, stage))
  {
    var v := Move(w, i, stage);
    forall j | 0 <= j < |v.calls|
      ensures HolderOk(v, v.calls[j], j) && AnswerOk(codec, v, v.calls[j])
    {
      assert HolderOk(w, w.calls[j], j) && AnswerOk(codec, w, w.calls[j]);
      if j != i { assert v.calls[j] == w.calls[j]; }
    }
  }

  lemma StartKeepsGood(codec: Codec, w: World, id: Id, document: string, original: Option<string>)
    requires Lawful(codec) && Good(codec, w)
    ensures var v := Next(codec, w, Start(id, document, original)); Good(codec, v) && RowsStay(w, v)
  {
    var v := Next(codec, w, Start(id, document, original));
    if Checked(codec, id.key, document, original).Success? { CheckedMeansTheSame(codec, id.key, document, original); }
    hide Checked, Lawful;
    forall j | 0 <= j < |v.calls|
      ensures HolderOk(v, v.calls[j], j) && AnswerOk(codec, v, v.calls[j])
    {
      if j < |w.calls| {
        assert HolderOk(w, w.calls[j], j) && AnswerOk(codec, w, w.calls[j]);
        assert v.calls[j] == w.calls[j];
      }
    }
  }

  /** The table gains the row of a call that is recording. */
  function Inserted(w: World, i: nat): World
    requires i < |w.calls|
  {
    w.(rows := if w.calls[i].id in w.rows then w.rows else w.rows[w.calls[i].id := Row(w.calls[i].stored, None)])
  }

  lemma InsertKeepsGood(codec: Codec, w: World, i: nat)
    requires Good(codec, w) && At(w, i, Recording)
    ensures Good(codec, Inserted(w, i)) && RowsStay(w, Inserted(w, i)) && w.calls[i].id in Inserted(w, i).rows
  {
    var v := Inserted(w, i);
    forall j | 0 <= j < |v.calls|
      ensures HolderOk(v, v.calls[j], j) && AnswerOk(codec, v, v.calls[j])
    {
      assert HolderOk(w, w.calls[j], j) && AnswerOk(codec, w, w.calls[j]);
      if v.calls[j].stage.Saving? { SentStays(w, v, v.calls[j].id, v.calls[j].stage.text); }
    }
    forall id | id in v.rows && v.rows[id].result.Some?
      ensures SentBy(v, id, v.rows[id].result.value)
    {
      SentStays(w, v, id, w.rows[id].result.value);
    }
  }

  lemma SentStays(w: World, v: World, id: Id, text: string)
    requires SentBy(w, id, text) && |w.forwards| <= |v.forwards|
    requires forall f :: 0 <= f < |w.forwards| ==> v.forwards[f] == w.forwards[f]
    ensures SentBy(v, id, text)
  {
    var f :| 0 <= f < |w.forwards| && w.forwards[f].id == id && w.forwards[f].reply == Decided(text);
    assert v.forwards[f].id == id;
  }

  /** The call whose insertion made the row takes the right to send. */
  lemma TakingTheRight(codec: Codec, w: World, i: nat)
    requires Good(codec, w) && At(w, i, Recording) && w.calls[i].id !in w.rows
    ensures Good(codec, Move(Inserted(w, i), i, Sending))
  {
    var u, v, id := Inserted(w, i), Move(Inserted(w, i), i, Sending), w.calls[i].id;
    InsertKeepsGood(codec, w, i);
    assert forall j :: 0 <= j < |w.calls| && Holds(w.calls[j]) ==> HolderOk(w, w.calls[j], j) && w.calls[j].id != id;
    forall j | 0 <= j < |v.calls|
      ensures HolderOk(v, v.calls[j], j) && AnswerOk(codec, v, v.calls[j])
    {
      assert HolderOk(u, u.calls[j], j) && AnswerOk(codec, u, u.calls[j]);
      if j != i { assert v.calls[j] == u.calls[j]; }
    }
  }

  lemma RecordKeepsGood(codec: Codec, w: World, i: nat, luck: Luck)
    requires Good(codec, w)
    ensures var v := Next(codec, w, Record(i, luck)); Good(codec, v) && RowsStay(w, v)
  {
    if At(w, i, Recording) {
      InsertKeepsGood(codec, w, i);
      if luck.Works? && w.calls[i].id !in w.rows {
        TakingTheRight(codec, w, i);
      } else {
        hide Good;
        match luck
        case FailsBefore => MoveKeepsGood(codec, w, i, Answered(Refused(NotRecorded)));
        case FailsAfter => MoveKeepsGood(codec, Inserted(w, i), i, Answered(Refused(Unknown)));
        case Works => MoveKeepsGood(codec, Inserted(w, i), i, Rechecking);
      }
    }
  }

  lemma SendKeepsGood(codec: Codec, w: World, i: nat, reply: Reply)
    requires Good(codec, w)
    ensures var v := Next(codec, w, Send(i, reply)); Good(codec, v) && RowsStay(w, v)
  {
    var v := Next(codec, w, Send(i, reply));
    if At(w, i, Sending) {
      var id := w.calls[i].id;
      assert HolderOk(w, w.calls[i], i);
      forall j | 0 <= j < |v.calls|
        ensures HolderOk(v, v.calls[j], j) && AnswerOk(codec, v, v.calls[j])
      {
        assert HolderOk(w, w.calls[j], j) && AnswerOk(codec, w, w.calls[j]);
        if j == i {
          if reply.Decided? {
            assert v.forwards[|w.forwards|].id == id && v.forwards[|w.forwards|].reply == Decided(reply.text);
          }
        } else {
          assert v.calls[j] == w.calls[j];
          if w.calls[j].stage.Saving? { SentStays(w, v, w.calls[j].id, w.calls[j].stage.text); }
        }
      }
      forall k | k in v.rows && v.rows[k].result.Some?
        ensures SentBy(v, k, v.rows[k].result.value)
      {
        SentStays(w, v, k, w.rows[k].result.value);
      }
    }
  }

  /** The result is written into the pending row. */
  function Saved(w: World, i: nat): World
    requires i < |w.calls| && w.calls[i].stage.Saving?
  {
    var c := w.calls[i];
    w.(rows := if c.id in w.rows then w.rows[c.id := w.rows[c.id].(result := Some(c.stage.text))] else w.rows)
  }

  /** Writing the result ends the right to send. */
  lemma SavingKeepsGood(codec: Codec, w: World, i: nat, answer: Answer)
    requires Good(codec, w) && i < |w.calls| && w.calls[i].stage.Saving?
    requires answer.Given? ==> answer.text == w.calls[i].stage.text
    ensures Good(codec, Move(Saved(w, i), i, Answered(answer))) && RowsStay(w, Saved(w, i))
  {
    var v, c := Move(Saved(w, i), i, Answered(answer)), w.calls[i];
    assert HolderOk(w, c, i);
    forall j | 0 <= j < |v.calls|
      ensures HolderOk(v, v.calls[j], j) && AnswerOk(codec, v, v.calls[j])
    {
      assert HolderOk(w, w.calls[j], j) && AnswerOk(codec, w, w.calls[j]);
      if j != i {
        assert v.calls[j] == w.calls[j];
        if w.calls[j].stage.Saving? { SentStays(w, v, w.calls[j].id, w.calls[j].stage.text); }
      }
    }
    forall k | k in v.rows && v.rows[k].result.Some?
      ensures SentBy(v, k, v.rows[k].result.value)
    {
      SentStays(w, v, k, if k == c.id then c.stage.text else w.rows[k].result.value);
    }
  }

  lemma SaveKeepsGood(codec: Codec, w: World, i: nat, luck: Luck)
    requires Good(codec, w)
    ensures var v := Next(codec, w, Save(i, luck)); Good(codec, v) && RowsStay(w, v)
  {
    if i < |w.calls| && w.calls[i].stage.Saving? {
      hide Good;
      match luck
      case Works => SavingKeepsGood(codec, w, i, Given(w.calls[i].stage.text));
      case FailsBefore => MoveKeepsGood(codec, w, i, Answered(Refused(NotSaved)));
      case FailsAfter => SavingKeepsGood(codec, w, i, Refused(NotSaved));
    }
  }

  /** An answer that the journal gives is a recorded one. */
  lemma ExistingIsOk(codec: Codec, w: World, i: nat, answer: Answer)
    requires i < |w.calls| && Existing(codec, w.rows, w.calls[i].id, w.calls[i].body) == Some(answer)
    ensures AnswerOk(codec, w, w.calls[i].(stage := Answered(answer)))
  {
  }

  lemma CheckKeepsGood(codec: Codec, w: World, i: nat, readable: bool)
    requires Good(codec, w)
    ensures var v := Next(codec, w, Check(i, readable)); Good(codec, v) && RowsStay(w, v)
  {
    hide Good;
    if At(w, i, Checking) {
      var found := Existing(codec, w.rows, w.calls[i].id, w.calls[i].body);
      if !readable {
        MoveKeepsGood(codec, w, i, Answered(Refused(Unreadable)));
      } else if found.Some? {
        ExistingIsOk(codec, w, i, found.value);
        MoveKeepsGood(codec, w, i, Answered(found.value));
      } else {
        MoveKeepsGood(codec, w, i, Routing);
      }
    }
  }

  lemma RecheckKeepsGood(codec: Codec, w: World, i: nat, readable: bool)
    requires Good(codec, w)
    ensures var v := Next(codec, w, Recheck(i, readable)); Good(codec, v) && RowsStay(w, v)
  {
    if At(w, i, Rechecking) {
      assert AnswerOk(codec, w, w.calls[i]);
      hide Good;
      var found := Existing(codec, w.rows, w.calls[i].id, w.calls[i].body);
      if !readable {
        MoveKeepsGood(codec, w, i, Answered(Refused(Unreadable)));
      } else {
        ExistingIsOk(codec, w, i, found.value);
        MoveKeepsGood(codec, w, i, Answered(found.value));
      }
    }
  }

  lemma StepKeepsGood(codec: Codec, w: World, step: Step)
    requires Lawful(codec) && Good(codec, w)
    ensures Good(codec, Next(codec, w, step)) && RowsStay(w, Next(codec, w, step))
  {
    hide Good, Lawful;
    match step
    case Start(id, document, original) => StartKeepsGood(codec, w, id, document, original);
    case Check(i, readable) => CheckKeepsGood(codec, w, i, readable);
    case Route(i, refusal) =>
      if At(w, i, Routing) {
        MoveKeepsGood(codec, w, i, if refusal.Some? then Answered(Refused(NotRouted(refusal.value))) else Recording);
      }
    case Record(i, luck) => RecordKeepsGood(codec, w, i, luck);
    case Recheck(i, readable) => RecheckKeepsGood(codec, w, i, readable);
    case Send(i, reply) => SendKeepsGood(codec, w, i, reply);
    case Save(i, luck) => SaveKeepsGood(codec, w, i, luck);
    case Crash(i) =>
      if i < |w.calls| && !w.calls[i].stage.Answered? { MoveKeepsGood(codec, w, i, Crashed); }
  }

  lemma {:induction false} RunIsGood(codec: Codec, steps: seq<Step>)
    requires Lawful(codec)
    ensures Good(codec, Run(codec, steps))
  {
    if steps != [] {
      hide Good, Lawful, Next;
      RunIsGood(codec, steps[..|steps| - 1]);
      StepKeepsGood(codec, Run(codec, steps[..|steps| - 1]), steps[|steps| - 1]);
    } else {
      assert Good(codec, World(map[], [], []));
    }
  }

  // ---- What every run guarantees ----

  /** However calls interleave, retry and crash, a command is sent on at most once. */
  lemma AtMostOneForward(codec: Codec, steps: seq<Step>, f: nat, g: nat)
    requires Lawful(codec) && f < |Run(codec, steps).forwards| && g < |Run(codec, steps).forwards|
    requires Run(codec, steps).forwards[f].id == Run(codec, steps).forwards[g].id
    ensures f == g
  {
    RunIsGood(codec, steps);
    hide HoldersAreAlone, HoldersOk, ResultsOk, BodiesOk, AnswersOk, Run;
  }

  /** A recorded result is what the single forward of its command was answered. */
  lemma ResultIsTheReply(codec: Codec, steps: seq<Step>, id: Id, f: nat)
    requires Lawful(codec) && id in Run(codec, steps).rows && Run(codec, steps).rows[id].result.Some?
    requires f < |Run(codec, steps).forwards| && Run(codec, steps).forwards[f].id == id
    ensures Run(codec, steps).forwards[f].reply == Decided(Run(codec, steps).rows[id].result.value)
  {
    RunIsGood(codec, steps);
    var w := Run(codec, steps);
    hide HoldersAreAlone, HoldersOk, BodiesOk, AnswersOk, Run;
    assert SentBy(w, id, w.rows[id].result.value);
    var g :| 0 <= g < |w.forwards| && w.forwards[g].id == id && w.forwards[g].reply == Decided(w.rows[id].result.value);
    AtMostOneForward(codec, steps, f, g);
  }

  lemma RowsStayTwice(u: World, v: World, w: World)
    requires RowsStay(u, v) && RowsStay(v, w)
    ensures RowsStay(u, w)
  {
  }

  /** A recorded command is never replaced, and a recorded result never changes. */
  lemma {:induction false} RecordsAreFinal(codec: Codec, steps: seq<Step>, n: nat)
    requires Lawful(codec) && n <= |steps|
    ensures RowsStay(Run(codec, steps[..n]), Run(codec, steps))
    decreases |steps|
  {
    if n == |steps| {
      assert steps[..n] == steps;
    } else {
      hide Good, Lawful, Next, RowsStay, Run;
      var m := |steps| - 1;
      assert steps[..m][..n] == steps[..n] && steps[..m + 1] == steps;
      RunStep(codec, steps, m);
      RecordsAreFinal(codec, steps[..m], n);
      RunIsGood(codec, steps[..m]);
      StepKeepsGood(codec, Run(codec, steps[..m]), steps[m]);
      RowsStayTwice(Run(codec, steps[..n]), Run(codec, steps[..m]), Run(codec, steps));
    }
  }

  /** Whoever is answered under one key asked for the same command and gets the same recorded result. */
  lemma SameKeySameAnswer(codec: Codec, steps: seq<Step>, i: nat, j: nat)
    requires Lawful(codec)
    requires var calls := Run(codec, steps).calls;
      && i < |calls| && j < |calls| && calls[i].id == calls[j].id
      && calls[i].stage.Answered? && calls[i].stage.answer.Given? && calls[j].stage.Answered?
      && calls[j].stage.answer.Given?
    ensures var w := Run(codec, steps);
      && w.calls[i].body == w.calls[j].body && w.calls[i].stage == w.calls[j].stage
      && w.calls[i].id in w.rows && w.rows[w.calls[i].id].result == Some(w.calls[i].stage.answer.text)
  {
    RunIsGood(codec, steps);
    var w := Run(codec, steps);
    hide HoldersAreAlone, HoldersOk, BodiesOk, Run, ResultsOk, ForwardsOk;
    assert AnswerOk(codec, w, w.calls[i]) && AnswerOk(codec, w, w.calls[j]);
  }

  /** Whatever was forwarded was what its call asked for and what is on record. */
  ghost predicate ForwardsMatch(codec: Codec, w: World) {
    forall f :: 0 <= f < |w.forwards| ==>
      var sent := w.forwards[f];
      && sent.call < |w.calls| && w.calls[sent.call].id == sent.id && sent.id in w.rows
      && codec.canonical(w.rows[sent.id].body) == Some(w.calls[sent.call].body)
  }

  /** Calls keep what they asked for. */
  lemma CallsStay(codec: Codec, w: World, step: Step)
    ensures var v := Next(codec, w, step);
      |w.calls| <= |v.calls| && forall i :: 0 <= i < |w.calls| ==>
        v.calls[i].id == w.calls[i].id && v.calls[i].body == w.calls[i].body
    ensures var v := Next(codec, w, step);
      || v.forwards == w.forwards
      || (&& step.Send? && At(w, step.call, Sending)
          && v.forwards == w.forwards + [Forward(w.calls[step.call].id, step.call, step.reply)])
  {
    hide Checked, Existing;
  }

  lemma ForwardsStayMatched(codec: Codec, w: World, step: Step)
    requires Lawful(codec) && Good(codec, w) && ForwardsMatch(codec, w)
    ensures ForwardsMatch(codec, Next(codec, w, step))
  {
    CallsStay(codec, w, step);
    StepKeepsGood(codec, w, step);
    var v := Next(codec, w, step);
    hide Next, Lawful, HoldersAreAlone, ForwardsOk, ResultsOk, AnswersOk;
    if step.Send? && At(w, step.call, Sending) {
      assert HolderOk(w, w.calls[step.call], step.call) && Holds(w.calls[step.call]);
    }
    hide HoldersOk, BodiesOk;
    forall f | 0 <= f < |v.forwards|
      ensures var sent := v.forwards[f];
        && sent.call < |v.calls| && v.calls[sent.call].id == sent.id && sent.id in v.rows
        && codec.canonical(v.rows[sent.id].body) == Some(v.calls[sent.call].body)
    {
    }
  }

  lemma {:induction false} RunForwardsMatch(codec: Codec, steps: seq<Step>)
    requires Lawful(codec)
    ensures ForwardsMatch(codec, Run(codec, steps))
  {
    if steps != [] {
      hide Good, Lawful, Next, ForwardsMatch;
      RunForwardsMatch(codec, steps[..|steps| - 1]);
      RunIsGood(codec, steps[..|steps| - 1]);
      ForwardsStayMatched(codec, Run(codec, steps[..|steps| - 1]), steps[|steps| - 1]);
    }
  }

  /**
   A key whose record says something else: whatever the interleaving, the call is never given a
   result, never holds the right to send, and has sent nothing.
   */
  lemma ReusedKeyIsRefused(codec: Codec, steps: seq<Step>, i: nat)
    requires Lawful(codec) && i < |Run(codec, steps).calls|
    requires var w := Run(codec, steps);
      w.calls[i].id in w.rows && codec.canonical(w.rows[w.calls[i].id].body) != Some(w.calls[i].body)
    ensures var w := Run(codec, steps);
      && !(w.calls[i].stage.Answered? && w.calls[i].stage.answer.Given?) && !Holds(w.calls[i])
      && forall f :: 0 <= f < |w.forwards| ==> w.forwards[f].call != i
  {
    RunIsGood(codec, steps);
    RunForwardsMatch(codec, steps);
    var w := Run(codec, steps);
    hide HoldersAreAlone, HoldersOk, ResultsOk, ForwardsOk, Run, Lawful;
    assert AnswerOk(codec, w, w.calls[i]);
  }

  /**
   And it stays so: a record and what a call asked for never change, so the call is refused in every
   later state as well.
   */
  lemma ReusedKeyStaysRefused(codec: Codec, steps: seq<Step>, n: nat, i: nat)
    requires Lawful(codec) && n <= |steps| && i < |Run(codec, steps[..n]).calls|
    requires var w := Run(codec, steps[..n]);
      w.calls[i].id in w.rows && codec.canonical(w.rows[w.calls[i].id].body) != Some(w.calls[i].body)
    ensures var w := Run(codec, steps);
      && i < |w.calls| && !(w.calls[i].stage.Answered? && w.calls[i].stage.answer.Given?)
      && forall f :: 0 <= f < |w.forwards| ==> w.forwards[f].call != i
  {
    hide Lawful, Run;
    RecordsAreFinal(codec, steps, n);
    AskedIsFinal(codec, steps, n, i);
    ReusedKeyIsRefused(codec, steps, i);
  }

  lemma {:induction false} AskedIsFinal(codec: Codec, steps: seq<Step>, n: nat, i: nat)
    requires n <= |steps| && i < |Run(codec, steps[..n]).calls|
    ensures var v, w := Run(codec, steps), Run(codec, steps[..n]);
      i < |v.calls| && v.calls[i].id == w.calls[i].id && v.calls[i].body == w.calls[i].body
    decreases |steps| - n
  {
    hide Next, Run;
    if n == |steps| {
      assert steps[..n] == steps;
    } else {
      CallsStay(codec, Run(codec, steps[..n]), steps[n]);
      RunStep(codec, steps, n);
      AskedIsFinal(codec, steps, n + 1, i);
    }
  }

  /**
   A call that is barred from sending: its command is recorded, and it neither holds the right to
   send nor has sent.
   */
  ghost predicate Barred(w: World, i: nat) {
    && i < |w.calls| && w.calls[i].id in w.rows && !Holds(w.calls[i])
    && forall f :: 0 <= f < |w.forwards| ==> w.forwards[f].call != i
  }

  lemma BarredStays(codec: Codec, w: World, step: Step, i: nat)
    requires Barred(w, i)
    ensures Barred(Next(codec, w, step), i)
  {
    hide Checked, Existing;
  }

  lemma RunStep(codec: Codec, steps: seq<Step>, i: nat)
    requires i < |steps|
    ensures Run(codec, steps[..i + 1]) == Next(codec, Run(codec, steps[..i]), steps[i])
  {
    hide Next;
    assert steps[..i + 1][..i] == steps[..i];
  }

  lemma {:induction false} BarredForGood(codec: Codec, steps: seq<Step>, n: nat, i: nat)
    requires n <= |steps| && Barred(Run(codec, steps[..n]), i)
    ensures Barred(Run(codec, steps), i)
    decreases |steps| - n
  {
    hide Next, Barred, Run;
    if n == |steps| {
      assert steps[..n] == steps;
    } else {
      BarredStays(codec, Run(codec, steps[..n]), steps[n], i);
      RunStep(codec, steps, n);
      BarredForGood(codec, steps, n + 1, i);
    }
  }

  /** A command that is on record is never sent again: a call that starts then, pending or not, sends nothing. */
  lemma RecordedIsNeverSentAgain(codec: Codec, steps: seq<Step>, j: nat, id: Id, document: string,
                                 original: Option<string>, f: nat)
    requires Lawful(codec) && j < |steps| && steps[j] == Start(id, document, original)
    requires id in Run(codec, steps[..j]).rows
    requires f < |Run(codec, steps).forwards|
    ensures Run(codec, steps).forwards[f].call != |Run(codec, steps[..j]).calls|
  {
    hide Lawful, Run;
    var w := Run(codec, steps[..j]);
    RunIsGood(codec, steps[..j]);
    assert Barred(Next(codec, w, steps[j]), |w.calls|);
    RunStep(codec, steps, j);
    hide Next;
    BarredForGood(codec, steps, j + 1, |w.calls|);
  }

  /** A lost or failed reply leaves the command pending for good: no result is ever made up for it. */
  lemma LostReplyStaysPending(codec: Codec, steps: seq<Step>, f: nat)
    requires Lawful(codec) && f < |Run(codec, steps).forwards| && !Run(codec, steps).forwards[f].reply.Decided?
    ensures var w := Run(codec, steps);
      w.forwards[f].id in w.rows && w.rows[w.forwards[f].id].result.None?
  {
    RunIsGood(codec, steps);
    var w := Run(codec, steps);
    if w.rows[w.forwards[f].id].result.Some? {
      ResultIsTheReply(codec, steps, w.forwards[f].id, f);
    }
  }

  // ---- One call by itself, statement by statement ----

  class Ledger {
    var rows: map<Id, Row>
    var forwards: seq<Id>

    constructor ()
      ensures rows == map[] && forwards == []
    {
      rows, forwards := map[], [];
    }

    /**
     Runs a command. The parameters say what the world does: whether reads succeed, what routing and the
     upstream answer, and whether the two writes work.
     */
    method Command(codec: Codec, id: Id, document: string, original: Option<string>, readable: bool,
                   refusal: Option<int>,
                   inserting: Luck, reply: Reply, saving: Luck)
      returns (answer: Answer)
      requires Lawful(codec)
      modifies this
      ensures forall k :: k != id ==> (k in rows <==> k in old(rows)) && (k in rows ==> rows[k] == old(rows)[k])
      ensures id in old(rows) ==> rows == old(rows) && forwards == old(forwards)
      ensures forwards == old(forwards) || (forwards == old(forwards) + [id] && id !in old(rows) && id in rows)
      ensures id in rows && id !in old(rows) ==>
        && codec.canonical(rows[id].body) == codec.canonical(document)
        && (rows[id].result.Some? ==> forwards == old(forwards) + [id] && reply == Decided(rows[id].result.value))
      ensures answer.Given? ==>
        id in rows && codec.canonical(rows[id].body) == codec.canonical(document)
          && rows[id].result == Some(answer.text)
      ensures answer == Refused(KeyReused) ==>
        id in old(rows) && codec.canonical(old(rows)[id].body) != codec.canonical(document)
      ensures answer == Refused(StillPending) ==> id in old(rows) && old(rows)[id].result.None?
    {
      var checked := Checked(codec, id.key, document, original);
      if checked.Failure? {
        BadTextIsNoOther(codec, id.key, document, original);
        return Refused(checked.error);
      }
      CheckedMeansTheSame(codec, id.key, document, original);
      var body, stored := checked.value.body, checked.value.stored;
      if !readable { return Refused(Unreadable); }
      var found := Existing(codec, rows, id, body);
      if found.Some? { return found.value; }
      if refusal.Some? { return Refused(NotRouted(refusal.value)); }
      if inserting.FailsBefore? { return Refused(NotRecorded); }
      // Nothing else runs between the read and the insertion here, so the row is always new.
      rows := rows[id := Row(stored, None)];
      if inserting.FailsAfter? { return Refused(Unknown); }
      forwards := forwards + [id];
      match reply {
        case Failed(status) => return Refused(Rejected(status));
        case Unencodable => return Refused(NotSaved);
        case Decided(text) =>
          if saving.FailsBefore? { return Refused(NotSaved); }
          rows := rows[id := rows[id].(result := Some(text))];
          if saving.FailsAfter? { return Refused(NotSaved); }
          return Given(text);
      }
    }
  }

  lemma BadTextIsNoOther(codec: Codec, key: string, document: string, original: Option<string>)
    ensures Checked(codec, key, document, original).Failure? ==>
      Checked(codec, key, document, original).error in {BadKey, BadCommand}
  {
  }
}
