/** The CLI's WebSocket session: one connection shared by requests, log subscriptions
    and topic subscriptions, matched to their replies by id. */
module WsSession {
  import opened Common

  type Id = nat          // a fresh uuid per command
  type SubId = nat       // chosen by the coordinator
  type Caller = nat      // the channel a command is answered on
  type Receiver = nat    // the channel a subscription's data goes to

  const TOPIC_DATA_PROTOCOL_VERSION: nat := 2

  datatype Command =
    | Request(caller: Caller)
    | SubscribeLogs(caller: Caller, receiver: Receiver)
    | SubscribeTopics(caller: Caller, receiver: Receiver)

  /** The reply inside a response frame, as far as the session looks at it. */
  datatype Reply = TopicSubscribed(sub: SubId, version: Option<nat>) | ErrorReply(message: string) | OtherReply(raw: string)

  datatype Frame = Frame(id: Option<Id>, event: Option<string>, result: Option<Reply>, error: Option<string>,
                         payload: Option<string>)

  /** What one turn of the loop sees. `gone` are the receivers that were dropped. */
  datatype Input =
    | Take(command: Command, id: Id, parses: bool, delivered: bool)
    | Text(frame: Option<Frame>, gone: set<Receiver>)
    | Binary(sub: Option<SubId>, payload: string, gone: set<Receiver>)
    | Ignored
    | Disconnect

  datatype Answer =
    | ParseFailed
    | Result(reply: Reply)
    | Failed(message: string)
    | Empty
    | LogsAcked
    | TopicsAcked(sub: SubId)
    | VersionMismatch(version: Option<nat>)
    | UnexpectedReply
    | ConnectionClosed

  datatype Sent =
    | Answered(id: Id, caller: Caller, answer: Answer)
    | LogData(receiver: Receiver, payload: string)
    | TopicData(receiver: Receiver, sub: SubId, payload: string)

  datatype Waiting = Waiting(caller: Caller, receiver: Receiver)

  /** `taken` remembers every command that was taken off the queue. */
  datatype State = State(
    requests: map<Id, Caller>,
    logs: map<Id, Waiting>,
    topics: map<Id, Waiting>,
    logSubscribers: seq<Receiver>,
    topicSubscribers: map<SubId, Receiver>,
    out: seq<Sent>,
    taken: map<Id, Command>,
    open: bool)

  const START := State(map[], map[], map[], [], map[], [], map[], true)

  function Send(s: State, sent: Sent): State {
    s.(out := s.out + [sent])
  }

  // ----- one turn ----------------------------------------------------------

  function Parked(s: State, command: Command, id: Id): State {
    match command
    case Request(c) => s.(requests := s.requests[id := c])
    case SubscribeLogs(c, r) => s.(logs := s.logs[id := Waiting(c, r)])
    case SubscribeTopics(c, r) => s.(topics := s.topics[id := Waiting(c, r)])
  }

  function TakeStep(s: State, command: Command, id: Id, parses: bool, delivered: bool): State {
    var s1 := s.(taken := s.taken[id := command]);
    if !parses then Send(s1, Answered(id, command.caller, ParseFailed))
    else Parked(s1, command, id).(open := delivered)
  }

  /** The answer to a topic subscription, and whether it is established. */
  function TopicAnswer(result: Option<Reply>, error: Option<string>): Answer {
    if error.Some? then Failed(error.value)
    else if result.None? then Empty
    else
      match result.value
      case TopicSubscribed(sub, version) =>
        if version == Some(TOPIC_DATA_PROTOCOL_VERSION) then TopicsAcked(sub) else VersionMismatch(version)
      case ErrorReply(m) => Failed(m)
      case OtherReply(_) => UnexpectedReply
  }

  function RequestAnswer(result: Option<Reply>, error: Option<string>): Answer {
    if error.Some? then Result(ErrorReply(error.value)) else if result.Some? then Result(result.value) else Empty
  }

  /** The command waiting under an id: log subscriptions are looked up first, then topic
      subscriptions, then requests. */
  function WaitingFor(s: State, id: Id): Option<Command> {
    if id in s.logs then Some(SubscribeLogs(s.logs[id].caller, s.logs[id].receiver))
    else if id in s.topics then Some(SubscribeTopics(s.topics[id].caller, s.topics[id].receiver))
    else if id in s.requests then Some(Request(s.requests[id]))
    else None
  }

  function Unpark(s: State, id: Id): State {
    if id in s.logs then s.(logs := s.logs - {id})
    else if id in s.topics then s.(topics := s.topics - {id})
    else s.(requests := s.requests - {id})
  }

  function AnswerTo(command: Command, result: Option<Reply>, error: Option<string>): Answer {
    match command
    case SubscribeLogs(_, _) => if error.Some? then Failed(error.value) else LogsAcked
    case SubscribeTopics(_, _) => TopicAnswer(result, error)
    case Request(_) => RequestAnswer(result, error)
  }

  /** An acknowledged subscription starts receiving. */
  function Established(s: State, command: Command, answer: Answer): State {
    if command.SubscribeLogs? && answer.LogsAcked? then s.(logSubscribers := s.logSubscribers + [command.receiver])
    else if command.SubscribeTopics? && answer.TopicsAcked? then
      s.(topicSubscribers := s.topicSubscribers[answer.sub := command.receiver])
    else s
  }

  function ResponseStep(s: State, id: Id, result: Option<Reply>, error: Option<string>): State {
    var w := WaitingFor(s, id);
    if w.None? then s
    else
      var answer := AnswerTo(w.value, result, error);
      Send(Established(Unpark(s, id), w.value, answer), Answered(id, w.value.caller, answer))
  }

  function LogMessages(rs: seq<Receiver>, gone: set<Receiver>, payload: string): seq<Sent> {
    if rs == [] then []
    else (if rs[0] in gone then [] else [LogData(rs[0], payload)]) + LogMessages(rs[1..], gone, payload)
  }

  function Alive(rs: seq<Receiver>, gone: set<Receiver>): seq<Receiver> {
    if rs == [] then [] else (if rs[0] in gone then [] else [rs[0]]) + Alive(rs[1..], gone)
  }

  function TextStep(s: State, frame: Option<Frame>, gone: set<Receiver>): State {
    if frame.None? then s
    else
      var f := frame.value;
      if f.event.Some? then
        if f.event.value == "log" && f.payload.Some? then
          s.(logSubscribers := Alive(s.logSubscribers, gone),
             out := s.out + LogMessages(s.logSubscribers, gone, f.payload.value))
        else s
      else if f.id.Some? then ResponseStep(s, f.id.value, f.result, f.error)
      else s
  }

  function BinaryStep(s: State, sub: Option<SubId>, payload: string, gone: set<Receiver>): State {
    if sub.None? || sub.value !in s.topicSubscribers then s
    else if s.topicSubscribers[sub.value] in gone then s.(topicSubscribers := s.topicSubscribers - {sub.value})
    else Send(s, TopicData(s.topicSubscribers[sub.value], sub.value, payload))
  }

  function Turn(s: State, e: Input): State {
    match e
    case Take(command, id, parses, delivered) => TakeStep(s, command, id, parses, delivered)
    case Text(frame, gone) => TextStep(s, frame, gone)
    case Binary(sub, payload, gone) => BinaryStep(s, sub, payload, gone)
    case Ignored => s
    case Disconnect => s.(open := false)
  }

  // ----- every command is answered exactly once ----------------------------

  function TimesAnswered(out: seq<Sent>, id: Id): nat {
    if out == [] then 0 else (if out[0].Answered? && out[0].id == id then 1 else 0) + TimesAnswered(out[1..], id)
  }

  lemma {:induction false} AnsweredConcat(a: seq<Sent>, b: seq<Sent>, id: Id)
    ensures TimesAnswered(a + b, id) == TimesAnswered(a, id) + TimesAnswered(b, id)
  {
    if a == [] {
      assert a + b == b;
    } else {
      assert (a + b)[1..] == a[1..] + b;
      AnsweredConcat(a[1..], b, id);
    }
  }

  lemma AnsweredOne(out: seq<Sent>, sent: Sent, id: Id)
    ensures TimesAnswered(out + [sent], id) == TimesAnswered(out, id) + if sent.Answered? && sent.id == id then 1 else 0
  {
    AnsweredConcat(out, [sent], id);
    assert [sent][1..] == [];
  }

  function Places(s: State, id: Id): nat {
    (if id in s.requests then 1 else 0) + (if id in s.logs then 1 else 0) + (if id in s.topics then 1 else 0)
  }

  /** A command waits in exactly one of the three maps or was answered exactly once. */
  ghost predicate Balanced(s: State) {
    forall id :: BalancedAt(s, id)
  }

  predicate BalancedAt(s: State, id: Id) {
    Places(s, id) + TimesAnswered(s.out, id) == if id in s.taken then 1 else 0
  }

  lemma {:induction false} LogsAnswerNothing(rs: seq<Receiver>, gone: set<Receiver>, payload: string, id: Id)
    ensures TimesAnswered(LogMessages(rs, gone, payload), id) == 0
  {
    if rs != [] {
      LogsAnswerNothing(rs[1..], gone, payload, id);
      var first := if rs[0] in gone then [] else [LogData(rs[0], payload)];
      AnsweredConcat(first, LogMessages(rs[1..], gone, payload), id);
      AnsweredOne([], LogData(rs[0], payload), id);
      assert [] + [LogData(rs[0], payload)] == [LogData(rs[0], payload)];
    }
  }

  lemma UnparkPlaces(s: State, rid: Id, id: Id)
    requires WaitingFor(s, rid).Some?
    ensures Places(Unpark(s, rid), id) == Places(s, id) - if id == rid then 1 else 0
  {
  }

  lemma ResponseShape(s: State, rid: Id, result: Option<Reply>, error: Option<string>, id: Id)
    requires WaitingFor(s, rid).Some?
    ensures var w, s' := WaitingFor(s, rid).value, ResponseStep(s, rid, result, error);
            && Places(s', id) == Places(Unpark(s, rid), id) && s'.taken == s.taken
            && s'.out == s.out + [Answered(rid, w.caller, AnswerTo(w, result, error))]
  {
  }

  lemma ResponseKeepsBalance(s: State, rid: Id, result: Option<Reply>, error: Option<string>)
    requires Balanced(s)
    ensures Balanced(ResponseStep(s, rid, result, error))
  {
    if WaitingFor(s, rid).Some? {
      forall id
        ensures BalancedAt(ResponseStep(s, rid, result, error), id)
      {
        assert BalancedAt(s, id);
        ResponseBalancedAt(s, rid, result, error, id);
      }
    }
  }

  lemma ResponseBalancedAt(s: State, rid: Id, result: Option<Reply>, error: Option<string>, id: Id)
    requires WaitingFor(s, rid).Some? && BalancedAt(s, id)
    ensures BalancedAt(ResponseStep(s, rid, result, error), id)
  {
    var w := WaitingFor(s, rid).value;
    ResponseShape(s, rid, result, error, id);
    UnparkPlaces(s, rid, id);
    AnsweredOne(s.out, Answered(rid, w.caller, AnswerTo(w, result, error)), id);
  }

  lemma TakeKeepsBalance(s: State, command: Command, id: Id, parses: bool, delivered: bool)
    requires Balanced(s) && id !in s.taken
    ensures Balanced(TakeStep(s, command, id, parses, delivered))
  {
    var s' := TakeStep(s, command, id, parses, delivered);
    forall i
      ensures BalancedAt(s', i)
    {
      assert BalancedAt(s, i);
      AnsweredOne(s.out, Answered(id, command.caller, ParseFailed), i);
    }
  }

  lemma LogKeepsBalance(s: State, f: Frame, gone: set<Receiver>)
    requires Balanced(s) && f.event == Some("log") && f.payload.Some?
    ensures Balanced(TextStep(s, Some(f), gone))
  {
    forall id
      ensures BalancedAt(TextStep(s, Some(f), gone), id)
    {
      assert BalancedAt(s, id);
      AnsweredConcat(s.out, LogMessages(s.logSubscribers, gone, f.payload.value), id);
      LogsAnswerNothing(s.logSubscribers, gone, f.payload.value, id);
    }
  }

  lemma BinaryKeepsBalance(s: State, sub: Option<SubId>, payload: string, gone: set<Receiver>)
    requires Balanced(s)
    ensures Balanced(BinaryStep(s, sub, payload, gone))
  {
    forall id
      ensures BalancedAt(BinaryStep(s, sub, payload, gone), id)
    {
      assert BalancedAt(s, id);
      if sub.Some? && sub.value in s.topicSubscribers {
        AnsweredOne(s.out, TopicData(s.topicSubscribers[sub.value], sub.value, payload), id);
      }
    }
  }

  lemma CloseKeepsBalance(s: State)
    requires Balanced(s)
    ensures Balanced(s.(open := false))
  {
    forall id
      ensures BalancedAt(s.(open := false), id)
    {
      assert BalancedAt(s, id);
    }
  }

  // ----- who is answered, and who receives what ----------------------------

  /** Whatever waits under an id is the command that was taken under it. */
  ghost predicate Owned(s: State) {
    forall id :: WaitingFor(s, id).Some? ==> id in s.taken && s.taken[id] == WaitingFor(s, id).value
  }

  /** Answers go to the caller of the command. */
  ghost predicate AnswersOwned(s: State) {
    forall i :: 0 <= i < |s.out| && s.out[i].Answered? ==>
      s.out[i].id in s.taken && s.taken[s.out[i].id].caller == s.out[i].caller
  }

  /** Among the first `n` messages is the acknowledgement that gives `r` the data of `sub`. */
  ghost predicate AckedBefore(s: State, n: nat, sub: SubId, r: Receiver)
    requires n <= |s.out|
  {
    exists j :: 0 <= j < n && AcksTopic(s, s.out[j], sub, r)
  }

  predicate AcksTopic(s: State, sent: Sent, sub: SubId, r: Receiver) {
    && sent.Answered? && sent.answer == TopicsAcked(sub)
    && sent.id in s.taken && s.taken[sent.id] == SubscribeTopics(sent.caller, r)
  }

  /** Topic data only goes to receivers of acknowledged subscriptions. */
  ghost predicate DataAcked(s: State) {
    && (forall sub :: sub in s.topicSubscribers ==> AckedBefore(s, |s.out|, sub, s.topicSubscribers[sub]))
    && (forall i :: 0 <= i < |s.out| && s.out[i].TopicData? ==> AckedBefore(s, i, s.out[i].sub, s.out[i].receiver))
  }

  ghost predicate WsInv(s: State) {
    Balanced(s) && Owned(s) && AnswersOwned(s) && DataAcked(s)
  }

  lemma AckedGrows(s: State, s': State, n: nat, n': nat, sub: SubId, r: Receiver)
    requires n <= n' && n <= |s.out| && n' <= |s'.out| && s.out <= s'.out && AckedBefore(s, n, sub, r)
    requires forall id :: id in s.taken ==> id in s'.taken && s'.taken[id] == s.taken[id]
    ensures AckedBefore(s', n', sub, r)
  {
    var j :| 0 <= j < n && AcksTopic(s, s.out[j], sub, r);
    assert AcksTopic(s', s'.out[j], sub, r);
  }

  /** Messages are only added, and new ones of a turn are acknowledged before. */
  lemma DataStaysAcked(s: State, s': State)
    requires DataAcked(s) && s.out <= s'.out
    requires forall id :: id in s.taken ==> id in s'.taken && s'.taken[id] == s.taken[id]
    requires forall sub :: sub in s'.topicSubscribers ==>
               || (sub in s.topicSubscribers && s.topicSubscribers[sub] == s'.topicSubscribers[sub])
               || AckedBefore(s', |s'.out|, sub, s'.topicSubscribers[sub])
    requires forall i :: |s.out| <= i < |s'.out| && s'.out[i].TopicData? ==>
               s'.out[i].sub in s.topicSubscribers && s.topicSubscribers[s'.out[i].sub] == s'.out[i].receiver
    ensures DataAcked(s')
  {
    forall sub | sub in s'.topicSubscribers
      ensures AckedBefore(s', |s'.out|, sub, s'.topicSubscribers[sub])
    {
      if sub in s.topicSubscribers && s.topicSubscribers[sub] == s'.topicSubscribers[sub] {
        AckedGrows(s, s', |s.out|, |s'.out|, sub, s'.topicSubscribers[sub]);
      }
    }
    forall i | 0 <= i < |s'.out| && s'.out[i].TopicData?
      ensures AckedBefore(s', i, s'.out[i].sub, s'.out[i].receiver)
    {
      if i < |s.out| {
        assert s'.out[i] == s.out[i];
        AckedGrows(s, s', i, i, s'.out[i].sub, s'.out[i].receiver);
      } else {
        AckedGrows(s, s', |s.out|, i, s'.out[i].sub, s'.out[i].receiver);
      }
    }
  }

  lemma UnparkWaits(s: State, rid: Id, id: Id)
    requires BalancedAt(s, id) && WaitingFor(s, rid).Some?
    ensures WaitingFor(Unpark(s, rid), id) == if id == rid then None else WaitingFor(s, id)
  {
  }

  lemma ResponseKeepsInv(s: State, rid: Id, result: Option<Reply>, error: Option<string>)
    requires WsInv(s)
    ensures WsInv(ResponseStep(s, rid, result, error))
  {
    ResponseKeepsBalance(s, rid, result, error);
    if WaitingFor(s, rid).Some? {
      ResponseKeepsOwned(s, rid, result, error);
      ResponseKeepsData(s, rid, result, error);
    }
  }

  lemma ResponseKeepsOwned(s: State, rid: Id, result: Option<Reply>, error: Option<string>)
    requires WsInv(s) && WaitingFor(s, rid).Some?
    ensures Owned(ResponseStep(s, rid, result, error)) && AnswersOwned(ResponseStep(s, rid, result, error))
  {
    var s' := ResponseStep(s, rid, result, error);
    forall id | WaitingFor(s', id).Some?
      ensures id in s'.taken && s'.taken[id] == WaitingFor(s', id).value
    {
      assert BalancedAt(s, id);
      UnparkWaits(s, rid, id);
      ResponseFields(s, rid, result, error);
    }
    ResponseFields(s, rid, result, error);
    AnswersStayOwned(s, s');
  }

  /** What a response leaves in each field. */
  lemma ResponseFields(s: State, rid: Id, result: Option<Reply>, error: Option<string>)
    requires WaitingFor(s, rid).Some?
    ensures var w, s', u := WaitingFor(s, rid).value, ResponseStep(s, rid, result, error), Unpark(s, rid);
            && s'.requests == u.requests && s'.logs == u.logs && s'.topics == u.topics && s'.taken == s.taken
            && s'.out == s.out + [Answered(rid, w.caller, AnswerTo(w, result, error))]
            && s'.topicSubscribers == (if w.SubscribeTopics? && AnswerTo(w, result, error).TopicsAcked?
                                       then s.topicSubscribers[AnswerTo(w, result, error).sub := w.receiver]
                                       else s.topicSubscribers)
  {
    var w := WaitingFor(s, rid).value;
    UnparkFields(s, rid);
    EstablishedFields(Unpark(s, rid), w, AnswerTo(w, result, error));
  }

  lemma UnparkFields(s: State, rid: Id)
    ensures Unpark(s, rid).out == s.out && Unpark(s, rid).taken == s.taken
    ensures Unpark(s, rid).topicSubscribers == s.topicSubscribers
  {
  }

  lemma EstablishedFields(u: State, w: Command, answer: Answer)
    ensures var v := Established(u, w, answer);
            && v.requests == u.requests && v.logs == u.logs && v.topics == u.topics && v.taken == u.taken && v.out == u.out
            && v.topicSubscribers == (if w.SubscribeTopics? && answer.TopicsAcked?
                                      then u.topicSubscribers[answer.sub := w.receiver] else u.topicSubscribers)
  {
  }

  lemma AnswersStayOwned(s: State, s': State)
    requires AnswersOwned(s) && s.out <= s'.out
    requires forall id :: id in s.taken ==> id in s'.taken && s'.taken[id] == s.taken[id]
    requires forall i :: |s.out| <= i < |s'.out| && s'.out[i].Answered? ==>
               s'.out[i].id in s'.taken && s'.taken[s'.out[i].id].caller == s'.out[i].caller
    ensures AnswersOwned(s')
  {
  }

  lemma ResponseKeepsData(s: State, rid: Id, result: Option<Reply>, error: Option<string>)
    requires WsInv(s) && WaitingFor(s, rid).Some?
    ensures DataAcked(ResponseStep(s, rid, result, error))
  {
    var s' := ResponseStep(s, rid, result, error);
    var w := WaitingFor(s, rid).value;
    var sent := Answered(rid, w.caller, AnswerTo(w, result, error));
    ResponseFields(s, rid, result, error);
    assert s'.out[|s.out|] == sent;
    if w.SubscribeTopics? && sent.answer.TopicsAcked? {
      assert AcksTopic(s', s'.out[|s.out|], sent.answer.sub, w.receiver);
    }
    DataStaysAcked(s, s');
  }

  lemma TakeKeepsInv(s: State, command: Command, id: Id, parses: bool, delivered: bool)
    requires WsInv(s) && id !in s.taken
    ensures WsInv(TakeStep(s, command, id, parses, delivered))
  {
    var s' := TakeStep(s, command, id, parses, delivered);
    TakeKeepsBalance(s, command, id, parses, delivered);
    forall i | WaitingFor(s', i).Some?
      ensures i in s'.taken && s'.taken[i] == WaitingFor(s', i).value
    {
      assert BalancedAt(s, i);
    }
    DataStaysAcked(s, s');
  }

  lemma {:induction false} LogMessagesAreLogs(rs: seq<Receiver>, gone: set<Receiver>, payload: string, i: nat)
    requires i < |LogMessages(rs, gone, payload)|
    ensures LogMessages(rs, gone, payload)[i].LogData?
  {
    if rs != [] {
      if rs[0] in gone {
        LogMessagesAreLogs(rs[1..], gone, payload, i);
      } else if i > 0 {
        LogMessagesAreLogs(rs[1..], gone, payload, i - 1);
      }
    }
  }

  lemma LogKeepsInv(s: State, f: Frame, gone: set<Receiver>)
    requires WsInv(s) && f.event == Some("log") && f.payload.Some?
    ensures WsInv(TextStep(s, Some(f), gone))
  {
    var s' := TextStep(s, Some(f), gone);
    LogKeepsBalance(s, f, gone);
    var logs := LogMessages(s.logSubscribers, gone, f.payload.value);
    forall i | |s.out| <= i < |s'.out|
      ensures s'.out[i].LogData?
    {
      LogMessagesAreLogs(s.logSubscribers, gone, f.payload.value, i - |s.out|);
    }
    forall id
      ensures WaitingFor(s', id) == WaitingFor(s, id)
    {
    }
    DataStaysAcked(s, s');
  }

  lemma BinaryFields(s: State, sub: Option<SubId>, payload: string, gone: set<Receiver>)
    ensures var s' := BinaryStep(s, sub, payload, gone);
            && s'.requests == s.requests && s'.logs == s.logs && s'.topics == s.topics && s'.taken == s.taken
            && (s'.out == s.out || (sub.Some? && sub.value in s.topicSubscribers &&
                                    s'.out == s.out + [TopicData(s.topicSubscribers[sub.value], sub.value, payload)]))
            && s'.topicSubscribers.Items <= s.topicSubscribers.Items
  {
  }

  lemma BinaryKeepsInv(s: State, sub: Option<SubId>, payload: string, gone: set<Receiver>)
    requires WsInv(s)
    ensures WsInv(BinaryStep(s, sub, payload, gone))
  {
    var s' := BinaryStep(s, sub, payload, gone);
    BinaryKeepsBalance(s, sub, payload, gone);
    BinaryFields(s, sub, payload, gone);
    OwnedStays(s, s');
    AnswersStayOwned(s, s');
    forall x | x in s'.topicSubscribers
      ensures x in s.topicSubscribers && s.topicSubscribers[x] == s'.topicSubscribers[x]
    {
      assert (x, s'.topicSubscribers[x]) in s'.topicSubscribers.Items;
    }
    DataStaysAcked(s, s');
  }

  lemma OwnedStays(s: State, s': State)
    requires Owned(s) && s'.requests == s.requests && s'.logs == s.logs && s'.topics == s.topics && s'.taken == s.taken
    ensures Owned(s')
  {
    forall id
      ensures WaitingFor(s', id) == WaitingFor(s, id)
    {
    }
  }

  lemma TurnKeepsInv(s: State, e: Input)
    requires WsInv(s) && (e.Take? ==> e.id !in s.taken)
    ensures WsInv(Turn(s, e))
  {
    match e
    case Take(command, id, parses, delivered) => TakeKeepsInv(s, command, id, parses, delivered);
    case Text(frame, gone) =>
      if frame.Some? {
        var f := frame.value;
        if f.event.Some? {
          if f.event.value == "log" && f.payload.Some? {
            LogKeepsInv(s, f, gone);
          }
        } else if f.id.Some? {
          ResponseKeepsInv(s, f.id.value, f.result, f.error);
        }
      }
    case Binary(sub, payload, gone) => BinaryKeepsInv(s, sub, payload, gone);
    case Ignored =>
    case Disconnect => CloseKeepsInv(s);
  }

  lemma CloseKeepsInv(s: State)
    requires WsInv(s)
    ensures WsInv(s.(open := false))
  {
    var s' := s.(open := false);
    CloseKeepsBalance(s);
    forall id
      ensures WaitingFor(s', id) == WaitingFor(s, id)
    {
    }
    DataStaysAcked(s, s');
  }

  /** A topic subscription is acknowledged exactly when the coordinator subscribed it with
      our protocol version. */
  lemma TopicsAckedIff(result: Option<Reply>, error: Option<string>, sub: SubId)
    ensures TopicAnswer(result, error) == TopicsAcked(sub) <==>
              error.None? && result == Some(TopicSubscribed(sub, Some(TOPIC_DATA_PROTOCOL_VERSION)))
  {
  }

  // ----- whole sessions ----------------------------------------------------

  /** The state after the loop saw the first `n` inputs; it stops once it is closed. */
  function After(inputs: seq<Input>, n: nat): State
    requires n <= |inputs|
  {
    if n == 0 then START
    else
      var s := After(inputs, n - 1);
      if s.open then Turn(s, inputs[n - 1]) else s
  }

  /** Every command gets an id of its own. */
  ghost predicate FreshIds(inputs: seq<Input>) {
    forall i, j :: 0 <= i < j < |inputs| && inputs[i].Take? && inputs[j].Take? ==> inputs[i].id != inputs[j].id
  }

  lemma {:induction false} TakenBefore(inputs: seq<Input>, n: nat, id: Id)
    requires n <= |inputs| && id in After(inputs, n).taken
    ensures exists i :: 0 <= i < n && inputs[i].Take? && inputs[i].id == id
                        && inputs[i].command == After(inputs, n).taken[id]
  {
    if n > 0 {
      TurnTakes(After(inputs, n - 1), inputs[n - 1]);
      if id in After(inputs, n - 1).taken {
        TakenBefore(inputs, n - 1, id);
      }
    }
  }

  lemma TurnTakes(s: State, e: Input)
    ensures Turn(s, e).taken == if e.Take? then s.taken[e.id := e.command] else s.taken
  {
    if e.Text? && e.frame.Some? && e.frame.value.id.Some? && WaitingFor(s, e.frame.value.id.value).Some? {
      ResponseFields(s, e.frame.value.id.value, e.frame.value.result, e.frame.value.error);
    }
  }

  /** In every session with fresh ids: no id is ever in two of the pending maps, nobody is
      answered twice, answers go to the caller of the command, and topic data only flows
      under an acknowledged subscription. */
  lemma {:induction false} SessionInv(inputs: seq<Input>, n: nat)
    requires n <= |inputs| && FreshIds(inputs)
    ensures WsInv(After(inputs, n))
  {
    if n > 0 {
      SessionInv(inputs, n - 1);
      var s, e := After(inputs, n - 1), inputs[n - 1];
      if s.open {
        if e.Take? && e.id in s.taken {
          TakenBefore(inputs, n - 1, e.id);
        }
        TurnKeepsInv(s, e);
      }
    }
  }

  /** The frame that acknowledged a topic subscription carried our protocol version. */
  lemma {:induction false} AckHadOurVersion(inputs: seq<Input>, n: nat, j: nat) returns (k: nat)
    requires n <= |inputs| && j < |After(inputs, n).out|
    requires After(inputs, n).out[j].Answered? && After(inputs, n).out[j].answer.TopicsAcked?
    ensures k < n && inputs[k].Text? && inputs[k].frame.Some?
    ensures inputs[k].frame.value.id == Some(After(inputs, n).out[j].id) && inputs[k].frame.value.error.None?
    ensures inputs[k].frame.value.result
         == Some(TopicSubscribed(After(inputs, n).out[j].answer.sub, Some(TOPIC_DATA_PROTOCOL_VERSION)))
    decreases n
  {
    var s, e := After(inputs, n - 1), inputs[n - 1];
    if j < |s.out| {
      TurnAppends(s, e);
      k := AckHadOurVersion(inputs, n - 1, j);
    } else {
      TurnAcks(s, e, j);
      k := n - 1;
    }
  }

  lemma TurnAppends(s: State, e: Input)
    ensures s.out <= Turn(s, e).out
  {
    TurnSends(s, e);
  }

  lemma TurnAcks(s: State, e: Input, j: nat)
    requires |s.out| <= j < |Turn(s, e).out|
    requires Turn(s, e).out[j].Answered? && Turn(s, e).out[j].answer.TopicsAcked?
    ensures e.Text? && e.frame.Some? && e.frame.value.id == Some(Turn(s, e).out[j].id) && e.frame.value.error.None?
    ensures e.frame.value.result == Some(TopicSubscribed(Turn(s, e).out[j].answer.sub, Some(TOPIC_DATA_PROTOCOL_VERSION)))
  {
    TurnSends(s, e);
    if Responded(s, e).Some? {
      TopicsAckedIff(e.frame.value.result, e.frame.value.error, Turn(s, e).out[j].answer.sub);
    } else if IsLogEvent(e) {
      LogMessagesAreLogs(s.logSubscribers, e.gone, e.frame.value.payload.value, j - |s.out|);
    }
  }

  // ----- the messages of a turn --------------------------------------------

  /** The command a frame responds to, if it responds to one. */
  function Responded(s: State, e: Input): Option<Command> {
    if e.Text? && e.frame.Some? && e.frame.value.event.None? && e.frame.value.id.Some?
    then WaitingFor(s, e.frame.value.id.value) else None
  }

  predicate IsLogEvent(e: Input) {
    e.Text? && e.frame.Some? && e.frame.value.event == Some("log") && e.frame.value.payload.Some?
  }

  /** What a turn sends. */
  function NewMessages(s: State, e: Input): seq<Sent> {
    if e.Take? && !e.parses then [Answered(e.id, e.command.caller, ParseFailed)]
    else if Responded(s, e).Some? then
      var w, f := Responded(s, e).value, e.frame.value;
      [Answered(f.id.value, w.caller, AnswerTo(w, f.result, f.error))]
    else if IsLogEvent(e) then LogMessages(s.logSubscribers, e.gone, e.frame.value.payload.value)
    else if e.Binary? && e.sub.Some? && e.sub.value in s.topicSubscribers && s.topicSubscribers[e.sub.value] !in e.gone
    then [TopicData(s.topicSubscribers[e.sub.value], e.sub.value, e.payload)]
    else []
  }

  lemma TurnSends(s: State, e: Input)
    ensures Turn(s, e).out == s.out + NewMessages(s, e)
  {
    if Responded(s, e).Some? {
      ResponseFields(s, e.frame.value.id.value, e.frame.value.result, e.frame.value.error);
    }
  }

  /** The log subscribers after a turn. */
  lemma TurnLogs(s: State, e: Input)
    ensures Turn(s, e).logSubscribers ==
              if Responded(s, e).Some? then
                var w, f := Responded(s, e).value, e.frame.value;
                s.logSubscribers + (if w.SubscribeLogs? && AnswerTo(w, f.result, f.error).LogsAcked? then [w.receiver] else [])
              else if IsLogEvent(e) then Alive(s.logSubscribers, e.gone)
              else s.logSubscribers
  {
    if Responded(s, e).Some? {
      ResponseLogs(s, e.frame.value.id.value, e.frame.value.result, e.frame.value.error);
    }
  }

  // ----- what answers say --------------------------------------------------

  /** `a` is the right answer to `command` for the response `f`. */
  predicate AnswersFrame(command: Command, f: Frame, a: Answer) {
    match command
    case Request(_) =>
      && (f.error.Some? ==> a == Result(ErrorReply(f.error.value)))
      && (f.error.None? && f.result.Some? ==> a == Result(f.result.value))
      && (f.error.None? && f.result.None? ==> a == Empty)
    case SubscribeLogs(_, _) =>
      && (f.error.Some? ==> a == Failed(f.error.value))
      && (f.error.None? ==> a == LogsAcked)
    case SubscribeTopics(_, _) =>
      && (f.error.Some? ==> a == Failed(f.error.value))
      && (f.error.None? && f.result.None? ==> a == Empty)
      && (f.error.None? && f.result.Some? && f.result.value.ErrorReply? ==> a == Failed(f.result.value.message))
      && (f.error.None? && f.result.Some? && f.result.value.OtherReply? ==> a == UnexpectedReply)
      && (f.error.None? && f.result.Some? && f.result.value.TopicSubscribed? ==>
            a == if f.result.value.version == Some(TOPIC_DATA_PROTOCOL_VERSION) then TopicsAcked(f.result.value.sub)
                 else VersionMismatch(f.result.value.version))
  }

  /** Input `e` is why `command`, taken under `id`, is answered `a`. */
  predicate Justifies(e: Input, id: Id, command: Command, a: Answer) {
    || (e.Take? && e.id == id && e.command == command && !e.parses && a == ParseFailed)
    || (e.Text? && e.frame.Some? && e.frame.value.event.None? && e.frame.value.id == Some(id)
        && AnswersFrame(command, e.frame.value, a))
  }

  lemma NewAnswerIsJustified(s: State, e: Input, j: nat)
    requires WsInv(s) && |s.out| <= j < |Turn(s, e).out| && Turn(s, e).out[j].Answered?
    ensures var sent, s' := Turn(s, e).out[j], Turn(s, e);
            sent.id in s'.taken && Justifies(e, sent.id, s'.taken[sent.id], sent.answer)
  {
    TurnSends(s, e);
    TurnTakes(s, e);
    if Responded(s, e).Some? {
      RightAnswer(Responded(s, e).value, e.frame.value);
    } else if IsLogEvent(e) {
      LogMessagesAreLogs(s.logSubscribers, e.gone, e.frame.value.payload.value, j - |s.out|);
    }
  }

  lemma RightAnswer(command: Command, f: Frame)
    ensures AnswersFrame(command, f, AnswerTo(command, f.result, f.error))
  {
  }

  /** Every answer in a session is justified by an input that the session saw: a command
      that did not parse, or the response with its id, whose content decides the answer. */
  lemma {:induction false} AnswerIsJustified(inputs: seq<Input>, n: nat, j: nat) returns (k: nat)
    requires n <= |inputs| && FreshIds(inputs) && j < |After(inputs, n).out| && After(inputs, n).out[j].Answered?
    ensures var sent, s := After(inputs, n).out[j], After(inputs, n);
            k < n && sent.id in s.taken && Justifies(inputs[k], sent.id, s.taken[sent.id], sent.answer)
    decreases n
  {
    GrowsInSession(inputs, n);
    if j < |After(inputs, n - 1).out| {
      k := AnswerIsJustified(inputs, n - 1, j);
    } else {
      SessionInv(inputs, n - 1);
      NewAnswerIsJustified(After(inputs, n - 1), inputs[n - 1], j);
      k := n - 1;
    }
  }

  /** Messages are only added, and a command keeps its id. */
  lemma GrowsInSession(inputs: seq<Input>, n: nat)
    requires 0 < n <= |inputs| && FreshIds(inputs)
    ensures After(inputs, n - 1).out <= After(inputs, n).out
    ensures forall id :: id in After(inputs, n - 1).taken ==>
              id in After(inputs, n).taken && After(inputs, n).taken[id] == After(inputs, n - 1).taken[id]
  {
    var s, e := After(inputs, n - 1), inputs[n - 1];
    TurnTakes(s, e);
    TurnAppends(s, e);
    if e.Take? && e.id in s.taken {
      TakenBefore(inputs, n - 1, e.id);
    }
  }

  /** The first response to a waiting command answers it in that very turn. */
  lemma ResponseAnswersAtOnce(s: State, e: Input)
    requires WsInv(s) && e.Text? && e.frame.Some? && e.frame.value.event.None? && e.frame.value.id.Some?
    requires WaitingFor(s, e.frame.value.id.value).Some?
    ensures var id := e.frame.value.id.value;
            && id in s.taken && |Turn(s, e).out| == |s.out| + 1 && Turn(s, e).out[|s.out|].Answered?
            && Turn(s, e).out[|s.out|].id == id && Turn(s, e).out[|s.out|].caller == s.taken[id].caller
            && AnswersFrame(s.taken[id], e.frame.value, Turn(s, e).out[|s.out|].answer)
  {
    TurnSends(s, e);
    RightAnswer(Responded(s, e).value, e.frame.value);
  }

  // ----- who receives what -------------------------------------------------

  lemma {:induction false} LogMessagesAre(rs: seq<Receiver>, gone: set<Receiver>, payload: string)
    ensures forall m :: m in LogMessages(rs, gone, payload) <==>
              m.LogData? && m.payload == payload && m.receiver in rs && m.receiver !in gone
    ensures forall r :: r in Alive(rs, gone) <==> r in rs && r !in gone
  {
    if rs != [] {
      LogMessagesAre(rs[1..], gone, payload);
      assert rs == [rs[0]] + rs[1..];
    }
  }

  /** `e` is a log event with payload `p`. */
  predicate LogEvent(e: Input, p: string) {
    e.Text? && e.frame.Some? && e.frame.value.event == Some("log") && e.frame.value.payload == Some(p)
  }

  lemma NewLogData(s: State, e: Input, j: nat)
    requires |s.out| <= j < |Turn(s, e).out| && Turn(s, e).out[j].LogData?
    ensures LogEvent(e, Turn(s, e).out[j].payload)
    ensures Turn(s, e).out[j].receiver in s.logSubscribers && Turn(s, e).out[j].receiver !in e.gone
  {
    TurnSends(s, e);
    if IsLogEvent(e) {
      LogMessagesAre(s.logSubscribers, e.gone, e.frame.value.payload.value);
      assert Turn(s, e).out[j] in LogMessages(s.logSubscribers, e.gone, e.frame.value.payload.value);
    }
  }

  /** A log event reaches exactly the log subscribers that still listen. */
  lemma LogEventIsForwarded(s: State, e: Input, p: string, r: Receiver)
    requires LogEvent(e, p)
    ensures LogData(r, p) in Turn(s, e).out[|s.out|..] <==> r in s.logSubscribers && r !in e.gone
    ensures r in Turn(s, e).logSubscribers <==> r in s.logSubscribers && r !in e.gone
  {
    TurnSends(s, e);
    TurnLogs(s, e);
    LogMessagesAre(s.logSubscribers, e.gone, p);
    assert Turn(s, e).out[|s.out|..] == NewMessages(s, e);
  }

  /** A log subscriber's subscription was acknowledged. */
  ghost predicate LogsWereAcked(s: State, r: Receiver) {
    exists j :: 0 <= j < |s.out| && AcksLogs(s, s.out[j], r)
  }

  predicate AcksLogs(s: State, sent: Sent, r: Receiver) {
    sent.Answered? && sent.answer == LogsAcked && sent.id in s.taken && s.taken[sent.id] == SubscribeLogs(sent.caller, r)
  }

  lemma AckedLogsStay(s: State, s': State, r: Receiver)
    requires LogsWereAcked(s, r) && s.out <= s'.out
    requires forall id :: id in s.taken ==> id in s'.taken && s'.taken[id] == s.taken[id]
    ensures LogsWereAcked(s', r)
  {
    var j :| 0 <= j < |s.out| && AcksLogs(s, s.out[j], r);
    assert AcksLogs(s', s'.out[j], r);
  }

  lemma NewLogSubscriber(s: State, e: Input, r: Receiver)
    requires WsInv(s) && r in Turn(s, e).logSubscribers && r !in s.logSubscribers
    ensures LogsWereAcked(Turn(s, e), r)
  {
    TurnLogs(s, e);
    if Responded(s, e).Some? {
      TurnSends(s, e);
      TurnTakes(s, e);
      assert AcksLogs(Turn(s, e), Turn(s, e).out[|s.out|], r);
    } else if IsLogEvent(e) {
      LogMessagesAre(s.logSubscribers, e.gone, e.frame.value.payload.value);
    }
  }

  lemma ResponseLogs(s: State, rid: Id, result: Option<Reply>, error: Option<string>)
    requires WaitingFor(s, rid).Some?
    ensures var w, answer := WaitingFor(s, rid).value, AnswerTo(WaitingFor(s, rid).value, result, error);
            ResponseStep(s, rid, result, error).logSubscribers
            == s.logSubscribers + if w.SubscribeLogs? && answer.LogsAcked? then [w.receiver] else []
  {
    assert s.logSubscribers + [] == s.logSubscribers;
  }

  lemma {:induction false} LogSubscribersWereAcked(inputs: seq<Input>, n: nat, r: Receiver)
    requires n <= |inputs| && FreshIds(inputs) && r in After(inputs, n).logSubscribers
    ensures LogsWereAcked(After(inputs, n), r)
  {
    if n > 0 {
      var s, e := After(inputs, n - 1), inputs[n - 1];
      SessionInv(inputs, n - 1);
      if s.open && r !in s.logSubscribers {
        NewLogSubscriber(s, e, r);
      } else {
        LogSubscribersWereAcked(inputs, n - 1, r);
        GrowsInSession(inputs, n);
        AckedLogsStay(s, After(inputs, n), r);
      }
    }
  }

  /** Log data in a session comes from a log event with that payload, and goes to a receiver
      whose subscription had been acknowledged before. */
  lemma {:induction false} LogDataComesFrom(inputs: seq<Input>, n: nat, j: nat) returns (k: nat)
    requires n <= |inputs| && FreshIds(inputs) && j < |After(inputs, n).out| && After(inputs, n).out[j].LogData?
    ensures k < n && LogEvent(inputs[k], After(inputs, n).out[j].payload)
    ensures After(inputs, n).out[j].receiver !in inputs[k].gone
    ensures LogsWereAcked(After(inputs, k), After(inputs, n).out[j].receiver)
    decreases n
  {
    var s, e := After(inputs, n - 1), inputs[n - 1];
    if j < |s.out| {
      TurnAppends(s, e);
      k := LogDataComesFrom(inputs, n - 1, j);
    } else {
      NewLogData(s, e, j);
      LogSubscribersWereAcked(inputs, n - 1, After(inputs, n).out[j].receiver);
      k := n - 1;
    }
  }

  /** Topic data in a session comes from a binary frame of that subscription with that
      payload. */
  lemma {:induction false} TopicDataComesFrom(inputs: seq<Input>, n: nat, j: nat) returns (k: nat)
    requires n <= |inputs| && j < |After(inputs, n).out| && After(inputs, n).out[j].TopicData?
    ensures k < n && inputs[k].Binary? && inputs[k].sub == Some(After(inputs, n).out[j].sub)
    ensures inputs[k].payload == After(inputs, n).out[j].payload
    ensures After(inputs, n).out[j].receiver !in inputs[k].gone
    decreases n
  {
    var s, e := After(inputs, n - 1), inputs[n - 1];
    if j < |s.out| {
      TurnAppends(s, e);
      k := TopicDataComesFrom(inputs, n - 1, j);
    } else {
      NewTopicData(s, e, j);
      k := n - 1;
    }
  }

  lemma NewTopicData(s: State, e: Input, j: nat)
    requires |s.out| <= j < |Turn(s, e).out| && Turn(s, e).out[j].TopicData?
    ensures e.Binary? && e.sub == Some(Turn(s, e).out[j].sub) && e.payload == Turn(s, e).out[j].payload
    ensures Turn(s, e).out[j].receiver !in e.gone
  {
    TurnSends(s, e);
    if IsLogEvent(e) {
      LogMessagesAreLogs(s.logSubscribers, e.gone, e.frame.value.payload.value, j - |s.out|);
    }
  }

  /** `r` receives the data of `sub`. */
  predicate Receives(s: State, sub: SubId, r: Receiver) {
    sub in s.topicSubscribers && s.topicSubscribers[sub] == r
  }

  /** An acknowledgement establishes the subscription in the same turn. */
  lemma AckEstablishes(s: State, e: Input, sub: SubId)
    requires WsInv(s) && |s.out| < |Turn(s, e).out| && Turn(s, e).out[|s.out|].Answered?
    requires Turn(s, e).out[|s.out|].answer == TopicsAcked(sub)
    ensures var id := Turn(s, e).out[|s.out|].id;
            id in s.taken && s.taken[id].SubscribeTopics? && Receives(Turn(s, e), sub, s.taken[id].receiver)
  {
    TurnSends(s, e);
    if Responded(s, e).Some? {
      ResponseFields(s, e.frame.value.id.value, e.frame.value.result, e.frame.value.error);
    } else if IsLogEvent(e) {
      LogMessagesAreLogs(s.logSubscribers, e.gone, e.frame.value.payload.value, 0);
    }
  }

  /** `e` ends or takes over what `r` receives of `sub`: a frame it no longer took, or a new
      subscription under the same id. */
  predicate Interrupts(e: Input, sub: SubId, r: Receiver) {
    || (e.Binary? && e.sub == Some(sub) && r in e.gone)
    || (e.Text? && e.frame.Some? && e.frame.value.result.Some? && e.frame.value.result.value.TopicSubscribed?
        && e.frame.value.result.value.sub == sub)
  }

  lemma StillReceives(s: State, e: Input, sub: SubId, r: Receiver)
    requires Receives(s, sub, r) && !Interrupts(e, sub, r)
    ensures Receives(Turn(s, e), sub, r)
  {
    if e.Text? && e.frame.Some? {
      var f := e.frame.value;
      if f.event.None? && f.id.Some? && WaitingFor(s, f.id.value).Some? {
        ResponseFields(s, f.id.value, f.result, f.error);
      }
    }
  }

  /** So does the acknowledgement of a log subscription. */
  lemma LogAckEstablishes(s: State, e: Input)
    requires WsInv(s) && |s.out| < |Turn(s, e).out| && Turn(s, e).out[|s.out|].Answered?
    requires Turn(s, e).out[|s.out|].answer == LogsAcked
    ensures var id := Turn(s, e).out[|s.out|].id;
            id in s.taken && s.taken[id].SubscribeLogs? && s.taken[id].receiver in Turn(s, e).logSubscribers
  {
    TurnSends(s, e);
    TurnLogs(s, e);
    if IsLogEvent(e) {
      LogMessagesAreLogs(s.logSubscribers, e.gone, e.frame.value.payload.value, 0);
    }
  }

  /** A frame for a receiver that is gone ends its subscription, and reaches nobody. */
  lemma GoneReceiverIsDropped(s: State, e: Input, sub: SubId, r: Receiver)
    requires e.Binary? && e.sub == Some(sub) && Receives(s, sub, r) && r in e.gone
    ensures sub !in Turn(s, e).topicSubscribers && Turn(s, e).out == s.out
  {
  }

  lemma ResponseStaysOpen(s: State, id: Id, result: Option<Reply>, error: Option<string>)
    ensures ResponseStep(s, id, result, error).open == s.open
  {
  }

  /** The session ends exactly if the connection is lost or a command cannot be sent. */
  lemma SessionEndsIff(s: State, e: Input)
    requires s.open
    ensures !Turn(s, e).open <==> e.Disconnect? || (e.Take? && e.parses && !e.delivered)
  {
    if e.Text? && e.frame.Some? && e.frame.value.id.Some? {
      ResponseStaysOpen(s, e.frame.value.id.value, e.frame.value.result, e.frame.value.error);
    }
  }

  /** An established subscription stands until it is interrupted, and every frame for it in
      the meantime reaches its receiver. */
  lemma {:induction false} SubscriptionStands(inputs: seq<Input>, i: nat, n: nat, sub: SubId, r: Receiver)
    requires i <= n <= |inputs| && Receives(After(inputs, i), sub, r)
    requires forall k :: i <= k < n ==> !Interrupts(inputs[k], sub, r)
    ensures Receives(After(inputs, n), sub, r)
    ensures i < n && After(inputs, n - 1).open && inputs[n - 1].Binary? && inputs[n - 1].sub == Some(sub) ==>
              After(inputs, n).out == After(inputs, n - 1).out + [TopicData(r, sub, inputs[n - 1].payload)]
    decreases n
  {
    if i < n {
      SubscriptionStands(inputs, i, n - 1, sub, r);
      StillReceives(After(inputs, n - 1), inputs[n - 1], sub, r);
    }
  }

  /** A log subscription stands until its receiver is dropped. */
  lemma {:induction false} LogSubscriptionStands(inputs: seq<Input>, i: nat, n: nat, r: Receiver)
    requires i <= n <= |inputs| && r in After(inputs, i).logSubscribers
    requires forall k :: i <= k < n && inputs[k].Text? ==> r !in inputs[k].gone
    ensures r in After(inputs, n).logSubscribers
    decreases n
  {
    if i < n {
      LogSubscriptionStands(inputs, i, n - 1, r);
      StaysLogSubscriber(After(inputs, n - 1), inputs[n - 1], r);
    }
  }

  lemma StaysLogSubscriber(s: State, e: Input, r: Receiver)
    requires r in s.logSubscribers && (e.Text? ==> r !in e.gone)
    ensures r in Turn(s, e).logSubscribers
  {
    TurnLogs(s, e);
    if IsLogEvent(e) {
      LogMessagesAre(s.logSubscribers, e.gone, e.frame.value.payload.value);
    }
  }

  // ----- the loop, updating its maps in place ------------------------------

  predicate TellsRequest(sent: Sent, requests: map<Id, Caller>) {
    sent.Answered? && sent.id in requests && sent.caller == requests[sent.id] && sent.answer == ConnectionClosed
  }

  predicate TellsWaiting(sent: Sent, waiting: map<Id, Waiting>) {
    sent.Answered? && sent.id in waiting && sent.caller == waiting[sent.id].caller && sent.answer == ConnectionClosed
  }

  lemma ClosingAnswerOwned(s: State, sent: Sent)
    requires WsInv(s)
    requires TellsRequest(sent, s.requests) || TellsWaiting(sent, s.logs) || TellsWaiting(sent, s.topics)
    ensures sent.id in s.taken && s.taken[sent.id].caller == sent.caller
  {
    assert BalancedAt(s, sent.id);
    assert WaitingFor(s, sent.id).Some?;
  }

  lemma DrainedIsOwned(s: State, out: seq<Sent>, a: nat, b: nat)
    requires WsInv(s) && |s.out| <= a <= b <= |out|
    requires forall i :: |s.out| <= i < a ==> TellsRequest(out[i], s.requests)
    requires forall i :: a <= i < b ==> TellsWaiting(out[i], s.logs)
    requires forall i :: b <= i < |out| ==> TellsWaiting(out[i], s.topics)
    ensures forall i :: |s.out| <= i < |out| ==>
              && out[i].Answered? && out[i].answer == ConnectionClosed
              && out[i].id in s.taken && s.taken[out[i].id].caller == out[i].caller
  {
    forall i | |s.out| <= i < |out|
      ensures out[i].Answered? && out[i].answer == ConnectionClosed
      ensures out[i].id in s.taken && s.taken[out[i].id].caller == out[i].caller
    {
      ClosingAnswerOwned(s, out[i]);
    }
  }

  class Multiplexer {
    var requests: map<Id, Caller>
    var logs: map<Id, Waiting>
    var topics: map<Id, Waiting>
    var logSubscribers: seq<Receiver>
    var topicSubscribers: map<SubId, Receiver>
    var out: seq<Sent>
    var open: bool
    ghost var taken: map<Id, Command>

    ghost function View(): State
      reads this
    {
      State(requests, logs, topics, logSubscribers, topicSubscribers, out, taken, open)
    }

    constructor ()
      ensures View() == START
    {
      requests, logs, topics, logSubscribers, topicSubscribers := map[], map[], map[], [], map[];
      out, open, taken := [], true, map[];
    }

    method SendOut(sent: Sent)
      modifies this`out
      ensures out == old(out) + [sent]
    {
      out := out + [sent];
    }

    method HandleCommand(command: Command, id: Id, parses: bool, delivered: bool)
      modifies this
      ensures View() == TakeStep(old(View()), command, id, parses, delivered)
    {
      taken := taken[id := command];
      if !parses {
        SendOut(Answered(id, command.caller, ParseFailed));
        return;
      }
      match command {
        case Request(c) => requests := requests[id := c];
        case SubscribeLogs(c, r) => logs := logs[id := Waiting(c, r)];
        case SubscribeTopics(c, r) => topics := topics[id := Waiting(c, r)];
      }
      open := delivered;
    }

    /** Matches a response to the command that waits for it. */
    method HandleResponse(id: Id, result: Option<Reply>, error: Option<string>)
      modifies this
      ensures View() == ResponseStep(old(View()), id, result, error)
    {
      if id in logs {
        var w := logs[id];
        logs := logs - {id};
        if error.Some? {
          SendOut(Answered(id, w.caller, Failed(error.value)));
        } else {
          logSubscribers := logSubscribers + [w.receiver];
          SendOut(Answered(id, w.caller, LogsAcked));
        }
      } else if id in topics {
        HandleTopicResponse(id, result, error);
      } else if id in requests {
        var c := requests[id];
        requests := requests - {id};
        SendOut(Answered(id, c, if error.Some? then Result(ErrorReply(error.value))
                                else if result.Some? then Result(result.value) else Empty));
      }
    }

    method HandleTopicResponse(id: Id, result: Option<Reply>, error: Option<string>)
      requires id !in logs && id in topics
      modifies this`topics, this`topicSubscribers, this`out
      ensures View() == ResponseStep(old(View()), id, result, error)
    {
      var w := topics[id];
      topics := topics - {id};
      if error.Some? {
        SendOut(Answered(id, w.caller, Failed(error.value)));
      } else if result.None? {
        SendOut(Answered(id, w.caller, Empty));
      } else {
        match result.value {
          case TopicSubscribed(sub, version) =>
            if version != Some(TOPIC_DATA_PROTOCOL_VERSION) {
              SendOut(Answered(id, w.caller, VersionMismatch(version)));
            } else {
              topicSubscribers := topicSubscribers[sub := w.receiver];
              SendOut(Answered(id, w.caller, TopicsAcked(sub)));
            }
          case ErrorReply(m) => SendOut(Answered(id, w.caller, Failed(m)));
          case OtherReply(_) => SendOut(Answered(id, w.caller, UnexpectedReply));
        }
      }
    }

    /** Forwards a log event and forgets the receivers that were dropped. */
    method ForwardLog(payload: string, gone: set<Receiver>)
      modifies this`logSubscribers, this`out
      ensures logSubscribers == Alive(old(logSubscribers), gone)
      ensures out == old(out) + LogMessages(old(logSubscribers), gone, payload)
    {
      var subscribers, kept, i := logSubscribers, [], 0;
      assert subscribers[0..] == subscribers;
      while i < |subscribers|
        invariant 0 <= i <= |subscribers|
        invariant kept + Alive(subscribers[i..], gone) == Alive(subscribers, gone)
        invariant out + LogMessages(subscribers[i..], gone, payload) == old(out) + LogMessages(subscribers, gone, payload)
      {
        assert subscribers[i..][1..] == subscribers[i + 1..];
        if subscribers[i] !in gone {
          kept := kept + [subscribers[i]];
          SendOut(LogData(subscribers[i], payload));
        }
        i := i + 1;
      }
      logSubscribers := kept;
    }

    method HandleText(frame: Option<Frame>, gone: set<Receiver>)
      modifies this
      ensures View() == TextStep(old(View()), frame, gone)
    {
      if frame.Some? {
        var f := frame.value;
        if f.event.Some? {
          if f.event.value == "log" && f.payload.Some? {
            ForwardLog(f.payload.value, gone);
          }
        } else if f.id.Some? {
          HandleResponse(f.id.value, f.result, f.error);
        }
      }
    }

    method HandleBinary(sub: Option<SubId>, payload: string, gone: set<Receiver>)
      modifies this
      ensures View() == BinaryStep(old(View()), sub, payload, gone)
    {
      if sub.Some? && sub.value in topicSubscribers {
        if topicSubscribers[sub.value] in gone {
          topicSubscribers := topicSubscribers - {sub.value};
        } else {
          SendOut(TopicData(topicSubscribers[sub.value], sub.value, payload));
        }
      }
    }

    method HandleInput(e: Input)
      modifies this
      ensures View() == Turn(old(View()), e)
    {
      match e {
        case Take(command, id, parses, delivered) => HandleCommand(command, id, parses, delivered);
        case Text(frame, gone) => HandleText(frame, gone);
        case Binary(sub, payload, gone) => HandleBinary(sub, payload, gone);
        case Ignored =>
        case Disconnect => open := false;
      }
    }

    method DrainRequests()
      modifies this`requests, this`out
      ensures requests == map[] && old(out) <= out
      ensures forall id :: TimesAnswered(out, id) == old(TimesAnswered(out, id)) + if id in old(requests) then 1 else 0
      ensures forall i :: |old(out)| <= i < |out| ==> TellsRequest(out[i], old(requests))
    {
      while requests != map[]
        invariant requests.Keys <= old(requests).Keys && old(out) <= out
        invariant forall id :: id in requests ==> requests[id] == old(requests)[id]
        invariant forall i :: |old(out)| <= i < |out| ==> TellsRequest(out[i], old(requests))
        invariant forall id :: TimesAnswered(out, id)
                            == old(TimesAnswered(out, id)) + if id in old(requests).Keys - requests.Keys then 1 else 0
        decreases |requests|
      {
        var id :| id in requests;
        forall i
          ensures TimesAnswered(out + [Answered(id, requests[id], ConnectionClosed)], i)
               == TimesAnswered(out, i) + if i == id then 1 else 0
        {
          AnsweredOne(out, Answered(id, requests[id], ConnectionClosed), i);
        }
        SendOut(Answered(id, requests[id], ConnectionClosed));
        requests := requests - {id};
      }
    }

    method DrainWaiting(waiting: map<Id, Waiting>)
      modifies this`out
      ensures old(out) <= out
      ensures forall id :: TimesAnswered(out, id) == old(TimesAnswered(out, id)) + if id in waiting then 1 else 0
      ensures forall i :: |old(out)| <= i < |out| ==> TellsWaiting(out[i], waiting)
    {
      var todo := waiting.Keys;
      while todo != {}
        invariant todo <= waiting.Keys && old(out) <= out
        invariant forall i :: |old(out)| <= i < |out| ==> TellsWaiting(out[i], waiting)
        invariant forall id :: TimesAnswered(out, id)
                            == old(TimesAnswered(out, id)) + if id in waiting.Keys - todo then 1 else 0
      {
        var id :| id in todo;
        forall i
          ensures TimesAnswered(out + [Answered(id, waiting[id].caller, ConnectionClosed)], i)
               == TimesAnswered(out, i) + if i == id then 1 else 0
        {
          AnsweredOne(out, Answered(id, waiting[id].caller, ConnectionClosed), i);
        }
        SendOut(Answered(id, waiting[id].caller, ConnectionClosed));
        todo := todo - {id};
      }
    }

    /** The connection is gone: everyone who still waits is told so. */
    method Finish()
      requires WsInv(View())
      modifies this`requests, this`logs, this`topics, this`out
      ensures requests == map[] && logs == map[] && topics == map[]
      ensures old(out) <= out && AnswersOwned(View())
      ensures forall i :: |old(out)| <= i < |out| ==> out[i].Answered? && out[i].answer == ConnectionClosed
      ensures forall id :: TimesAnswered(out, id) == if id in taken then 1 else 0
    {
      ghost var s := View();
      DrainRequests();
      ghost var out1 := out;
      DrainWaiting(logs);
      ghost var out2 := out;
      DrainWaiting(topics);
      DrainedIsOwned(s, out, |out1|, |out2|);
      logs, topics := map[], map[];
      AnswersStayOwned(s, View());
      forall id
        ensures TimesAnswered(out, id) == if id in taken then 1 else 0
      {
        assert BalancedAt(s, id);
      }
    }

    /** The session: every command that was taken off the queue is answered exactly once
        by the time the loop has ended. */
    method Run(inputs: seq<Input>)
      requires View() == START && FreshIds(inputs)
      modifies this
      ensures taken == After(inputs, |inputs|).taken
      ensures forall id :: TimesAnswered(out, id) == if id in taken then 1 else 0
      ensures After(inputs, |inputs|).out <= out && AnswersOwned(View())
      ensures forall i :: |After(inputs, |inputs|).out| <= i < |out| ==>
                out[i].Answered? && out[i].answer == ConnectionClosed
    {
      var n := 0;
      while n < |inputs|
        invariant 0 <= n <= |inputs| && View() == After(inputs, n)
      {
        if open {
          HandleInput(inputs[n]);
        }
        n := n + 1;
      }
      SessionInv(inputs, n);
      Finish();
    }
  }
}
