/**
 * What one run of each bot handler does, as the ordered list of its
 * effects: writes to and deletes from `userStates`, replies to the user,
 * and the request to the completion backend.
 */
module Turns {
  import opened Wrappers
  import opened Chunking
  import opened Menu

  /** The messages the bot sends. Fixed texts are kept opaque; distinct
      constructors are distinct texts. */
  datatype Reply =
    | ToolLabel(kind: ToolKind)        // index.js:55, 58, 65, 72
    | ToolInstruction(kind: ToolKind)  // index.js:56, 59, 66, 73
    | ChooseFromMenu                   // index.js:79
    | GenericError                     // index.js:83
    | Working                          // index.js:101
    | ResponsePart(text: Text)         // index.js:154, 157
    | RestartOffer                     // index.js:161-167
    | AnalysisFailed                   // index.js:171

  /** Only the closing message carries the "open the tools again" button. */
  predicate HasRestartButton(r: Reply)
  {
    r.RestartOffer?
  }

  /** A chat-completion request: system prompt and the user's text. */
  datatype Request = Request(system: SystemPrompt, user: Text)

  /** The backend's answer: the first choice's content, or any failure
      (network, status, response shape), which the handler catches. */
  datatype BackendResult = Ok(text: Text) | Err

  datatype Effect =
    | Write(user: int, kind: ToolKind)  // userStates[user] = ...
    | Clear(user: int)                  // delete userStates[user]
    | Send(to: int, reply: Reply)       // ctx.reply(...)
    | Ask(request: Request)             // the axios POST

  /** Whether an effect touches `userStates`. */
  predicate TouchesStore(e: Effect)
  {
    e.Write? || e.Clear?
  }

  function Step(m: map<int, ToolKind>, e: Effect): map<int, ToolKind>
  {
    match e
    case Write(u, k) => m[u := k]
    case Clear(u) => m - {u}
    case _ => m
  }

  /** The store after the effects, in order. */
  function Apply(m: map<int, ToolKind>, es: seq<Effect>): map<int, ToolKind>
    decreases |es|
  {
    if es == [] then m else Apply(Step(m, es[0]), es[1..])
  }

  /** The replies among the effects, in order. */
  function Sent(es: seq<Effect>): seq<Reply>
    decreases |es|
  {
    if es == [] then []
    else (if es[0].Send? then [es[0].reply] else []) + Sent(es[1..])
  }

  /** Sending each text as its own message, in order (index.js:153-155). */
  function SendAll(user: int, parts: seq<Text>): seq<Effect>
  {
    if parts == [] then [] else [Send(user, ResponsePart(parts[0]))] + SendAll(user, parts[1..])
  }

  /** The replies carrying the given texts. */
  function PartReplies(parts: seq<Text>): seq<Reply>
  {
    if parts == [] then [] else [ResponsePart(parts[0])] + PartReplies(parts[1..])
  }

  /** The `web_app_data` handler (index.js:44-85). For market analysis the
      entry is written before the two replies; for the other tools after. */
  function WebAppTurn(user: int, p: Payload): seq<Effect>
  {
    match Dispatch(p)
    case Chosen(k) =>
      if k == MarketAnalysis then
        [Write(user, k), Send(user, ToolLabel(k)), Send(user, ToolInstruction(k))]
      else
        [Send(user, ToolLabel(k)), Send(user, ToolInstruction(k)), Write(user, k)]
    case NotInMenu => [Send(user, ChooseFromMenu)]
    case Failed => [Send(user, GenericError)]
  }

  /** The request a pending tool and the user's text lead to. */
  function RequestFor(k: ToolKind, text: Text): Request
  {
    Request(ToolPrompt(k), text)
  }

  /** What follows the request: the response and the restart offer, or the
      single failure message (index.js:148-171). */
  function AfterBackend(user: int, answer: BackendResult): seq<Effect>
  {
    match answer
    case Ok(response) => SendAll(user, ResponseMessages(response)) + [Send(user, RestartOffer)]
    case Err => [Send(user, AnalysisFailed)]
  }

  /** The `text` handler (index.js:88-173), with the backend as `complete`. */
  function TextTurn(states: map<int, ToolKind>, user: int, text: Text,
                    complete: Request -> BackendResult): seq<Effect>
  {
    if user !in states then []
    else
      var request := RequestFor(states[user], text);
      [Clear(user), Send(user, Working), Ask(request)] + AfterBackend(user, complete(request))
  }

  // ---- the trace algebra ----

  lemma {:induction false} ApplyAppend(m: map<int, ToolKind>, a: seq<Effect>, b: seq<Effect>)
    ensures Apply(m, a + b) == Apply(Apply(m, a), b)
    decreases |a|
  {
    if a != [] {
      assert (a + b)[0] == a[0];
      assert (a + b)[1..] == a[1..] + b;
      ApplyAppend(Step(m, a[0]), a[1..], b);
      assert Apply(m, a + b) == Apply(Step(m, a[0]), a[1..] + b);
    } else {
      assert a + b == b;
    }
  }

  lemma {:induction false} SentAppend(a: seq<Effect>, b: seq<Effect>)
    ensures Sent(a + b) == Sent(a) + Sent(b)
    decreases |a|
  {
    if a != [] {
      assert (a + b)[0] == a[0];
      assert (a + b)[1..] == a[1..] + b;
      SentAppend(a[1..], b);
      var h := if a[0].Send? then [a[0].reply] else [];
      assert Sent(a + b) == h + Sent(a[1..] + b);
      assert Sent(a) == h + Sent(a[1..]);
    } else {
      assert a + b == b;
    }
  }

  lemma ApplyOne(m: map<int, ToolKind>, e: Effect)
    ensures Apply(m, [e]) == Step(m, e)
  {
    assert [e][1..] == [];
  }

  lemma SentOne(e: Effect)
    ensures Sent([e]) == if e.Send? then [e.reply] else []
  {
    assert [e][1..] == [];
  }

  /** Effects that do not touch the store leave it as it was. */
  lemma {:induction false} ApplyUntouched(m: map<int, ToolKind>, es: seq<Effect>)
    requires forall i :: 0 <= i < |es| ==> !TouchesStore(es[i])
    ensures Apply(m, es) == m
    decreases |es|
  {
    if es != [] {
      ApplyUntouched(Step(m, es[0]), es[1..]);
    }
  }

  /** Sending the response pieces only sends: each piece once, in order. */
  lemma {:induction false} SendAllFacts(user: int, parts: seq<Text>)
    ensures |SendAll(user, parts)| == |parts|
    ensures forall i :: 0 <= i < |parts| ==> SendAll(user, parts)[i] == Send(user, ResponsePart(parts[i]))
    ensures Sent(SendAll(user, parts)) == PartReplies(parts)
    decreases |parts|
  {
    if parts != [] {
      SendAllFacts(user, parts[1..]);
      var es := SendAll(user, parts);
      assert es[1..] == SendAll(user, parts[1..]);
    }
  }

  /** Appending one more piece appends one more send (the loop's step). */
  lemma {:induction false} SendAllSnoc(user: int, parts: seq<Text>, i: nat)
    requires i < |parts|
    ensures SendAll(user, parts[..i + 1]) == SendAll(user, parts[..i]) + [Send(user, ResponsePart(parts[i]))]
  {
    SendAllFacts(user, parts[..i + 1]);
    SendAllFacts(user, parts[..i]);
  }

  /** The pending entry as a reference definition, read from the end of
      the trace: the last write or delete for `u` decides. */
  function LastPending(m: map<int, ToolKind>, es: seq<Effect>, u: int): Option<ToolKind>
  {
    if es == [] then Get(m, u)
    else
      var e := es[|es| - 1];
      if e.Write? && e.user == u then Some(e.kind)
      else if e.Clear? && e.user == u then None
      else LastPending(m, es[..|es| - 1], u)
  }

  /** A user has a pending tool exactly when the last store effect for
      them was a write of that tool (or there was none and they had it). */
  lemma {:induction false} ApplyIsLastPending(m: map<int, ToolKind>, es: seq<Effect>, u: int)
    ensures Get(Apply(m, es), u) == LastPending(m, es, u)
    decreases |es|
  {
    if es != [] {
      var init, e := es[..|es| - 1], es[|es| - 1];
      assert es == init + [e];
      ApplyAppend(m, init, [e]);
      ApplyIsLastPending(m, init, u);
    }
  }

  // ---- the web-app handler ----

  /** A selected tool: the entry is set (replacing any old one, other users
      untouched) and exactly two replies go out, label then instruction. */
  lemma WebAppSelects(states: map<int, ToolKind>, user: int, p: Payload, k: ToolKind)
    requires Dispatch(p) == Chosen(k)
    ensures Apply(states, WebAppTurn(user, p)) == states[user := k]
    ensures Sent(WebAppTurn(user, p)) == [ToolLabel(k), ToolInstruction(k)]
    ensures k == MarketAnalysis ==> WebAppTurn(user, p)[0] == Write(user, k)
    ensures k != MarketAnalysis ==> WebAppTurn(user, p)[2] == Write(user, k)
  {
    var es := WebAppTurn(user, p);
    var a, b, c := es[0], es[1], es[2];
    assert es == [a] + [b] + [c];
    ApplyAppend(states, [a] + [b], [c]);
    ApplyAppend(states, [a], [b]);
    ApplyOne(states, a);
    ApplyOne(Apply(states, [a]), b);
    ApplyOne(Apply(states, [a] + [b]), c);
    SentAppend([a] + [b], [c]);
    SentAppend([a], [b]);
    SentOne(a);
    SentOne(b);
    SentOne(c);
  }

  /** Any other outcome: one reply, the store unchanged. */
  lemma WebAppRejects(states: map<int, ToolKind>, user: int, p: Payload)
    requires !Dispatch(p).Chosen?
    ensures Apply(states, WebAppTurn(user, p)) == states
    ensures Dispatch(p) == NotInMenu ==> Sent(WebAppTurn(user, p)) == [ChooseFromMenu]
    ensures Dispatch(p) == Failed ==> Sent(WebAppTurn(user, p)) == [GenericError]
  {
  }

  // ---- the text handler ----

  /** Text from a user without an entry: nothing is sent, nothing asked,
      the store is unchanged (index.js:89-93). */
  lemma TextIgnoredWithoutEntry(states: map<int, ToolKind>, user: int, text: Text,
                                complete: Request -> BackendResult)
    requires user !in states
    ensures TextTurn(states, user, text, complete) == []
    ensures Apply(states, TextTurn(states, user, text, complete)) == states
  {
  }

  /** Text from a user with an entry: the entry is deleted first, before any
      reply, and nothing later in the turn touches the store, so afterwards
      only that user's entry is gone (index.js:98-101). */
  lemma TextConsumesEntry(states: map<int, ToolKind>, user: int, text: Text,
                          complete: Request -> BackendResult)
    requires user in states
    ensures TextTurn(states, user, text, complete)[0] == Clear(user)
    ensures forall i :: 0 < i < |TextTurn(states, user, text, complete)| ==>
      !TouchesStore(TextTurn(states, user, text, complete)[i])
    ensures Apply(states, TextTurn(states, user, text, complete)) == states - {user}
  {
    var request := RequestFor(states[user], text);
    var tail := AfterBackend(user, complete(request));
    AfterBackendUntouched(user, complete(request));
    var rest := [Send(user, Working), Ask(request)] + tail;
    PrependUntouched([Send(user, Working), Ask(request)], tail);
    ClearThenUntouched(states, user, rest);
    assert TextTurn(states, user, text, complete) == [Clear(user)] + rest;
  }

  /** Untouched effects followed by untouched effects are untouched. */
  lemma PrependUntouched(a: seq<Effect>, b: seq<Effect>)
    requires forall i :: 0 <= i < |a| ==> !TouchesStore(a[i])
    requires forall i :: 0 <= i < |b| ==> !TouchesStore(b[i])
    ensures forall i :: 0 <= i < |a + b| ==> !TouchesStore((a + b)[i])
  {
    forall i | 0 <= i < |a + b| ensures !TouchesStore((a + b)[i]) {
      if i >= |a| { assert (a + b)[i] == b[i - |a|]; }
    }
  }

  /** A delete followed by effects that leave the store alone removes just
      that entry. */
  lemma ClearThenUntouched(m: map<int, ToolKind>, user: int, rest: seq<Effect>)
    requires forall i :: 0 <= i < |rest| ==> !TouchesStore(rest[i])
    ensures forall i :: 0 < i < |[Clear(user)] + rest| ==> !TouchesStore(([Clear(user)] + rest)[i])
    ensures Apply(m, [Clear(user)] + rest) == m - {user}
  {
    var es := [Clear(user)] + rest;
    forall i | 0 < i < |es| ensures !TouchesStore(es[i]) {
      assert es[i] == rest[i - 1];
    }
    ApplyAppend(m, [Clear(user)], rest);
    ApplyOne(m, Clear(user));
    ApplyUntouched(m - {user}, rest);
  }

  /** The replies after the backend call never touch the store. */
  lemma AfterBackendUntouched(user: int, answer: BackendResult)
    ensures forall i :: 0 <= i < |AfterBackend(user, answer)| ==> !TouchesStore(AfterBackend(user, answer)[i])
  {
    if answer.Ok? {
      var parts := ResponseMessages(answer.text);
      SendAllFacts(user, parts);
      var tail := AfterBackend(user, answer);
      assert tail == SendAll(user, parts) + [Send(user, RestartOffer)];
      forall i | 0 <= i < |tail| ensures !TouchesStore(tail[i]) {
        if i < |parts| { assert tail[i] == SendAll(user, parts)[i]; }
      }
    }
  }

  /** A second text right after the first is ignored: the first turn
      already deleted the entry. */
  lemma SecondTextIgnored(states: map<int, ToolKind>, user: int, first: Text, second: Text,
                          complete: Request -> BackendResult, complete2: Request -> BackendResult)
    ensures TextTurn(Apply(states, TextTurn(states, user, first, complete)), user, second, complete2) == []
  {
    if user in states {
      TextConsumesEntry(states, user, first, complete);
    }
  }

  /** The backend is asked once, with the prompt of the pending tool and the
      user's own text; with no entry it is not asked at all. */
  lemma TextAsksWithToolPrompt(states: map<int, ToolKind>, user: int, text: Text,
                               complete: Request -> BackendResult)
    ensures user in states ==>
      TextTurn(states, user, text, complete)[2] == Ask(Request(ToolPrompt(states[user]), text))
    ensures user in states ==>
      forall i :: 0 <= i < |TextTurn(states, user, text, complete)| && i != 2 ==> !TextTurn(states, user, text, complete)[i].Ask?
    ensures user !in states ==>
      forall i :: 0 <= i < |TextTurn(states, user, text, complete)| ==> !TextTurn(states, user, text, complete)[i].Ask?
  {
    if user in states {
      var request := RequestFor(states[user], text);
      var tail := AfterBackend(user, complete(request));
      var es := TextTurn(states, user, text, complete);
      assert es == [Clear(user), Send(user, Working), Ask(request)] + tail;
      if complete(request).Ok? {
        var parts := ResponseMessages(complete(request).text);
        SendAllFacts(user, parts);
        assert tail == SendAll(user, parts) + [Send(user, RestartOffer)];
        forall i | 0 <= i < |tail| ensures !tail[i].Ask? {
          if i < |parts| { assert tail[i] == SendAll(user, parts)[i]; }
        }
      }
      forall i | 0 <= i < |es| && i != 2 ensures !es[i].Ask? {
        if i >= 3 { assert es[i] == tail[i - 3]; }
      }
    }
  }

  /** On success the replies are the acknowledgment, the response pieces in
      order, then the restart offer; on failure the acknowledgment and one
      failure message, without the restart offer (index.js:101, 151-171).
      The restart button appears exactly on success, and only on the last
      reply. */
  lemma TextReplies(states: map<int, ToolKind>, user: int, text: Text,
                    complete: Request -> BackendResult)
    requires user in states
    ensures complete(RequestFor(states[user], text)).Ok? ==>
      Sent(TextTurn(states, user, text, complete)) ==
        [Working] + PartReplies(ResponseMessages(complete(RequestFor(states[user], text)).text)) + [RestartOffer]
    ensures complete(RequestFor(states[user], text)).Err? ==>
      Sent(TextTurn(states, user, text, complete)) == [Working, AnalysisFailed]
    ensures complete(RequestFor(states[user], text)).Ok? <==>
      exists i :: 0 <= i < |Sent(TextTurn(states, user, text, complete))| &&
        HasRestartButton(Sent(TextTurn(states, user, text, complete))[i])
    ensures forall i :: 0 <= i < |Sent(TextTurn(states, user, text, complete))| - 1 ==>
      !HasRestartButton(Sent(TextTurn(states, user, text, complete))[i])
  {
    var request := RequestFor(states[user], text);
    var head := [Clear(user), Send(user, Working), Ask(request)];
    assert Sent(head) == [Working] by {
      assert head == [head[0]] + [head[1]] + [head[2]];
      SentAppend([head[0]] + [head[1]], [head[2]]);
      SentAppend([head[0]], [head[1]]);
      SentOne(head[0]);
      SentOne(head[1]);
      SentOne(head[2]);
    }
    var tail := AfterBackend(user, complete(request));
    SentAppend(head, tail);
    match complete(request)
    case Ok(response) =>
      var parts := ResponseMessages(response);
      SentAppend(SendAll(user, parts), [Send(user, RestartOffer)]);
      SendAllFacts(user, parts);
      PartRepliesAt(parts);
      var replies := Sent(TextTurn(states, user, text, complete));
      assert replies == [Working] + PartReplies(parts) + [RestartOffer];
      assert HasRestartButton(replies[|replies| - 1]);
      forall i | 0 <= i < |replies| - 1 ensures !HasRestartButton(replies[i]) {
        if i > 0 { assert replies[i] == PartReplies(parts)[i - 1]; }
      }
    case Err =>
  }

  /** The i-th of the piece replies carries the i-th piece. */
  lemma {:induction false} PartRepliesAt(parts: seq<Text>)
    ensures |PartReplies(parts)| == |parts|
    ensures forall i :: 0 <= i < |parts| ==> PartReplies(parts)[i] == ResponsePart(parts[i])
    decreases |parts|
  {
    if parts != [] {
      PartRepliesAt(parts[1..]);
    }
  }

  /** The scenario of selecting "business idea", sending a text, and
      getting a 9000-unit response: two prompts, the entry set, then the
      acknowledgment, three pieces in order and the restart offer, and no
      entry left behind. */
  lemma BusinessIdeaScenario(states: map<int, ToolKind>, user: int, text: Text,
                             complete: Request -> BackendResult)
    requires complete(Request(IdeaGeneratorPrompt, text)).Ok?
    requires |complete(Request(IdeaGeneratorPrompt, text)).text| == 9000
    ensures
      var menu := WebAppTurn(user, Fields(Some("businessIdea"), None));
      var afterMenu := Apply(states, menu);
      var turn := TextTurn(afterMenu, user, text, complete);
      var r := complete(Request(IdeaGeneratorPrompt, text)).text;
      && Sent(menu) == [ToolLabel(BusinessIdea), ToolInstruction(BusinessIdea)]
      && afterMenu == states[user := BusinessIdea]
      && turn[2] == Ask(Request(IdeaGeneratorPrompt, text))
      && Sent(turn) == [Working, ResponsePart(r[..4000]), ResponsePart(r[4000..8000]),
                        ResponsePart(r[8000..]), RestartOffer]
      && user !in Apply(afterMenu, turn)
  {
    var p := Fields(Some("businessIdea"), None);
    WebAppSelects(states, user, p, BusinessIdea);
    var afterMenu := states[user := BusinessIdea];
    var r := complete(Request(IdeaGeneratorPrompt, text)).text;
    TextReplies(afterMenu, user, text, complete);
    TextConsumesEntry(afterMenu, user, text, complete);
    var mid := r[4000..];
    assert mid[..4000] == r[4000..8000];
    assert mid[4000..] == r[8000..];
    assert Chunks(r[8000..]) == [r[8000..]];
    assert Chunks(mid) == [r[4000..8000]] + [r[8000..]];
    var parts := [r[..4000], r[4000..8000], r[8000..]];
    assert Chunks(r) == [r[..4000]] + Chunks(mid);
    assert ResponseMessages(r) == parts;
    assert PartReplies(parts) == [ResponsePart(r[..4000]), ResponsePart(r[4000..8000]), ResponsePart(r[8000..])] by {
      var p1, p2 := parts[1..], parts[1..][1..];
      assert p1 == [r[4000..8000], r[8000..]];
      assert p2 == [r[8000..]];
      assert p2[1..] == [];
      assert PartReplies(p2) == [ResponsePart(r[8000..])];
      assert PartReplies(p1) == [ResponsePart(r[4000..8000])] + PartReplies(p2);
    }
  }
}
