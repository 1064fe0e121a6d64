/**
 * The two bot handlers as they run: each one changes the session store and
 * issues its replies step by step. `trace` records every effect in the
 * order it happens; the store always equals what the trace implies.
 */
module Handlers {
  import opened Wrappers
  import opened Chunking
  import opened Menu
  import opened Session
  import opened Turns

  class Bot {
    const store: SessionStore
    var trace: seq<Effect>

    /** The store holds exactly the entries the recorded effects leave. */
    ghost predicate Valid()
      reads this, store
    {
      store.states == Apply(map[], trace)
    }

    constructor ()
      ensures Valid() && fresh(store)
      ensures trace == [] && store.states == map[]
    {
      store := new SessionStore();
      trace := [];
    }

    /** `await ctx.reply(...)`. */
    method Say(user: int, r: Reply)
      modifies this
      ensures trace == old(trace) + [Send(user, r)]
    {
      trace := trace + [Send(user, r)];
    }

    /** Record a non-reply effect just performed. */
    method Note(e: Effect)
      modifies this
      ensures trace == old(trace) + [e]
    {
      trace := trace + [e];
    }

    /** The `web_app_data` handler (index.js:44-85). */
    method OnWebAppData(user: int, payload: Payload)
      requires Valid()
      modifies this, store
      ensures Valid()
      ensures trace == old(trace) + WebAppTurn(user, payload)
      ensures store.states == Apply(old(store.states), WebAppTurn(user, payload))
    {
      ghost var s0, t0 := store.states, trace;
      match Dispatch(payload) {
      case Chosen(k) =>
        if k == MarketAnalysis {
          store.SetPending(user, k);
          Note(Write(user, k));
          Say(user, ToolLabel(k));
          Say(user, ToolInstruction(k));
        } else {
          Say(user, ToolLabel(k));
          Say(user, ToolInstruction(k));
          store.SetPending(user, k);
          Note(Write(user, k));
        }
        WebAppSelects(s0, user, payload, k);
      case NotInMenu =>
        Say(user, ChooseFromMenu);
        WebAppRejects(s0, user, payload);
      case Failed =>
        Say(user, GenericError);
        WebAppRejects(s0, user, payload);
      }
      assert s0 == Apply(map[], t0);
      assert trace == t0 + WebAppTurn(user, payload);
      ApplyAppend(map[], t0, WebAppTurn(user, payload));
      assert store.states == Apply(s0, WebAppTurn(user, payload));
    }

    /** The `text` handler (index.js:88-173); `complete` stands for the
        chat-completion call. */
    method OnText(user: int, text: Text, complete: Request -> BackendResult)
      requires Valid()
      modifies this, store
      ensures Valid()
      ensures trace == old(trace) + TextTurn(old(store.states), user, text, complete)
      ensures store.states == Apply(old(store.states), TextTurn(old(store.states), user, text, complete))
    {
      ghost var s0, t0 := store.states, trace;
      var pending := store.TakePending(user);
      if pending.None? {
        assert trace == t0 + [];
        return;
      }
      Note(Clear(user));
      Say(user, Working);
      var request := RequestFor(pending.value, text);
      Note(Ask(request));
      assert trace == t0 + [Clear(user), Send(user, Working), Ask(request)];
      ghost var t1 := trace;
      var answer := complete(request);
      match answer {
      case Err =>
        Say(user, AnalysisFailed);
      case Ok(response) =>
        if |response| > ChunkLimit {
          var parts := Chunks(response);
          for i := 0 to |parts|
            invariant trace == t1 + SendAll(user, parts[..i])
            invariant store.states == s0 - {user}
          {
            SendAllSnoc(user, parts, i);
            Say(user, ResponsePart(parts[i]));
          }
          assert parts[..|parts|] == parts;
        } else {
          Say(user, ResponsePart(response));
          assert SendAll(user, [response]) == [Send(user, ResponsePart(response))];
        }
        Say(user, RestartOffer);
      }
      TextConsumesEntry(s0, user, text, complete);
      assert s0 == Apply(map[], t0);
      assert trace == t0 + TextTurn(s0, user, text, complete);
      ApplyAppend(map[], t0, TextTurn(s0, user, text, complete));
      assert store.states == Apply(s0, TextTurn(s0, user, text, complete));
    }
  }
}
