/**
 * The `userStates` object (index.js:30): for each user id, the tool whose
 * free-text input the bot is waiting for.
 */
module Session {
  import opened Wrappers
  import opened Menu

  class SessionStore {
    var states: map<int, ToolKind>

    /** The empty object literal `{}`. */
    constructor ()
      ensures states == map[]
    {
      states := map[];
    }

    /** `userStates[id] = { waitingFor: ... }`: the new entry replaces any
        earlier one for that user; other users keep theirs. */
    method SetPending(user: int, kind: ToolKind)
      modifies this
      ensures states == old(states)[user := kind]
      ensures user in states && states[user] == kind
      ensures forall u :: u != user ==> Get(states, u) == Get(old(states), u)
    {
      states := states[user := kind];
    }

    /** Read the user's entry and `delete` it (index.js:90, 99). A user with
        no entry gets None and the store is left as it was. */
    method TakePending(user: int) returns (pending: Option<ToolKind>)
      modifies this
      ensures pending == Get(old(states), user)
      ensures states == old(states) - {user}
      ensures pending.None? ==> states == old(states)
    {
      if user in states {
        pending := Some(states[user]);
        states := states - {user};
      } else {
        pending := None;
      }
    }
  }
}
