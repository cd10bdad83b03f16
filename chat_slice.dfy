/**
 * The `chat` slice (10/client/src/features/chat/chatSlice.ts): the client's view of
 * the socket connection, one status field with four declared values and three case
 * reducers that each assign it a fixed value.
 */
module ChatSlice {
  import opened Wrappers
  import opened Actions

  datatype ConnectionStatus = Disconnected | Connecting | Connected | Error

  datatype ChatState = ChatState(status: ConnectionStatus)

  const InitialState: ChatState := ChatState(Disconnected)

  /** The actions this slice declares a case reducer for. */
  predicate Handles(a: Action) {
    a.StartConnecting? || a.ConnectionEstablished? || a.ConnectionLost?
  }

  /** The status the case reducer of a handled action assigns; no reducer assigns `Error`. */
  function Target(a: Action): (t: ConnectionStatus)
    requires Handles(a)
    ensures t != Error
  {
    match a
    case StartConnecting => Connecting
    case ConnectionEstablished => Connected
    case ConnectionLost => Disconnected
  }

  /**
   * The slice reducer: a handled action overwrites the status whatever it was before,
   * any other action leaves the state as it is.
   */
  function Reduce(s: ChatState, a: Action): (r: ChatState)
    ensures Handles(a) ==> r == ChatState(Target(a))
    ensures !Handles(a) ==> r == s
  {
    if Handles(a) then s.(status := Target(a)) else s
  }

  /** The state after the store has run the reducer over `acts`, oldest first. */
  function ReduceAll(s: ChatState, acts: seq<Action>): ChatState
  {
    if acts == [] then s else Reduce(ReduceAll(s, acts[..|acts| - 1]), acts[|acts| - 1])
  }

  /** The status assigned by the most recent handled action in `acts`, if there is one. */
  function LastTarget(acts: seq<Action>): (t: Option<ConnectionStatus>)
    ensures t.Some? ==> t.value != Error
    ensures t.None? <==> forall i :: 0 <= i < |acts| ==> !Handles(acts[i])
  {
    if acts == [] then None
    else if Handles(acts[|acts| - 1]) then Some(Target(acts[|acts| - 1]))
    else LastTarget(acts[..|acts| - 1])
  }

  /** Only the most recent handled action matters: every case reducer is a constant assignment. */
  lemma {:induction false} LastWriteWins(s: ChatState, acts: seq<Action>)
    ensures ReduceAll(s, acts) == if LastTarget(acts).Some? then ChatState(LastTarget(acts).value) else s
  {
    if acts != [] {
      LastWriteWins(s, acts[..|acts| - 1]);
    }
  }

  lemma {:induction false} LastTargetAppend(xs: seq<Action>, ys: seq<Action>)
    ensures LastTarget(xs + ys) == if LastTarget(ys).Some? then LastTarget(ys) else LastTarget(xs)
  {
    if ys == [] {
      assert xs + ys == xs;
    } else {
      var n := |xs + ys|;
      assert (xs + ys)[n - 1] == ys[|ys| - 1];
      assert (xs + ys)[..n - 1] == xs + ys[..|ys| - 1];
      LastTargetAppend(xs, ys[..|ys| - 1]);
    }
  }

  /** A single case reducer applied twice has the effect of applying it once. */
  lemma ReduceIdempotent(s: ChatState, a: Action)
    ensures Reduce(Reduce(s, a), a) == Reduce(s, a)
  {
  }

  /** Replaying a whole run of actions a second time changes nothing. */
  lemma ReduceAllIdempotent(s: ChatState, acts: seq<Action>)
    ensures ReduceAll(s, acts + acts) == ReduceAll(s, acts)
  {
    LastWriteWins(s, acts + acts);
    LastWriteWins(s, acts);
    LastTargetAppend(acts, acts);
  }

  /** From a state other than `Error`, no sequence of actions reaches `Error`. */
  lemma {:induction false} NeverError(s: ChatState, acts: seq<Action>)
    requires s.status != Error
    ensures ReduceAll(s, acts).status != Error
  {
    LastWriteWins(s, acts);
  }

  /** The states reachable from the initial state are exactly those whose status is not `Error`. */
  lemma ReachableStates(st: ChatState)
    ensures (exists acts :: ReduceAll(InitialState, acts) == st) <==> st.status != Error
  {
    if st.status != Error {
      var acts: seq<Action> :=
        match st.status
        case Disconnected => []
        case Connecting => [StartConnecting]
        case Connected => [ConnectionEstablished]
        case Error => [];
      if acts != [] {
        assert acts[..|acts| - 1] == [];
      }
      assert ReduceAll(InitialState, acts) == st;
      assert exists a :: ReduceAll(InitialState, a) == st;
    } else {
      forall acts: seq<Action> ensures ReduceAll(InitialState, acts) != st {
        NeverError(InitialState, acts);
      }
    }
  }

  /** The slice's state as the store holds it, updated in place by its case reducers. */
  class Chat {
    var status: ConnectionStatus

    function State(): ChatState
      reads this
    {
      ChatState(status)
    }

    constructor ()
      ensures State() == InitialState
    {
      status := Disconnected;
    }

    method StartConnecting()
      modifies this
      ensures status == Connecting
    {
      status := Connecting;
    }

    method ConnectionEstablished()
      modifies this
      ensures status == Connected
    {
      status := Connected;
    }

    method ConnectionLost()
      modifies this
      ensures status == Disconnected
    {
      status := Disconnected;
    }

    /** The reducer `createSlice` builds: run the case reducer matching the action's type, if any. */
    method Apply(a: Action)
      modifies this
      ensures State() == Reduce(old(State()), a)
    {
      if a.StartConnecting? {
        StartConnecting();
      } else if a.ConnectionEstablished? {
        ConnectionEstablished();
      } else if a.ConnectionLost? {
        ConnectionLost();
      }
    }
  }
}
