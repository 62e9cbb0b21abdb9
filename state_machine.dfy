/**
 * The game-mode state machine of src/util/state.c (`fsm_*`) and of its
 * older twin src/state.c (the same bodies under unprefixed names): a table
 * of optional enter/tick/render/exit callbacks, a current-state index and a
 * shared game-state pointer handed to every callback.
 *
 * A callback slot is modelled by whether it is set; what a callback does is
 * not modelled, only that it is called, with which state and arguments, in
 * which order: every invocation is appended to the ghost `trace`. The value a
 * render callback returns is an input of RenderState.
 */
module StateMachine {
  import opened CTypes

  /** Opaque address of the shared game state (`void *`); NULL is None. */
  type Handle = nat

  /** state_interface_t: which of the four callbacks are set. */
  datatype Iface = Iface(enter: bool, tick: bool, render: bool, exit: bool)

  /** A slot of the calloc'd table: every callback pointer NULL. */
  const NO_CALLBACKS := Iface(false, false, false, false)

  /** The (game_state, game_state_size) pair passed to every callback. */
  datatype Ctx = Ctx(gameState: Option<Handle>, size: usize)

  /** One callback invocation: the callback, the state index used, its arguments. */
  datatype Event =
    | Entered(state: int, ctx: Ctx)
    | Ticked(state: int, ctx: Ctx, dt: real)
    | Rendered(state: int, ctx: Ctx)
    | Exited(state: int, ctx: Ctx)

  /**
   * The callbacks a valid change of state from `from` to `to` fires: the old
   * state's exit (when set), strictly before the new state's enter (when set).
   */
  function ChangeEvents(table: seq<Iface>, from: nat, to: nat, ctx: Ctx): (r: seq<Event>)
    requires from < |table| && to < |table|
    ensures Exited(from, ctx) in r <==> table[from].exit
    ensures Entered(to, ctx) in r <==> table[to].enter
    ensures |r| == (if table[from].exit then 1 else 0) + (if table[to].enter then 1 else 0)
    ensures table[from].exit && table[to].enter ==> r == [Exited(from, ctx), Entered(to, ctx)]
    ensures forall e :: e in r ==> e == Exited(from, ctx) || e == Entered(to, ctx)
  {
    (if table[from].exit then [Exited(from, ctx)] else [])
    + (if table[to].enter then [Entered(to, ctx)] else [])
  }

  /** The callbacks fired by successive valid changes of state to `targets`. */
  function Transitions(table: seq<Iface>, from: nat, targets: seq<nat>, ctx: Ctx): seq<Event>
    requires from < |table| && forall k :: 0 <= k < |targets| ==> targets[k] < |table|
    decreases |targets|
  {
    if |targets| == 0 then []
    else ChangeEvents(table, from, targets[0], ctx) + Transitions(table, targets[0], targets[1..], ctx)
  }

  /** The state a run of changes starting in `from` is in before change `k`. */
  function Before(from: nat, targets: seq<nat>, k: nat): nat
    requires k <= |targets|
  {
    if k == 0 then from else targets[k - 1]
  }

  predicate AllSet(table: seq<Iface>) {
    forall s :: 0 <= s < |table| ==> table[s].enter && table[s].exit
  }

  /**
   * With every enter and exit callback set, a run of changes fires exit and
   * enter alternately: change k exits the state it leaves, then enters its target.
   */
  lemma {:induction false} TransitionsAlternate(table: seq<Iface>, from: nat, targets: seq<nat>, ctx: Ctx)
    requires from < |table| && forall k :: 0 <= k < |targets| ==> targets[k] < |table|
    requires AllSet(table)
    decreases |targets|
    ensures |Transitions(table, from, targets, ctx)| == 2 * |targets|
    ensures forall k :: 0 <= k < |targets| ==>
      Transitions(table, from, targets, ctx)[2 * k] == Exited(Before(from, targets, k), ctx)
      && Transitions(table, from, targets, ctx)[2 * k + 1] == Entered(targets[k], ctx)
  {
    if |targets| > 0 {
      var rest := targets[1..];
      TransitionsAlternate(table, targets[0], rest, ctx);
      var r := Transitions(table, from, targets, ctx);
      var tail := Transitions(table, targets[0], rest, ctx);
      assert r == [Exited(from, ctx), Entered(targets[0], ctx)] + tail;
      forall k | 0 <= k < |targets|
        ensures r[2 * k] == Exited(Before(from, targets, k), ctx)
        ensures r[2 * k + 1] == Entered(targets[k], ctx)
      {
        if k > 0 {
          assert r[2 * k] == tail[2 * (k - 1)];
          assert r[2 * k + 1] == tail[2 * (k - 1) + 1];
          assert Before(targets[0], rest, k - 1) == Before(from, targets, k);
          assert rest[k - 1] == targets[k];
        }
      }
    }
  }

  /** Every event of a run names the state it was fired for, all in range. */
  lemma {:induction false} TransitionsInRange(table: seq<Iface>, from: nat, targets: seq<nat>, ctx: Ctx)
    requires from < |table| && forall k :: 0 <= k < |targets| ==> targets[k] < |table|
    ensures forall e :: e in Transitions(table, from, targets, ctx) ==>
      (e.Exited? || e.Entered?) && 0 <= e.state < |table| && e.ctx == ctx
    decreases |targets|
  {
    if |targets| > 0 {
      TransitionsInRange(table, targets[0], targets[1..], ctx);
    }
  }

  /** How many enter callbacks a trace records. */
  function CountEntered(trace: seq<Event>): nat {
    if |trace| == 0 then 0
    else CountEntered(trace[..|trace| - 1]) + (if trace[|trace| - 1].Entered? then 1 else 0)
  }

  /** How many exit callbacks a trace records. */
  function CountExited(trace: seq<Event>): nat {
    if |trace| == 0 then 0
    else CountExited(trace[..|trace| - 1]) + (if trace[|trace| - 1].Exited? then 1 else 0)
  }

  lemma {:induction false} CountsAppend(a: seq<Event>, b: seq<Event>)
    ensures CountEntered(a + b) == CountEntered(a) + CountEntered(b)
    ensures CountExited(a + b) == CountExited(a) + CountExited(b)
  {
    if |b| == 0 {
      assert a + b == a;
    } else {
      assert (a + b)[..|a + b| - 1] == a + b[..|b| - 1];
      CountsAppend(a, b[..|b| - 1]);
    }
  }

  /** With every callback set, a run fires exactly one enter and one exit per change. */
  lemma {:induction false} TransitionsBalanced(table: seq<Iface>, from: nat, targets: seq<nat>, ctx: Ctx)
    requires from < |table| && forall k :: 0 <= k < |targets| ==> targets[k] < |table|
    requires AllSet(table)
    ensures CountEntered(Transitions(table, from, targets, ctx)) == |targets|
    ensures CountExited(Transitions(table, from, targets, ctx)) == |targets|
    decreases |targets|
  {
    if |targets| > 0 {
      TransitionsBalanced(table, targets[0], targets[1..], ctx);
      var one := [Exited(from, ctx)];
      var pair := one + [Entered(targets[0], ctx)];
      assert ChangeEvents(table, from, targets[0], ctx) == pair;
      assert one[..|one| - 1] == [] && one[|one| - 1].Exited?;
      assert CountEntered(one) == 0 && CountExited(one) == 1;
      assert pair[..|pair| - 1] == one && pair[|pair| - 1].Entered?;
      assert CountEntered(pair) == 1 && CountExited(pair) == 1;
      CountsAppend(pair, Transitions(table, targets[0], targets[1..], ctx));
    }
  }

  /** state_machine_t. */
  class Machine {
    /** The calloc'd callback table; null after free. */
    var states: array?<Iface>
    var numStates: uint32
    var gameState: Option<Handle>
    var gameStateSize: usize
    var defaultState: int32
    var currentState: int32
    /** Every callback invoked so far, in order. */
    ghost var trace: seq<Event>

    ghost predicate Valid()
      reads this
    {
      if states == null then numStates == 0 else states.Length == numStates
    }

    function Context(): Ctx
      reads this
    {
      Ctx(gameState, gameStateSize)
    }

    /**
     * init: both indices take `defaultState` (converted to `int`, unchecked
     * against `numStates`), every slot is empty, no game state.
     */
    constructor Init(defaultState: uint32, numStates: uint32)
      ensures Valid() && fresh(states) && states != null
      ensures this.numStates == numStates
      ensures this.defaultState == Wrap32(defaultState) && currentState == Wrap32(defaultState)
      ensures forall s :: 0 <= s < states.Length ==> states[s] == NO_CALLBACKS
      ensures gameState == None && gameStateSize == 0
      ensures trace == []
    {
      this.defaultState := Wrap32(defaultState);
      currentState := Wrap32(defaultState);
      states := new Iface[numStates](_ => NO_CALLBACKS);
      this.numStates := numStates;
      gameState := None;
      gameStateSize := 0;
      trace := [];
    }

    /**
     * start: enter the current state. The range check converts the index to
     * `unsigned` but the table is indexed with the signed value, so a
     * negative index that passes the check (only possible with more than 2^31
     * states) would read before the table.
     */
    method Start() returns (r: int32)
      requires Valid()
      requires ToUnsigned32(currentState) < numStates ==> 0 <= currentState
      modifies this`trace
      ensures var go := ToUnsigned32(currentState) < numStates && states[currentState].enter;
        && (go ==> r == 1 && trace == old(trace) + [Entered(currentState, Context())])
        && (!go ==> r == -1 && trace == old(trace))
    {
      if ToUnsigned32(currentState) < numStates && states[currentState].enter {
        trace := trace + [Entered(currentState, Context())];
        return 1;
      }
      return -1;
    }

    /** free: drop the table and forget the game state; the indices stay. */
    method Free()
      modifies this
      ensures Valid() && states == null && numStates == 0
      ensures gameState == None && gameStateSize == 0
      ensures currentState == old(currentState) && defaultState == old(defaultState)
      ensures trace == old(trace)
    {
      states := null;
      numStates := 0;
      gameState := None;
      gameStateSize := 0;
    }

    /** set_state_interface: a NULL interface or an out-of-range slot is refused. */
    method SetStateInterface(state: uint32, iface: Option<Iface>) returns (r: int32)
      requires Valid()
      modifies states
      ensures iface.None? || state >= numStates ==> r == -1
      ensures (iface.None? || state >= numStates) && states != null ==> states[..] == old(states[..])
      ensures iface.Some? && state < numStates ==>
        r == 1 && states[..] == old(states[..])[state := iface.value]
    {
      if iface.None? {
        return -1;
      }
      if state >= numStates {
        return -1;
      }
      states[state] := iface.value;
      return 1;
    }

    /** update_internal_state: a NULL pointer is refused, otherwise both are stored. */
    method UpdateInternalState(state: Option<Handle>, size: usize) returns (r: int32)
      modifies this`gameState, this`gameStateSize
      ensures state.None? ==> r == -1 && gameState == old(gameState) && gameStateSize == old(gameStateSize)
      ensures state.Some? ==> r == 1 && gameState == state && gameStateSize == size
    {
      if state.None? {
        return -1;
      }
      gameState := state;
      gameStateSize := size;
      return 1;
    }

    /**
     * change_state: an out-of-range target is refused; otherwise the current
     * state's exit runs, the index moves (converted to `int`), and the new
     * state's enter runs. The current index itself is not checked, so the
     * caller must keep it in range; a target of 2^31 or more would become a
     * negative index.
     */
    method ChangeState(newState: uint32) returns (r: int32)
      requires Valid()
      requires newState < numStates ==> 0 <= currentState < numStates as int && newState < TWO_31
      modifies this`currentState, this`trace
      ensures newState >= numStates ==>
        r == -1 && currentState == old(currentState) && trace == old(trace)
      ensures newState < numStates ==>
        && r == 1 && currentState == newState
        && trace == old(trace) + ChangeEvents(states[..], old(currentState), newState, Context())
    {
      if newState >= numStates {
        return -1;
      }
      if states[currentState].exit {
        trace := trace + [Exited(currentState, Context())];
      }
      currentState := newState;
      if states[currentState].enter {
        trace := trace + [Entered(currentState, Context())];
      }
      return 1;
    }

    /**
     * Two successful changes in a row, as when a game passes through a
     * mode on its way to another: the trace gains exactly the callbacks
     * `Transitions` gives for the run to `a` and then `b`.
     */
    method ChangeTwice(a: uint32, b: uint32) returns (r1: int32, r2: int32)
      requires Valid() && 0 <= currentState < numStates as int
      requires a < numStates && b < numStates && a < TWO_31 && b < TWO_31
      modifies this`currentState, this`trace
      ensures r1 == 1 && r2 == 1 && currentState == b
      ensures trace == old(trace) + Transitions(states[..], old(currentState) as nat, [a as nat, b as nat], Context())
    {
      ghost var from := currentState as nat;
      r1 := ChangeState(a);
      r2 := ChangeState(b);
      ghost var targets := [a as nat, b as nat];
      ghost var table, ctx := states[..], Context();
      assert targets[1..] == [b as nat] && [b as nat][1..] == [];
      ghost var second := ChangeEvents(table, a as nat, b as nat, ctx);
      assert Transitions(table, a as nat, [b as nat], ctx) == second + [] == second;
      assert Transitions(table, from, targets, ctx) == ChangeEvents(table, from, a as nat, ctx) + second;
    }

    /** get_state: the current index. */
    method GetState() returns (r: int32)
      ensures r == currentState
    {
      return currentState;
    }

    /** tick_state: run the current state's tick callback, when set, with `dt`. */
    method TickState(dt: real)
      requires Valid() && 0 <= currentState < numStates as int
      modifies this`trace
      ensures states[currentState].tick ==> trace == old(trace) + [Ticked(currentState, Context(), dt)]
      ensures !states[currentState].tick ==> trace == old(trace)
    {
      if states[currentState].tick {
        trace := trace + [Ticked(currentState, Context(), dt)];
      }
    }

    /**
     * render_state: the triangle count the current state's render callback
     * returns (`reported`), or 0 when the slot has no render callback.
     */
    method RenderState(reported: int32) returns (r: int32)
      requires Valid() && 0 <= currentState < numStates as int
      modifies this`trace
      ensures states[currentState].render ==>
        r == reported && trace == old(trace) + [Rendered(currentState, Context())]
      ensures !states[currentState].render ==> r == 0 && trace == old(trace)
    {
      if states[currentState].render {
        trace := trace + [Rendered(currentState, Context())];
        return reported;
      }
      return 0;
    }
  }
}
