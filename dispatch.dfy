/**
 * The window procedure's routing rule and the GetMessage loop as functions
 * on values. `W` is the window-instance type; the per-handle user-data slot
 * is a map from handle to instance, and the procedure's effects are the
 * quit flag and two logs: messages forwarded to an instance's handleMessage,
 * and messages given to DefWindowProc.
 */
module Dispatch {
  import opened Win

  datatype ProcState<W> = ProcState(
    userData: map<HWND, W>,
    quitPosted: bool,
    forwarded: seq<(W, Message)>,
    defaulted: seq<(HWND, Message)>)

  /**
   * One call of the window procedure. `created` is the instance carried in
   * the creation payload of WM_NCCREATE; the procedure dereferences it, so a
   * WM_NCCREATE must carry one.
   */
  function WndProcSpec<W>(s: ProcState<W>, hwnd: HWND, msg: Message, created: Option<W>,
                          handle: (W, Message) -> LRESULT, def: (HWND, Message) -> LRESULT)
    : (r: (ProcState<W>, LRESULT))
    requires msg.kind == WM_NCCREATE ==> created.Some?
    // Destroy: quit is posted, 0 is returned, nothing is forwarded or defaulted.
    ensures msg.kind == WM_DESTROY ==> r == (s.(quitPosted := true), 0)
    // Creation: the payload instance is bound to the handle and then handles the message.
    ensures msg.kind == WM_NCCREATE ==>
              r.0 == s.(userData := s.userData[hwnd := created.value],
                        forwarded := s.forwarded + [(created.value, msg)]) &&
              r.1 == handle(created.value, msg)
    // Anything else: exactly one of handleMessage (bound handle) and DefWindowProc (unbound).
    ensures msg.kind != WM_NCCREATE && msg.kind != WM_DESTROY ==>
              r.0.userData == s.userData && r.0.quitPosted == s.quitPosted &&
              if hwnd in s.userData then
                r.0.forwarded == s.forwarded + [(s.userData[hwnd], msg)] &&
                r.0.defaulted == s.defaulted && r.1 == handle(s.userData[hwnd], msg)
              else
                r.0.defaulted == s.defaulted + [(hwnd, msg)] &&
                r.0.forwarded == s.forwarded && r.1 == def(hwnd, msg)
  {
    var (bound, pThis) :=
      if msg.kind == WM_NCCREATE then
        (s.(userData := s.userData[hwnd := created.value]), created)
      else
        (s, if hwnd in s.userData then Some(s.userData[hwnd]) else None);
    if msg.kind == WM_DESTROY then
      (bound.(quitPosted := true), 0)
    else
      match pThis
      case Some(w) => (bound.(forwarded := bound.forwarded + [(w, msg)]), handle(w, msg))
      case None => (bound.(defaulted := bound.defaulted + [(hwnd, msg)]), def(hwnd, msg))
  }

  /** One GetMessage call: its return value and the message it fetched. */
  datatype Fetched = Fetched(result: int, hwnd: HWND, msg: Message)

  /** GetMessage eventually returns 0 (WM_QUIT) or -1 (error). */
  predicate Stops(inputs: seq<Fetched>)
  {
    exists j :: 0 <= j < |inputs| && inputs[j].result <= 0
  }

  /** Posted messages are never WM_NCCREATE, which CreateWindow sends directly. */
  predicate Posted(inputs: seq<Fetched>)
  {
    forall j :: 0 <= j < |inputs| ==> inputs[j].msg.kind != WM_NCCREATE
  }

  lemma StopsTail(inputs: seq<Fetched>)
    requires Stops(inputs) && inputs[0].result > 0
    ensures Stops(inputs[1..])
    ensures Posted(inputs) ==> Posted(inputs[1..])
  {
    var j :| 0 <= j < |inputs| && inputs[j].result <= 0;
    assert inputs[1..][j - 1] == inputs[j];
  }

  /**
   * The message loop: dispatch every fetched message until GetMessage
   * returns a value <= 0. The second component is the number of messages
   * dispatched, which is the index of that first non-positive result.
   */
  function Pump<W>(s: ProcState<W>, inputs: seq<Fetched>,
                   handle: (W, Message) -> LRESULT, def: (HWND, Message) -> LRESULT)
    : (r: (ProcState<W>, nat))
    requires Stops(inputs) && Posted(inputs)
    ensures r.1 < |inputs| && inputs[r.1].result <= 0
    ensures forall j :: 0 <= j < r.1 ==> inputs[j].result > 0
    ensures r.0.userData == s.userData
    decreases |inputs|
  {
    if inputs[0].result <= 0 then (s, 0)
    else
      StopsTail(inputs);
      var next := WndProcSpec(s, inputs[0].hwnd, inputs[0].msg, None, handle, def).0;
      var rest := Pump(next, inputs[1..], handle, def);
      (rest.0, rest.1 + 1)
  }

  /** A non-positive first GetMessage result ends the loop with nothing dispatched. */
  lemma PumpDone<W>(s: ProcState<W>, inputs: seq<Fetched>,
                    handle: (W, Message) -> LRESULT, def: (HWND, Message) -> LRESULT)
    requires Stops(inputs) && Posted(inputs) && inputs[0].result <= 0
    ensures Pump(s, inputs, handle, def) == (s, 0)
  {
  }

  /** One iteration of the loop: dispatch the first message, then loop on the rest. */
  lemma PumpStep<W>(s: ProcState<W>, inputs: seq<Fetched>,
                    handle: (W, Message) -> LRESULT, def: (HWND, Message) -> LRESULT)
    requires Stops(inputs) && Posted(inputs) && inputs[0].result > 0
    ensures Stops(inputs[1..]) && Posted(inputs[1..])
    ensures inputs[0].msg.kind != WM_NCCREATE
    ensures var rest := Pump(WndProcSpec(s, inputs[0].hwnd, inputs[0].msg, None, handle, def).0,
                             inputs[1..], handle, def);
      Pump(s, inputs, handle, def) == (rest.0, rest.1 + 1)
  {
    StopsTail(inputs);
  }

  /**
   * A bound window that receives a mouse move and then WM_DESTROY: the move
   * reaches its handleMessage, the destroy posts quit, and the loop ends at
   * the WM_QUIT that follows.
   */
  lemma MoveThenDestroy<W>(s: ProcState<W>, h: HWND, move: Message,
                           handle: (W, Message) -> LRESULT, def: (HWND, Message) -> LRESULT)
    requires h in s.userData && move.kind == WM_MOUSEMOVE
    ensures var inputs := [Fetched(1, h, move), Fetched(1, h, Message(WM_DESTROY, 0, 0)), Fetched(0, h, Message(WM_QUIT, 0, 0))];
      Stops(inputs) && Posted(inputs) &&
      Pump(s, inputs, handle, def) ==
        (s.(quitPosted := true, forwarded := s.forwarded + [(s.userData[h], move)]), 2)
  {
    var inputs := [Fetched(1, h, move), Fetched(1, h, Message(WM_DESTROY, 0, 0)), Fetched(0, h, Message(WM_QUIT, 0, 0))];
    assert inputs[2].result <= 0;
    PumpStep(s, inputs, handle, def);
    var s1 := WndProcSpec(s, h, move, None, handle, def).0;
    PumpStep(s1, inputs[1..], handle, def);
    var s2 := WndProcSpec(s1, h, Message(WM_DESTROY, 0, 0), None, handle, def).0;
    assert inputs[1..][1..] == [inputs[2]];
    PumpDone(s2, inputs[1..][1..], handle, def);
  }

  function DestroyCount(inputs: seq<Fetched>): nat
  {
    if inputs == [] then 0
    else (if inputs[0].msg.kind == WM_DESTROY then 1 else 0) + DestroyCount(inputs[1..])
  }

  predicate NeverForwardsDestroy<W>(s: ProcState<W>)
  {
    forall k :: 0 <= k < |s.forwarded| ==> s.forwarded[k].1.kind != WM_DESTROY
  }

  /** The loop posts quit exactly when it dispatches a WM_DESTROY (or quit was already posted). */
  lemma {:induction false} PumpPostsQuit<W>(s: ProcState<W>, inputs: seq<Fetched>,
                                           handle: (W, Message) -> LRESULT,
                                           def: (HWND, Message) -> LRESULT)
    requires Stops(inputs) && Posted(inputs)
    ensures var r := Pump(s, inputs, handle, def);
      r.0.quitPosted <==>
        s.quitPosted || exists j :: 0 <= j < r.1 && inputs[j].msg.kind == WM_DESTROY
    decreases |inputs|
  {
    if inputs[0].result > 0 {
      StopsTail(inputs);
      var next := WndProcSpec(s, inputs[0].hwnd, inputs[0].msg, None, handle, def).0;
      PumpPostsQuit(next, inputs[1..], handle, def);
      var r := Pump(s, inputs, handle, def);
      assert next.quitPosted <==> s.quitPosted || inputs[0].msg.kind == WM_DESTROY;
      assert forall j :: 1 <= j < r.1 ==> inputs[1..][j - 1] == inputs[j];
      if exists j :: 0 <= j < r.1 && inputs[j].msg.kind == WM_DESTROY {
        var j :| 0 <= j < r.1 && inputs[j].msg.kind == WM_DESTROY;
        if j > 0 {
          assert inputs[1..][j - 1].msg.kind == WM_DESTROY;
        }
      }
    }
  }

  /**
   * The messages a window procedure with fixed bindings `userData` hands to
   * handleMessage, in order: every message that is not WM_DESTROY and whose
   * handle is bound, paired with the bound instance.
   */
  function Fwd<W>(userData: map<HWND, W>, inputs: seq<Fetched>): seq<(W, Message)>
    decreases |inputs|
  {
    if inputs == [] then []
    else
      var f := inputs[0];
      (if f.msg.kind != WM_DESTROY && f.hwnd in userData then [(userData[f.hwnd], f.msg)] else [])
        + Fwd(userData, inputs[1..])
  }

  /** The messages handed to DefWindowProc, in order: every non-WM_DESTROY message of an unbound handle. */
  function Dflt<W>(userData: map<HWND, W>, inputs: seq<Fetched>): seq<(HWND, Message)>
    decreases |inputs|
  {
    if inputs == [] then []
    else
      var f := inputs[0];
      (if f.msg.kind != WM_DESTROY && f.hwnd !in userData then [(f.hwnd, f.msg)] else [])
        + Dflt(userData, inputs[1..])
  }

  /** Each message is a WM_DESTROY, or in exactly one of `Fwd` and `Dflt`. */
  lemma {:induction false} RoutesPartition<W>(userData: map<HWND, W>, inputs: seq<Fetched>)
    ensures |Fwd(userData, inputs)| + |Dflt(userData, inputs)| + DestroyCount(inputs) == |inputs|
    decreases |inputs|
  {
    if inputs != [] {
      RoutesPartition(userData, inputs[1..]);
    }
  }

  /** On the first `n` messages, `Fwd` and `Dflt` take the first one, then the first `n - 1` of the rest. */
  lemma FiltersPrefix<W>(userData: map<HWND, W>, inputs: seq<Fetched>, n: nat)
    requires 0 < n <= |inputs|
    ensures Fwd(userData, inputs[..n]) == Fwd(userData, [inputs[0]]) + Fwd(userData, inputs[1..][..n - 1])
    ensures Dflt(userData, inputs[..n]) == Dflt(userData, [inputs[0]]) + Dflt(userData, inputs[1..][..n - 1])
  {
    var taken := inputs[..n];
    assert taken[0] == inputs[0] && taken[1..] == inputs[1..][..n - 1];
    assert [inputs[0]][1..] == [];
  }

  /** One dispatch of a non-WM_NCCREATE message appends `Fwd` and `Dflt` of that message. */
  lemma DispatchLogs<W>(s: ProcState<W>, f: Fetched,
                        handle: (W, Message) -> LRESULT, def: (HWND, Message) -> LRESULT)
    requires f.msg.kind != WM_NCCREATE
    ensures var next := WndProcSpec(s, f.hwnd, f.msg, None, handle, def).0;
      next.userData == s.userData &&
      next.forwarded == s.forwarded + Fwd(s.userData, [f]) &&
      next.defaulted == s.defaulted + Dflt(s.userData, [f])
  {
    assert [f][1..] == [];
  }

  /** The loop's handleMessage log grows by `Fwd` of the dispatched messages. */
  lemma {:induction false} PumpForwardLog<W>(s: ProcState<W>, inputs: seq<Fetched>,
                                            handle: (W, Message) -> LRESULT,
                                            def: (HWND, Message) -> LRESULT)
    requires Stops(inputs) && Posted(inputs)
    ensures var r := Pump(s, inputs, handle, def);
      r.0.forwarded == s.forwarded + Fwd(s.userData, inputs[..r.1])
    decreases |inputs|
  {
    var r := Pump(s, inputs, handle, def);
    if inputs[0].result > 0 {
      PumpStep(s, inputs, handle, def);
      var next := WndProcSpec(s, inputs[0].hwnd, inputs[0].msg, None, handle, def).0;
      var rest := Pump(next, inputs[1..], handle, def);
      DispatchLogs(s, inputs[0], handle, def);
      PumpForwardLog(next, inputs[1..], handle, def);
      FiltersPrefix(s.userData, inputs, r.1);
      var head := Fwd(s.userData, [inputs[0]]);
      var tail := Fwd(s.userData, inputs[1..][..rest.1]);
      assert r == (rest.0, rest.1 + 1);
      assert next.forwarded == s.forwarded + head;
      assert rest.0.forwarded == (s.forwarded + head) + tail;
      assert r.0.forwarded == s.forwarded + (head + tail);
    } else {
      PumpDone(s, inputs, handle, def);
      assert inputs[..r.1] == [];
    }
  }

  /** The loop's DefWindowProc log grows by `Dflt` of the dispatched messages. */
  lemma {:induction false} PumpDefaultLog<W>(s: ProcState<W>, inputs: seq<Fetched>,
                                            handle: (W, Message) -> LRESULT,
                                            def: (HWND, Message) -> LRESULT)
    requires Stops(inputs) && Posted(inputs)
    ensures var r := Pump(s, inputs, handle, def);
      r.0.defaulted == s.defaulted + Dflt(s.userData, inputs[..r.1])
    decreases |inputs|
  {
    var r := Pump(s, inputs, handle, def);
    if inputs[0].result > 0 {
      PumpStep(s, inputs, handle, def);
      var next := WndProcSpec(s, inputs[0].hwnd, inputs[0].msg, None, handle, def).0;
      var rest := Pump(next, inputs[1..], handle, def);
      DispatchLogs(s, inputs[0], handle, def);
      PumpDefaultLog(next, inputs[1..], handle, def);
      FiltersPrefix(s.userData, inputs, r.1);
      var head := Dflt(s.userData, [inputs[0]]);
      var tail := Dflt(s.userData, inputs[1..][..rest.1]);
      assert r == (rest.0, rest.1 + 1);
      assert next.defaulted == s.defaulted + head;
      assert rest.0.defaulted == (s.defaulted + head) + tail;
      assert r.0.defaulted == s.defaulted + (head + tail);
    } else {
      PumpDone(s, inputs, handle, def);
      assert inputs[..r.1] == [];
    }
  }

  /** `Fwd` never yields a WM_DESTROY. */
  lemma {:induction false} FwdNeverDestroy<W>(userData: map<HWND, W>, inputs: seq<Fetched>)
    ensures forall k :: 0 <= k < |Fwd(userData, inputs)| ==> Fwd(userData, inputs)[k].1.kind != WM_DESTROY
    decreases |inputs|
  {
    if inputs != [] {
      FwdNeverDestroy(userData, inputs[1..]);
    }
  }

  /** No WM_DESTROY the loop dispatches ever reaches an instance's handleMessage. */
  lemma PumpNeverForwardsDestroy<W>(s: ProcState<W>, inputs: seq<Fetched>,
                                    handle: (W, Message) -> LRESULT,
                                    def: (HWND, Message) -> LRESULT)
    requires Stops(inputs) && Posted(inputs)
    requires NeverForwardsDestroy(s)
    ensures NeverForwardsDestroy(Pump(s, inputs, handle, def).0)
  {
    var r := Pump(s, inputs, handle, def);
    PumpForwardLog(s, inputs, handle, def);
    var added := Fwd(s.userData, inputs[..r.1]);
    FwdNeverDestroy(s.userData, inputs[..r.1]);
    assert forall k :: |s.forwarded| <= k < |r.0.forwarded| ==>
      r.0.forwarded[k] == added[k - |s.forwarded|];
  }

  /**
   * Every dispatched message is handled exactly once and by its own route: a
   * WM_DESTROY by posting quit, a message of a bound handle by that instance's
   * handleMessage, any other by DefWindowProc, in the order they were fetched.
   */
  lemma PumpRoutesEachMessageOnce<W>(s: ProcState<W>, inputs: seq<Fetched>,
                                     handle: (W, Message) -> LRESULT,
                                     def: (HWND, Message) -> LRESULT)
    requires Stops(inputs) && Posted(inputs)
    ensures var r := Pump(s, inputs, handle, def);
      r.0.forwarded == s.forwarded + Fwd(s.userData, inputs[..r.1]) &&
      r.0.defaulted == s.defaulted + Dflt(s.userData, inputs[..r.1]) &&
      |r.0.forwarded| + |r.0.defaulted| + DestroyCount(inputs[..r.1]) ==
        |s.forwarded| + |s.defaulted| + r.1
  {
    var r := Pump(s, inputs, handle, def);
    PumpForwardLog(s, inputs, handle, def);
    PumpDefaultLog(s, inputs, handle, def);
    RoutesPartition(s.userData, inputs[..r.1]);
  }
}
