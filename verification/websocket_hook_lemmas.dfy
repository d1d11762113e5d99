/** What runs of the connection hook do: the status and last message of the
    source's hook, teardown, and the stale-socket race with its correction. */
module WebSocketHookLemmas {
  import opened Wrappers
  import opened WebSocketHook

  predicate NoUnmount<M>(evs: seq<Event<M>>)
  {
    forall i :: 0 <= i < |evs| ==> !evs[i].Unmount?
  }

  /** While mounted, the status is the one named by the last lifecycle callback
      (initially `Disconnected`) and the last message is the value of the last
      frame that decoded (initially none). */
  lemma {:induction false} RunAsWrittenFollowsCallbacks<M>(h: Hook<M>, evs: seq<Event<M>>, decode: string -> Option<M>)
    requires h.mounted && NoUnmount(evs)
    ensures RunAsWritten(h, evs, decode).mounted
    ensures RunAsWritten(h, evs, decode).status == StatusAfter(evs, h.status)
    ensures RunAsWritten(h, evs, decode).lastMessage == MessageAfter(evs, decode, h.lastMessage)
    decreases |evs|
  {
    if |evs| > 0 {
      var init := evs[..|evs| - 1];
      assert NoUnmount(init) by {
        forall i | 0 <= i < |init| ensures !init[i].Unmount? {
          assert init[i] == evs[i];
        }
      }
      RunAsWrittenFollowsCallbacks(h, init, decode);
    }
  }

  /** From the initial hook: disconnected and no message until a callback says otherwise. */
  lemma InitialFollowsCallbacks<M>(evs: seq<Event<M>>, decode: string -> Option<M>)
    requires NoUnmount(evs)
    ensures RunAsWritten(Initial(), evs, decode).status == StatusAfter(evs, Disconnected)
    ensures RunAsWritten(Initial(), evs, decode).lastMessage == MessageAfter(evs, decode, None)
  {
    RunAsWrittenFollowsCallbacks(Initial(), evs, decode);
  }

  /** Nothing changes the state of an unmounted hook, in either version. */
  lemma {:induction false} NothingAfterUnmount<M>(h: Hook<M>, evs: seq<Event<M>>, decode: string -> Option<M>)
    requires !h.mounted
    ensures RunAsWritten(h, evs, decode) == h
    ensures Run(h, evs, decode) == h
    decreases |evs|
  {
    if |evs| > 0 {
      NothingAfterUnmount(h, evs[..|evs| - 1], decode);
    }
  }

  /** Teardown closes the socket, so a later `sendMessage` sends nothing. */
  lemma NoSendAfterUnmount<M>(h: Hook<M>, message: M, encode: M -> string, decode: string -> Option<M>)
    requires h.mounted
    ensures var r := StepAsWritten(h, Unmount, decode);
      && !r.mounted
      && (r.ws.Some? ==> r.ws.value.readyState in {Closing, Closed})
      && Outgoing(r, Send(message), encode).None?
  {
  }

  /** The source as written: after the url changes, the old socket's late `close`
      marks the hook disconnected while the new socket is open. The guarded hook
      stays connected on the same events. */
  lemma StaleCloseAsWritten<M>(decode: string -> Option<M>)
    ensures var evs: seq<Event<M>> := [Activate("a"), OnOpen(0), Activate("b"), OnOpen(1), OnClose(0)];
      var r := RunAsWritten(Initial(), evs, decode);
      && r.ws == Some(Socket(1, Open))
      && r.status == Disconnected
      && !Consistent(r)
      && Run(Initial(), evs, decode).status == Connected
  {
    var evs: seq<Event<M>> := [Activate("a"), OnOpen(0), Activate("b"), OnOpen(1), OnClose(0)];
    var h0 := Initial<M>();
    var h1 := StepAsWritten(h0, evs[0], decode);
    var h2 := StepAsWritten(h1, evs[1], decode);
    var h3 := StepAsWritten(h2, evs[2], decode);
    var h4 := StepAsWritten(h3, evs[3], decode);
    assert evs[..1] == [evs[0]] && evs[..2] == evs[..1] + [evs[1]];
    assert evs[..3] == evs[..2] + [evs[2]] && evs[..4] == evs[..3] + [evs[3]];
    assert RunAsWritten(h0, evs[..1], decode) == h1 == Run(h0, evs[..1], decode);
    assert RunAsWritten(h0, evs[..2], decode) == h2 == Run(h0, evs[..2], decode);
    assert RunAsWritten(h0, evs[..3], decode) == h3 == Run(h0, evs[..3], decode);
    assert RunAsWritten(h0, evs[..4], decode) == h4 == Run(h0, evs[..4], decode);
    assert evs[..5] == evs;
  }

  /** The guarded hook keeps its invariant on every event. */
  lemma StepKeepsConsistent<M>(h: Hook<M>, ev: Event<M>, decode: string -> Option<M>)
    requires Consistent(h)
    ensures Consistent(Step(h, ev, decode))
  {
  }

  /** Every run of the guarded hook from a consistent state stays consistent. */
  lemma {:induction false} RunKeepsConsistent<M>(h: Hook<M>, evs: seq<Event<M>>, decode: string -> Option<M>)
    requires Consistent(h)
    ensures Consistent(Run(h, evs, decode))
    decreases |evs|
  {
    if |evs| > 0 {
      RunKeepsConsistent(h, evs[..|evs| - 1], decode);
      StepKeepsConsistent(Run(h, evs[..|evs| - 1], decode), evs[|evs| - 1], decode);
    }
  }

  /** Every run of the guarded hook from its initial state is consistent. */
  lemma InitialConsistent<M>(evs: seq<Event<M>>, decode: string -> Option<M>)
    ensures Consistent(Run(Initial(), evs, decode))
  {
    RunKeepsConsistent(Initial(), evs, decode);
  }
}
