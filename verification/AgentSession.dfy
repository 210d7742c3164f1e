/**
 The critical sections of an AgentSession, in place
 (internal/agentsession/session.go, internal/agentsession/readpump.go).
 Each method is one section of asMu, or one store made outside it, and is
 proved equal to the section PromptProtocol or CloseRace composes into runs.
 */
module AgentSessions {
  import P = PromptProtocol
  import C = CloseRace

  class AgentSession {
    var prompts: map<nat, P.Prompt>
    var currentPrompt: P.Option<nat>
    var replyToOverride: string
    var isReady: bool
    var published: seq<P.Anchored>
    var handle: C.Option<C.Handle>
    var stat: C.Status
    var closedByUser: bool

    ghost function Prompts(): P.Session
      reads this
    {
      P.Session(prompts, currentPrompt, replyToOverride, isReady, published)
    }

    ghost function Bridge(): C.Session
      reads this
    {
      C.Session(handle, stat, closedByUser)
    }

    ghost predicate Valid()
      reads this
    {
      P.WellFormed(Prompts()) && P.OverrideIsInjected(Prompts())
    }

    // ----- Submit -----

    method CommitSubmit(p: nat)
      requires Valid() && p in prompts
      modifies this`currentPrompt, this`replyToOverride
      ensures Valid() && Prompts() == P.Install(old(Prompts()), p)
      ensures currentPrompt == P.Some(p) && replyToOverride == ""
    {
      currentPrompt := P.Some(p);
      replyToOverride := "";
    }

    method StoreReady(ready: bool)
      requires Valid()
      modifies this`isReady
      ensures Valid() && Prompts() == P.MarkReady(old(Prompts()), ready)
      ensures isReady == ready
    {
      isReady := ready;
    }

    method RollBackSubmit(p: nat)
      requires Valid() && p in prompts && !prompts[p].injected
      modifies this`currentPrompt
      ensures Valid() && Prompts() == P.DropSubmitted(old(Prompts()), p)
      ensures currentPrompt == if old(currentPrompt) == P.Some(p) then P.None else old(currentPrompt)
    {
      if currentPrompt == P.Some(p) {
        currentPrompt := P.None;
      }
    }

    // ----- SendBlocks(WithReplyTo) -----

    method GuardInjection() returns (refused: bool)
      ensures refused == P.TurnInFlight(Prompts())
      ensures refused <==> currentPrompt != P.None && !isReady
    {
      refused := currentPrompt.Some? && !isReady;
    }

    method InstallInjected(p: nat, replyTo: string)
      requires Valid() && p !in prompts && replyTo != ""
      modifies this`prompts, this`currentPrompt, this`replyToOverride
      ensures Valid() && Prompts() == P.InstallInjected(old(Prompts()), p, replyTo)
      ensures currentPrompt == P.Some(p) && replyToOverride == replyTo
      ensures prompts == old(prompts)[p := P.Prompt(true, replyTo)]
    {
      prompts := prompts[p := P.Prompt(true, replyTo)];
      replyToOverride := replyTo;
      currentPrompt := P.Some(p);
    }

    method RollBackInjected(p: nat)
      requires Valid() && p in prompts
      requires currentPrompt == P.Some(p) ==> prompts[p].injected
      modifies this`currentPrompt, this`isReady, this`replyToOverride
      ensures Valid() && Prompts() == P.RollbackInjected(old(Prompts()), p)
      ensures currentPrompt == if old(currentPrompt) == P.Some(p) then P.None else old(currentPrompt)
      ensures isReady <==> old(isReady) || old(currentPrompt) == P.Some(p)
      ensures replyToOverride == if old(replyToOverride) == prompts[p].lastMessageID then "" else old(replyToOverride)
    {
      if currentPrompt == P.Some(p) {
        currentPrompt := P.None;
        isReady := true;
      }
      if replyToOverride == prompts[p].lastMessageID {
        replyToOverride := "";
      }
    }

    // ----- the read pump -----

    /** One event read off the bridge, with its anchor. */
    method Enrich()
      requires Valid()
      modifies this`published
      ensures Valid() && Prompts() == P.Enrich(old(Prompts()))
      ensures currentPrompt == P.None ==> published == old(published) + [P.Anchored("", P.None)]
      ensures currentPrompt != P.None ==>
        var p := currentPrompt.value;
        p in prompts && published == old(published) + [P.Anchored(prompts[p].lastMessageID, P.Some(p))]
    {
      var userMsgID := "";
      if currentPrompt.Some? {
        userMsgID := prompts[currentPrompt.value].lastMessageID;
      }
      if replyToOverride != "" {
        userMsgID := replyToOverride;
      }
      published := published + [P.Anchored(userMsgID, currentPrompt)];
    }

    method EndPrompt()
      requires Valid()
      modifies this`prompts, this`currentPrompt, this`replyToOverride, this`isReady, this`published
      ensures Valid() && Prompts() == P.EndPrompt(old(Prompts()))
      ensures prompts == old(prompts) && currentPrompt == P.None && replyToOverride == "" && isReady
      ensures old(currentPrompt) == P.None ==> published == old(published) + [P.Anchored("", P.None)]
      ensures old(currentPrompt) != P.None ==>
        var p := old(currentPrompt).value;
        p in prompts && published == old(published) + [P.Anchored(prompts[p].lastMessageID, P.Some(p))]
    {
      var userMsgID := replyToOverride;
      if currentPrompt.Some? {
        var p := currentPrompt.value;
        if userMsgID == "" {
          userMsgID := prompts[p].lastMessageID;
        } else {
          prompts := prompts[p := prompts[p].(lastMessageID := userMsgID)];
        }
      }
      published := published + [P.Anchored(userMsgID, currentPrompt)];
      currentPrompt := P.None;
      replyToOverride := "";
      isReady := true;
    }

    // ----- respawn and Close -----

    method FailSpawn(before: C.Status)
      modifies this`handle, this`stat
      ensures Bridge() == C.SpawnFailed(old(Bridge()), before)
      ensures handle == C.None && stat == if before == C.Running then C.Exited else old(stat)
    {
      handle := C.None;
      if before == C.Running {
        stat := C.Exited;
      }
    }

    /** orphan is the fresh handle when a close came first: the caller must close it. */
    method LandSpawn(h: C.Handle) returns (orphan: C.Option<C.Handle>)
      modifies this`handle, this`stat
      ensures Bridge() == C.SpawnLanded(old(Bridge()), h)
      ensures if closedByUser then orphan == C.Some(h) && handle == C.None && stat == C.Exited
              else orphan == C.None && handle == C.Some(h) && stat == C.Running
    {
      handle := C.Some(h);
      stat := C.Running;
      orphan := C.None;
      if closedByUser {
        orphan := handle;
        handle := C.None;
        stat := C.Exited;
      }
    }

    method BeginClose() returns (h: C.Option<C.Handle>)
      modifies this`closedByUser
      ensures Bridge() == C.MarkClosed(old(Bridge())) && closedByUser && h == handle
    {
      closedByUser := true;
      h := handle;
    }

    method SetExited()
      modifies this`stat
      ensures Bridge() == C.SetExited(old(Bridge())) && stat == C.Exited
    {
      stat := C.Exited;
    }
  }
}
