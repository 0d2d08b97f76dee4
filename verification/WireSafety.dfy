/** What the providers put on the wire, joined with what the agent sends them. */
module WireSafety {
  import opened LlmTypes
  import opened AgentLoop
  import opened GuardedTools
  import opened WirePairing
  import AnthropicWire
  import OpenAiWire

  /** In both formats the request carries no call without an answer. */
  predicate PairedOnTheWire(codec: OpenAiWire.Codec, r: LlmRequest) {
    && PendingIds(AnthropicWire.WirePairs(AnthropicWire.EncodeAll(r.messages))) == []
    && PendingIds(OpenAiWire.WirePairs(OpenAiWire.SystemPart(r.system) + OpenAiWire.EncodeAll(codec, r.messages))) == []
  }

  lemma PairedExactly(codec: OpenAiWire.Codec, r: LlmRequest)
    requires "" !in Ids(Pending(r.messages))
    ensures PairedOnTheWire(codec, r) <==> Pending(r.messages) == []
  {
    AnthropicWire.EncodingKeepsPairs(r.messages);
    OpenAiWire.EncodingKeepsPairs(codec, r);
    PendingOnTheWireExactly(r.messages);
    assert Pending(r.messages) != [] ==> CallIds(Pending(r.messages)) != [];
  }

  /** Every request an approval sends, and every request of a chat on a conversation
      with nothing pending, has all its calls answered on the wire, whatever ids the
      model chose and whichever provider is in use. */
  lemma RequestsArePairedOnTheWire(env: Env, codec: OpenAiWire.Codec, session: Session, request: AgentLoop.Request)
    requires request.Approve? || Pending(session.history) == []
    ensures Adds(session.trace, Serve(env, session, request).0.trace,
                 (e: Event) => e.Asked? ==> PairedOnTheWire(codec, e.request))
  {
    ServeIsPermitted(env, session, request);
    var after := Serve(env, session, request).0.trace;
    forall i | |session.trace| <= i < |after| && after[i].Asked? ensures PairedOnTheWire(codec, after[i].request) {
      assert Permitted(env.host.registry, session, request, after[i]);
      PairedExactly(codec, after[i].request);
    }
  }
}
