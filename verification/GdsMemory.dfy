/**
  The client's registration cache and its RDMA tokens, as objects updated in place.

  The RDMA client library is not part of this model: it may refuse any request, and it keeps the
  descriptors and tokens it has given out and not taken back.
 */
module GdsMemory {
  import opened Numbers
  import opened GdsMemoryMachine

  /** What the library was asked and what it answered; token 0 is a failure. */
  datatype ClientCall =
    | DescriptorAsked(ptr: nat, size: nat, ok: bool)
    | DescriptorPut(ptr: nat, ok: bool)
    | TokenAsked(ptr: nat, size: nat, offset: nat, tok: nat)

  class CuObjClient {
    /** Descriptors opened and not put back, one entry for each successful call. */
    var descriptors: multiset<nat>
    /** Tokens given out and not put back, and the Token object that answers for each. */
    var tokens: set<nat>
    ghost var owner: map<nat, Token>
    ghost var tokensGiven: nat
    ghost var tokensTaken: nat
    /** The size last pinned for a pointer. */
    ghost var pinned: map<nat, nat>
    /** Every request that the library may refuse, in order, with its answer. */
    ghost var calls: seq<ClientCall>

    constructor ()
      ensures descriptors == multiset{} && tokens == {} && owner == map[] && tokensGiven == tokensTaken == 0
    {
      descriptors, tokens, owner := multiset{}, {}, map[];
      tokensGiven, tokensTaken, pinned, calls := 0, 0, map[], [];
    }

    method GetDescriptor(ptr: nat, size: nat) returns (ok: bool)
      modifies `descriptors, `pinned, `calls
      ensures calls == old(calls) + [DescriptorAsked(ptr, size, ok)]
      ensures descriptors == if ok then old(descriptors) + multiset{ptr} else old(descriptors)
      ensures pinned == if ok then old(pinned)[ptr := size] else old(pinned)
    {
      ok := *;
      if ok {
        descriptors, pinned := descriptors + multiset{ptr}, pinned[ptr := size];
      }
      calls := calls + [DescriptorAsked(ptr, size, ok)];
    }

    /** Must only be called for an open descriptor; the answer does not say whether it was closed. */
    method PutDescriptor(ptr: nat) returns (ok: bool)
      requires ptr in descriptors
      modifies `descriptors, `calls
      ensures descriptors == old(descriptors) - multiset{ptr}
      ensures calls == old(calls) + [DescriptorPut(ptr, ok)]
    {
      descriptors := descriptors - multiset{ptr};
      ok := *;
      calls := calls + [DescriptorPut(ptr, ok)];
    }

    /** 0 is failure. */
    method GetRDMAToken(ptr: nat, size: nat, offset: nat) returns (tok: nat)
      modifies `tokens, `tokensGiven, `calls
      ensures calls == old(calls) + [TokenAsked(ptr, size, offset, tok)]
      ensures tok == 0 ==> tokens == old(tokens) && tokensGiven == old(tokensGiven)
      ensures tok != 0 ==>
        tok !in old(tokens) && tokens == old(tokens) + {tok} && tokensGiven == old(tokensGiven) + 1
    {
      var fails: bool := *;
      if fails {
        tok := 0;
      } else {
        ghost var bound := FreshNumber(tokens);
        assert bound != 0 && bound !in tokens;
        tok :| tok != 0 && tok !in tokens;
        tokens, tokensGiven := tokens + {tok}, tokensGiven + 1;
      }
      calls := calls + [TokenAsked(ptr, size, offset, tok)];
    }

    method PutRDMAToken(tok: nat)
      requires tok in tokens
      modifies `tokens, `tokensTaken
      ensures tokens == old(tokens) - {tok} && tokensTaken == old(tokensTaken) + 1
    {
      tokens, tokensTaken := tokens - {tok}, tokensTaken + 1;
    }

    /** Every token still out has one Token object answering for it. */
    ghost predicate Owned()
      reads this
    {
      owner.Keys == tokens && 0 !in tokens
    }
  }

  class Token {
    var client: CuObjClient?
    var tok: nat

    /** Holds nothing, or a token that is out and that this object alone answers for. */
    ghost predicate Valid()
      reads this, if client == null then {} else {client}
    {
      && (client == null <==> tok == 0)
      && (client != null ==> client.Owned() && tok in client.owner && client.owner[tok] == this)
    }

    constructor ()
      ensures Valid() && client == null && tok == 0
    {
      client, tok := null, 0;
    }

    method Reset()
      requires Valid()
      modifies this
      modifies (if client == null then {} else {client})`tokens
      modifies (if client == null then {} else {client})`owner
      modifies (if client == null then {} else {client})`tokensTaken
      ensures Valid() && client == null && tok == 0
      ensures old(client) != null ==>
        && old(client).Owned()
        && old(client).tokens == old(client.tokens) - {old(tok)}
        && old(client).owner == old(client.owner) - {old(tok)}
        && old(client).tokensTaken == old(client.tokensTaken) + 1
    {
      if tok != 0 && client != null {
        client.PutRDMAToken(tok);
        client.owner := client.owner - {tok};
      }
      client, tok := null, 0;
    }

    /** operator=(Token&&): the old token goes back, the other's moves here; a self-move does nothing. */
    method MoveAssign(o: Token)
      requires Valid() && o.Valid()
      requires client != null && o.client != null ==> client == o.client
      modifies this, o
      modifies (if client == null then {} else {client})`tokens
      modifies (if client == null then {} else {client})`tokensTaken
      modifies (if client == null then {} else {client})`owner
      modifies (if o.client == null then {} else {o.client})`owner
      ensures Valid() && o.Valid()
      ensures this == o ==> tok == old(tok) && client == old(client)
      ensures this != o ==> tok == old(o.tok) && client == old(o.client) && o.tok == 0
      ensures this != o && old(client) != null ==>
        && old(client).Owned()
        && old(client).tokens == old(client.tokens) - {old(tok)}
        && old(client).tokensTaken == old(client.tokensTaken) + 1
      ensures this != o && old(o.client) != null ==>
        old(o.client).owner == (old(o.client.owner) - {old(tok)})[old(o.tok) := this]
    {
      if this != o {
        Reset();
        client, tok := o.client, o.tok;
        if client != null {
          assert client.owner == old(o.client.owner) - {old(tok)};
          client.owner := client.owner[tok := this];
        }
        o.client, o.tok := null, 0;
      }
    }

    /** The constructor Token(client, tok), given a token just obtained. */
    method Adopt(client: CuObjClient, tok: nat)
      requires this.client == null && this.tok == 0
      requires tok != 0 && tok in client.tokens && client.owner.Keys == client.tokens - {tok} && 0 !in client.tokens
      modifies this, client`owner
      ensures Valid() && this.client == client && this.tok == tok
      ensures client.owner == old(client.owner)[tok := this]
    {
      this.client, this.tok := client, tok;
      client.owner := client.owner[tok := this];
    }
  }

  /** What is registered is what was pinned, size for size. */
  ghost predicate Pinned(registered: map<nat, nat>, pinned: map<nat, nat>) {
    forall p :: p in registered ==> p in pinned && pinned[p] == registered[p]
  }

  class GdsMemoryManager {
    const client: CuObjClient
    var registered: map<nat, nat>

    /** One open descriptor for each registered pointer, and no other. */
    ghost predicate Valid()
      reads this, client
    {
      && client.descriptors == multiset(registered.Keys)
      && client.Owned()
      && Pinned(registered, client.pinned)
    }

    constructor (client: CuObjClient)
      requires client.descriptors == multiset{} && client.Owned()
      ensures Valid() && this.client == client && registered == map[]
    {
      this.client, this.registered := client, map[];
    }

    method RegisterBuffer(ptr: nat, size: nat) returns (ok: bool)
      requires Valid()
      modifies `registered, client`descriptors, client`pinned, client`calls
      ensures Valid()
      ensures ptr == 0 || size == 0 ==> !ok
      ensures ok ==> ptr in registered
      ensures registered == if ok && ptr !in old(registered) then old(registered)[ptr := size] else old(registered)
      ensures ptr != 0 && size != 0 && ptr in old(registered) ==> ok
      ensures client.calls ==
        if ptr == 0 || size == 0 || ptr in old(registered) then old(client.calls)
        else old(client.calls) + [DescriptorAsked(ptr, size, ok)]
    {
      if ptr == 0 || size == 0 {
        return false;
      }
      ok := RegisterBufferUnderLock(ptr, size);
    }

    method UnregisterBuffer(ptr: nat) returns (ok: bool)
      requires Valid()
      modifies `registered, client`descriptors, client`pinned, client`calls
      ensures Valid()
      ensures ptr == 0 ==> !ok && registered == old(registered)
      ensures ptr != 0 ==> registered == old(registered) - {ptr}
      ensures ptr != 0 && ptr !in old(registered) ==> ok
      ensures client.calls ==
        if ptr == 0 || ptr !in old(registered) then old(client.calls)
        else old(client.calls) + [DescriptorPut(ptr, ok)]
    {
      if ptr == 0 {
        return false;
      }
      if ptr !in registered {
        return true;
      }
      ok := client.PutDescriptor(ptr);
      registered := registered - {ptr};
    }

    method RegisterBufferUnderLock(ptr: nat, size: nat) returns (ok: bool)
      requires Valid()
      modifies `registered, client`descriptors, client`pinned, client`calls
      ensures Valid()
      ensures ok ==> ptr in registered
      ensures registered == if ok && ptr !in old(registered) then old(registered)[ptr := size] else old(registered)
      ensures ptr in old(registered) ==> ok
      ensures client.calls ==
        if ptr in old(registered) then old(client.calls)
        else old(client.calls) + [DescriptorAsked(ptr, size, ok)]
    {
      if ptr in registered {
        return true;
      }
      ok := client.GetDescriptor(ptr, size);
      if ok {
        registered := registered[ptr := size];
        assert registered.Keys == old(registered.Keys) + {ptr};
      }
    }

    /** AcquireToken's two critical sections: look, and register what was not there. */
    method RegisterIfNew(ptr: nat, size: nat) returns (ok: bool)
      requires Valid()
      modifies `registered, client`descriptors, client`pinned, client`calls
      ensures Valid() && (ok ==> ptr in registered)
      ensures registered == if ok && ptr !in old(registered) then old(registered)[ptr := size] else old(registered)
      ensures ptr in old(registered) ==> ok
      ensures client.calls ==
        if ptr in old(registered) then old(client.calls)
        else old(client.calls) + [DescriptorAsked(ptr, size, ok)]
    {
      var needRegister := ptr !in registered;
      ok := true;
      if needRegister {
        ok := RegisterBufferUnderLock(ptr, size);
      }
    }

    /** On success `out` holds a new token, and what it held before has gone back. */
    method AcquireToken(ptr: nat, size: nat, offset: nat, out: Token) returns (ok: bool)
      requires Valid() && out.Valid() && (out.client == null || out.client == client)
      modifies `registered, client, out
      ensures Valid() && out.Valid() && (out.client == null || out.client == client)
      ensures ptr == 0 || size == 0 ==> !ok && registered == old(registered) && client.calls == old(client.calls)
      ensures ptr != 0 && size != 0 ==>
        client.calls == old(client.calls)
          + (if ptr in old(registered) then [] else [DescriptorAsked(ptr, Span(size, offset), ptr in registered)])
          + (if ptr in registered then [TokenAsked(ptr, size, offset, if ok then out.tok else 0)] else [])
      ensures registered ==
        if ptr !in old(registered) && ptr in registered then old(registered)[ptr := Span(size, offset)]
        else old(registered)
      ensures ok ==>
        && ptr in registered && out.tok != 0 && out.client == client && out.tok !in old(client.tokens)
        && client.tokens == old(client.tokens) - {old(out.tok)} + {out.tok}
        && client.owner == (old(client.owner) - {old(out.tok)})[out.tok := out]
        && client.tokensGiven == old(client.tokensGiven) + 1
        && client.tokensTaken == old(client.tokensTaken) + (if old(out.tok) != 0 then 1 else 0)
      ensures ok ==>
        (Covers(registered, ptr, size, offset) <==>
          if ptr in old(registered) then Covers(old(registered), ptr, size, offset) else size + offset < UINT64)
      ensures !ok ==>
        && out.tok == old(out.tok) && client.tokens == old(client.tokens) && client.owner == old(client.owner)
        && client.tokensGiven == old(client.tokensGiven) && client.tokensTaken == old(client.tokensTaken)
    {
      if ptr == 0 || size == 0 {
        return false;
      }
      var done := RegisterIfNew(ptr, Span(size, offset));
      if !done {
        return false;
      }
      SpanWraps(size, offset);
      ok := FetchToken(ptr, size, offset, out);
    }

    /** AcquireToken's last part, outside any lock. */
    method FetchToken(ptr: nat, size: nat, offset: nat, out: Token) returns (ok: bool)
      requires client.Owned() && out.Valid() && (out.client == null || out.client == client)
      modifies out, client`tokens, client`owner, client`tokensGiven, client`tokensTaken, client`calls
      ensures client.Owned() && out.Valid() && (out.client == null || out.client == client)
      ensures client.calls == old(client.calls) + [TokenAsked(ptr, size, offset, if ok then out.tok else 0)]
      ensures ok ==>
        && out.tok != 0 && out.client == client && out.tok !in old(client.tokens)
        && client.tokens == old(client.tokens) - {old(out.tok)} + {out.tok}
        && client.owner == (old(client.owner) - {old(out.tok)})[out.tok := out]
        && client.tokensGiven == old(client.tokensGiven) + 1
        && client.tokensTaken == old(client.tokensTaken) + (if old(out.tok) != 0 then 1 else 0)
      ensures !ok ==>
        && out.tok == old(out.tok) && client.tokens == old(client.tokens) && client.owner == old(client.owner)
        && client.tokensGiven == old(client.tokensGiven) && client.tokensTaken == old(client.tokensTaken)
    {
      var tok := client.GetRDMAToken(ptr, size, offset);
      if tok == 0 {
        return false;
      }
      ReplaceToken(out, tok);
      return true;
    }

    /** out = Token(client, tok) */
    method ReplaceToken(out: Token, tok: nat)
      requires tok != 0 && tok in client.tokens && client.owner.Keys == client.tokens - {tok} && 0 !in client.tokens
      requires out.client == null <==> out.tok == 0
      requires out.client != null ==>
        out.client == client && out.tok in client.owner && client.owner[out.tok] == out
      modifies out, client`tokens, client`owner, client`tokensTaken
      ensures out.Valid() && client.Owned() && out.client == client && out.tok == tok
      ensures client.tokens == old(client.tokens) - {old(out.tok)}
      ensures client.owner == (old(client.owner) - {old(out.tok)})[tok := out]
      ensures client.tokensTaken == old(client.tokensTaken) + (if old(out.tok) != 0 then 1 else 0)
    {
      var temporary := new Token();
      temporary.Adopt(client, tok);
      out.MoveAssign(temporary);
    }

    /** The destructor puts back every descriptor still open. */
    method Destroy()
      requires Valid()
      modifies `registered, client`descriptors, client`pinned, client`calls
      ensures Valid() && registered == map[] && client.descriptors == multiset{}
    {
      var left := registered.Keys;
      while left != {}
        invariant client.descriptors == multiset(left)
        decreases |left|
      {
        var ptr :| ptr in left;
        left := left - {ptr};
        var _ := client.PutDescriptor(ptr);
      }
      registered := map[];
    }
  }
}
