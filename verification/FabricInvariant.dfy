/** What every step of the fabric keeps: who owns each block, what its header says, and how the
    count relates to the recipients that are still to come. */
module FabricInvariant {
  import opened FabricTypes
  import opened FabricSteps
  import opened Masks
  import opened Wrappers

  /** The pools, the memory and the bookkeeping are about the same blocks. */
  ghost predicate PoolsOk(s: State) {
    && s.messages.Valid() && s.payloads.Valid()
    && s.mem.Keys == s.messages.Blocks()
    && s.data.Keys == s.payloads.Blocks()
    && s.tags.Keys == s.messages.used
    && s.owner.Keys == s.payloads.used
    && (forall p :: p in s.data ==> |s.data[p]| == MAX_PAYLOAD)
    && s.past.errors == 0
  }

  /** A header is the one its creator asked for. */
  ghost predicate HeaderOk(m: Message, draft: Draft) {
    m.source == draft.src && m.destination == draft.dest && m.kind == draft.kind && m.info == draft.info
  }

  /** What a recipient reads that follows a payload pointer for `size` bytes. */
  function BytesAt(payload: Option<nat>, size: nat, data: map<nat, seq<Byte>>): seq<Byte> {
    if payload.Some? && payload.value in data then Prefix(data[payload.value], size) else []
  }

  /** Message block `b` owns the payload block that a pointer names. */
  ghost predicate Owns(b: nat, payload: Option<nat>, owner: map<nat, nat>) {
    payload.Some? && payload.value in owner && owner[payload.value] == b
  }

  /** A payload pointer and size lead to the bytes the creator copied in. */
  ghost predicate PayloadOk(b: nat, payload: Option<nat>, size: nat, draft: Draft, bytes: seq<Byte>,
                            data: map<nat, seq<Byte>>, owner: map<nat, nat>)
  {
    && BytesAt(payload, size, data) == bytes
    && size == |bytes| == (if draft.CarriesPayload() then draft.size else 0)
    && (if draft.CarriesPayload() then Owns(b, payload, owner) else payload.None?)
  }

  /** Block `b` carries the payload its bookkeeping says it does. */
  ghost predicate Carries(s: State, b: nat)
    requires b in s.tags
  {
    PayloadOk(b, MessageAt(s, b).payload, MessageAt(s, b).payloadSize, s.tags[b].draft, s.tags[b].bytes, s.data, s.owner)
  }

  /** The count of a block is the number of recipients that have not counted down yet. */
  ghost predicate CountOk(count: nat, pending: set<nat>) {
    count == |pending| < COUNT_RANGE
  }

  /** The recipients of a mask that have not counted down yet are the ones that have not called back
      and the ones whose call is under way, and the count is their number. */
  ghost predicate PendingOk(owed: set<nat>, claimed: set<nat>, mask: nat, count: nat) {
    && owed !! claimed
    && owed + claimed != {}
    && owed + claimed <= Bits(mask)
    && CountOk(count, owed + claimed)
  }

  /** Every claim on block `b` is held by the call it names. */
  ghost predicate ClaimsOk(b: nat, claims: map<nat, nat>, ops: map<nat, Call>) {
    forall d :: d in claims ==> claims[d] in ops && ops[claims[d]].share == Some(Share(b, d))
  }

  ghost predicate TagOk(s: State, b: nat)
    requires b in s.tags
  {
    var tag := s.tags[b];
    && Mask(tag.draft.dest) && Mask(tag.draft.src) && tag.draft.size <= MAX_PAYLOAD
    && match tag.phase
       case Building(t) => t in s.ops && s.ops[t].built == Some(b)
       case Freeing(t) => t in s.ops && s.ops[t].last == Some(b) && HeaderOk(MessageAt(s, b), tag.draft)
       case Live(owed, claims) =>
         && HeaderOk(MessageAt(s, b), tag.draft) && Carries(s, b)
         && PendingOk(owed, claims.Keys, tag.draft.dest, MessageAt(s, b).count)
         && ClaimsOk(b, claims, s.ops)
  }

  /** A call's claim on the share it holds is on record. */
  ghost predicate Claimed(s: State, t: nat, share: Share) {
    && share.block in s.tags && s.tags[share.block].phase.Live?
    && share.bit in s.tags[share.block].phase.claims && s.tags[share.block].phase.claims[share.bit] == t
  }

  /** The block a call builds is its own, and is as far along as the call is. */
  ghost predicate BuildOk(s: State, t: nat, call: Call, b: nat) {
    && b in s.tags && s.tags[b].phase == Building(t)
    && call.draft == s.tags[b].draft
    && (!call.at.FillHeader? ==> HeaderOk(MessageAt(s, b), s.tags[b].draft))
    && (call.at.CopyPayload? ==> Owns(b, MessageAt(s, b).payload, s.owner))
    && (call.at.AllocatePayload? || call.at.Undo? || call.at.CopyPayload? ==> call.draft.CarriesPayload())
    && (call.at.ClearPayload? ==> !call.draft.CarriesPayload())
    && (if call.at.SetCount? || call.at.Created() then Carries(s, b) else s.tags[b].bytes == [])
    && (call.at.Created() ==> CountOk(MessageAt(s, b).count, Bits(s.tags[b].draft.dest)))
  }

  /** The block whose last recipient this call is belongs to the call. */
  ghost predicate FreeOk(s: State, t: nat, call: Call, b: nat) {
    && b in s.tags && s.tags[b].phase == Freeing(t)
    && (call.at.ReleasePayload? ==> Carries(s, b))
    && (call.at.ReleaseMessage? ==> MessageAt(s, b).payload == None)
  }

  /** Which local variables a call has set. */
  ghost predicate CallOk(call: Call) {
    && (call.at.ReadRequest? || call.at.Decrement? ==> call.share.Some?)
    && (call.at.ReadRequest? || call.at.AllocateMessage? ==> call.built.None?)
    && (call.at.Creating() ==> call.built.Some?)
    && (call.at.Freeing() <==> call.last.Some?)
    && (call.at.Freeing() || call.at.Return? ==> call.share.None?)
  }

  /** A call that passes back the payload of the message it answers has a share of a message with one. */
  ghost predicate Lends(tags: map<nat, Tag>, share: Option<Share>, buffer: Option<Memory>, size: nat) {
    buffer == Some(Held) ==>
      && share.Some? && share.value.block in tags
      && tags[share.value.block].draft.CarriesPayload() && size <= tags[share.value.block].draft.size
  }

  ghost predicate OpOk(s: State, t: nat)
    requires t in s.ops
  {
    var call := s.ops[t];
    && CallOk(call)
    && (call.built.Some? ==> BuildOk(s, t, call, call.built.value))
    && (call.share.Some? ==> Claimed(s, t, call.share.value))
    && (call.last.Some? ==> FreeOk(s, t, call, call.last.value))
    && (call.at.AllocateMessage? ==> Mask(call.draft.dest) && Mask(call.draft.src))
    && (call.at.ReadRequest? || call.at.AllocateMessage? || call.at.Creating() ==>
        && Readable(s, call.draft.buffer, call.draft.size)
        && Lends(s.tags, call.share, call.draft.buffer, call.draft.size))
  }

  /** A payload block that is out is pointed to by the message that owns it, and that message's
      payload pointer still means something. */
  ghost predicate OwnerOk(s: State, p: nat)
    requires p in s.owner
  {
    var b := s.owner[p];
    && b in s.tags && MessageAt(s, b).payload == Some(p)
    && match s.tags[b].phase
       case Live(_, _) => true
       case Building(t) => t in s.ops && (s.ops[t].at.CopyPayload? || s.ops[t].at.SetCount? || s.ops[t].at.Created())
       case Freeing(t) => t in s.ops && s.ops[t].at.ReleasePayload?
  }

  ghost predicate Inv(s: State) {
    && PoolsOk(s)
    && (forall b :: b in s.tags ==> TagOk(s, b))
    && (forall t :: t in s.ops ==> OpOk(s, t))
    && (forall p :: p in s.owner ==> OwnerOk(s, p))
  }

  // ---------------------------------------------------------------- what a step leaves alone

  /** At most call `t`, message block `b` and payload block `p` differ between the two states, and
      what `t` keeps of the other blocks it keeps. */
  ghost predicate Elsewhere(s: State, s': State, t: Option<nat>, b: Option<nat>, p: Option<nat>) {
    && (forall c :: c in s.tags && Some(c) != b ==>
        c in s'.tags && s'.tags[c] == s.tags[c] && MessageAt(s', c) == MessageAt(s, c))
    && (forall c :: c in s'.tags && Some(c) != b ==> c in s.tags)
    && (forall q :: q in s.owner && Some(q) != p ==>
        q in s'.owner && s'.owner[q] == s.owner[q] && DataAt(s', q) == DataAt(s, q))
    && (forall q :: q in s'.owner && Some(q) != p ==> q in s.owner)
    && (forall u :: u in s.ops && Some(u) != t ==> u in s'.ops && s'.ops[u] == s.ops[u])
    && (forall u :: u in s'.ops && Some(u) != t ==> u in s.ops)
    && (forall x :: x in s.buffers ==> x in s'.buffers && |s'.buffers[x]| == |s.buffers[x]|)
  }

  ghost predicate OthersKeepClaims(s': State, t: Option<nat>, b: nat, claims: map<nat, nat>, draft: Draft) {
    forall d :: d in claims && Some(claims[d]) != t ==>
      Claimed(s', claims[d], Share(b, d)) && b in s'.tags && s'.tags[b].draft == draft
  }

  /** Block `b` is nobody's but call `t`'s, or if other calls have shares of it, they keep them. */
  ghost predicate Private(s: State, s': State, t: Option<nat>, b: Option<nat>, p: Option<nat>) {
    && (b.Some? && b.value in s.tags ==>
        match s.tags[b.value].phase
        case Building(u) => t == Some(u)
        case Freeing(u) => t == Some(u)
        case Live(_, claims) => OthersKeepClaims(s', t, b.value, claims, s.tags[b.value].draft))
    && (forall q :: q in s.owner && Some(s.owner[q]) == b ==> p == Some(q))
    && (p.Some? && p.value in s.owner ==> Some(s.owner[p.value]) == b)
  }

  /** What call `t` keeps of the blocks other than `b`. */
  ghost predicate KeepsOthers(s: State, s': State, t: Option<nat>, b: Option<nat>) {
    t.Some? && t.value in s.ops ==>
      var call := s.ops[t.value];
      && (call.built.Some? && call.built != b ==>
          && t.value in s'.ops && s'.ops[t.value].built == call.built
          && call.at.Created() && s'.ops[t.value].at.Created())
      && (call.share.Some? && Some(call.share.value.block) != b ==> t.value in s'.ops && s'.ops[t.value].share == call.share)
      && (call.last.Some? ==> call.last == b)
  }

  lemma FramePayload(s: State, s': State, t: Option<nat>, b: Option<nat>, p: Option<nat>, c: nat)
    requires c in s.tags && Some(c) != b && Carries(s, c)
    requires Elsewhere(s, s', t, b, p) && Private(s, s', t, b, p)
    ensures c in s'.tags && Carries(s', c)
  {
  }

  lemma FrameClaims(s: State, s': State, t: Option<nat>, b: Option<nat>, p: Option<nat>, c: nat, claims: map<nat, nat>)
    requires Some(c) != b && ClaimsOk(c, claims, s.ops)
    requires Elsewhere(s, s', t, b, p) && KeepsOthers(s, s', t, b)
    ensures ClaimsOk(c, claims, s'.ops)
  {
    forall d | d in claims ensures claims[d] in s'.ops && s'.ops[claims[d]].share == Some(Share(c, d)) {
      assert claims[d] in s.ops;
    }
  }

  lemma FrameTag(s: State, s': State, t: Option<nat>, b: Option<nat>, p: Option<nat>, c: nat)
    requires c in s.tags && Some(c) != b && TagOk(s, c)
    requires Elsewhere(s, s', t, b, p) && Private(s, s', t, b, p) && KeepsOthers(s, s', t, b)
    ensures c in s'.tags && TagOk(s', c)
  {
    if s.tags[c].phase.Live? {
      FramePayload(s, s', t, b, p, c);
      FrameClaims(s, s', t, b, p, c, s.tags[c].phase.claims);
    }
    hide Bits, HeaderOk, Carries, PendingOk, ClaimsOk, Private;
  }

  lemma FrameBuild(s: State, s': State, t: Option<nat>, b: Option<nat>, p: Option<nat>, u: nat, call: Call, c: nat)
    requires Some(u) != t && BuildOk(s, u, call, c)
    requires Elsewhere(s, s', t, b, p) && Private(s, s', t, b, p)
    ensures BuildOk(s', u, call, c)
  {
    if call.at.SetCount? || call.at.Created() {
      FramePayload(s, s', t, b, p, c);
    }
  }

  lemma FrameFree(s: State, s': State, t: Option<nat>, b: Option<nat>, p: Option<nat>, u: nat, call: Call, c: nat)
    requires Some(u) != t && FreeOk(s, u, call, c)
    requires Elsewhere(s, s', t, b, p) && Private(s, s', t, b, p)
    ensures FreeOk(s', u, call, c)
  {
    if call.at.ReleasePayload? {
      FramePayload(s, s', t, b, p, c);
    }
  }

  lemma FrameOp(s: State, s': State, t: Option<nat>, b: Option<nat>, p: Option<nat>, u: nat)
    requires u in s.ops && Some(u) != t && OpOk(s, u)
    requires Elsewhere(s, s', t, b, p) && Private(s, s', t, b, p)
    ensures u in s'.ops && OpOk(s', u)
  {
    var call := s.ops[u];
    if call.built.Some? {
      FrameBuild(s, s', t, b, p, u, call, call.built.value);
    }
    if call.last.Some? {
      FrameFree(s, s', t, b, p, u, call, call.last.value);
    }
    assert call.share.Some? ==> Claimed(s', u, call.share.value);
  }

  lemma FrameOwner(s: State, s': State, t: Option<nat>, b: Option<nat>, p: Option<nat>, q: nat)
    requires q in s.owner && Some(q) != p && OwnerOk(s, q)
    requires s.owner[q] in s.tags ==> TagOk(s, s.owner[q])
    requires Elsewhere(s, s', t, b, p) && Private(s, s', t, b, p) && KeepsOthers(s, s', t, b)
    ensures q in s'.owner && OwnerOk(s', q)
  {
  }

  /** The pools, and whatever the two states may disagree on, are in order. */
  ghost predicate LocalOk(s: State, t: Option<nat>, b: Option<nat>, p: Option<nat>) {
    && PoolsOk(s)
    && (t.Some? && t.value in s.ops ==> OpOk(s, t.value))
    && (b.Some? && b.value in s.tags ==> TagOk(s, b.value))
    && (p.Some? && p.value in s.owner ==> OwnerOk(s, p.value))
  }

  ghost predicate Confined(s: State, s': State, t: Option<nat>, b: Option<nat>, p: Option<nat>) {
    Elsewhere(s, s', t, b, p) && Private(s, s', t, b, p) && KeepsOthers(s, s', t, b)
  }

  ghost predicate LocalStep(s: State, s': State, t: Option<nat>, b: Option<nat>, p: Option<nat>) {
    Confined(s, s', t, b, p) && LocalOk(s', t, b, p)
  }

  /** Whatever call `t` does to block `b` and payload block `p`, everything else stays in order. */
  lemma Frame(s: State, s': State, t: Option<nat>, b: Option<nat>, p: Option<nat>)
    requires Inv(s) && LocalStep(s, s', t, b, p)
    ensures Inv(s')
  {
    forall c | c in s'.tags ensures TagOk(s', c) {
      if Some(c) != b {
        FrameTag(s, s', t, b, p, c);
      }
    }
    forall u | u in s'.ops ensures OpOk(s', u) {
      if Some(u) != t {
        FrameOp(s, s', t, b, p, u);
      }
    }
    forall q | q in s'.owner ensures OwnerOk(s', q) {
      if Some(q) != p {
        FrameOwner(s, s', t, b, p, q);
      }
    }
  }

  /** The payload block that belongs to block `b`, if there is one. */
  ghost function Payload(s: State, b: Option<nat>): Option<nat> {
    if b.Some? && Owns(b.value, MessageAt(s, b.value).payload, s.owner) then MessageAt(s, b.value).payload else None
  }

  /** No other payload block belongs to block `b`. */
  ghost predicate OwnsOnly(s: State, b: Option<nat>, p: Option<nat>) {
    && (forall q :: q in s.owner && Some(s.owner[q]) == b ==> p == Some(q))
    && (p.Some? && p.value in s.owner ==> Some(s.owner[p.value]) == b)
  }

  lemma OwnsItsPayload(s: State, b: Option<nat>)
    requires Inv(s)
    ensures OwnsOnly(s, b, Payload(s, b))
  {
    forall q | q in s.owner && Some(s.owner[q]) == b ensures Payload(s, b) == Some(q) {
      assert OwnerOk(s, q);
    }
  }

  /** A message block whose call has not given it a payload, or has taken it away, owns none. */
  lemma OwnsNothing(s: State, t: nat, b: Option<nat>)
    requires Inv(s) && t in s.ops && !s.ops[t].at.CopyPayload? && !s.ops[t].at.SetCount? && !s.ops[t].at.Return?
    requires !s.ops[t].at.Decrement? && !s.ops[t].at.ReleasePayload?
    requires b.Some? && b.value in s.tags ==>
      s.tags[b.value].phase == Freeing(t) || (s.tags[b.value].phase == Building(t) && !s.ops[t].at.Freeing())
    ensures OwnsOnly(s, b, None)
  {
    forall q | q in s.owner ensures Some(s.owner[q]) != b {
      assert OwnerOk(s, q);
    }
  }
}
