/** Requests and replies: how many messages an exchange can hold, what remains of it, where a chain of
    answers leads, and that a one-to-one conversation never runs out of blocks. */
module FabricExchange {
  import opened FabricTypes
  import opened FabricSteps
  import opened FabricInvariant
  import opened FabricPreservation
  import opened FabricLedger
  import opened FabricReplies
  import opened FabricTheorems
  import opened Masks
  import opened Wrappers

  // ---------------------------------------------------------------- fan-out

  /** The blocks that hold replies to message `id`. */
  function ReplyBlocks(s: State, id: nat): set<nat> {
    set b | b in s.tags && s.tags[b].id in s.past.causes && s.past.causes[s.tags[b].id].id == id
  }

  /** The blocks that hold message `id` or a reply to it. */
  function ExchangeBlocks(s: State, id: nat): set<nat> {
    (set b | b in s.tags && s.tags[b].id == id) + ReplyBlocks(s, id)
  }

  /** A set that maps one-to-one into another is no larger. */
  lemma {:induction false} OneToOne(xs: set<nat>, f: map<nat, nat>, ys: set<nat>)
    requires xs <= f.Keys && forall x :: x in xs ==> f[x] in ys
    requires forall x, z :: x in xs && z in xs && f[x] == f[z] ==> x == z
    ensures |xs| <= |ys|
  {
    if xs != {} {
      var x :| x in xs;
      OneToOne(xs - {x}, f, ys - {f[x]});
    }
  }

  lemma EveryMessageHasADraft(s: State, id: nat)
    requires Good(s) && id < s.past.nextId
    ensures id in s.past.drafts
  {
    if Allocated(s.tags, id) {
      var b :| b in s.tags && s.tags[b].id == id;
      assert EntryOk(s.tags[b], s.ops, s.past);
    } else {
      assert GoneOk(s.past, id);
    }
  }

  lemma RepliesAreFew(s: State, id: nat)
    requires Good(s) && id in s.past.drafts
    ensures |ReplyBlocks(s, id)| <= PopCount(s.past.drafts[id].dest)
  {
    var xs, mask := ReplyBlocks(s, id), s.past.drafts[id].dest;
    var f := map b | b in xs :: s.past.causes[s.tags[b].id].bit;
    forall b | b in xs ensures f[b] in Bits(mask) {
      assert CauseOk(s.past, s.tags[b].id);
    }
    OneToOne(xs, f, Bits(mask));
    BitsAreTheSetBits(mask);
  }

  /** However many recipients a request has and however their answers interleave with each other and
      with everything else, the request and its replies never hold more blocks than one more than the
      request has recipients. */
  lemma ExchangeIsBounded(s0: State, es: seq<Event>, id: nat)
    requires Initial(s0) && Runs(s0, es) && id < After(s0, es).past.nextId
    ensures var s := After(s0, es);
            id in s.past.drafts && |ExchangeBlocks(s, id)| <= 1 + PopCount(s.past.drafts[id].dest)
  {
    var s := After(s0, es);
    ReachableGood(s0, es);
    EveryMessageHasADraft(s, id);
    RepliesAreFew(s, id);
    var own := set b | b in s.tags && s.tags[b].id == id;
    OneToOne(own, map b | b in own :: 0, {0});
    assert |ExchangeBlocks(s, id)| <= |own| + |ReplyBlocks(s, id)|;
  }

  /** Two blocks hold replies to the same share. */
  ghost predicate SameShare(s: State, b: nat, c: nat) {
    && b in s.tags && c in s.tags && s.tags[b].id in s.past.causes && s.tags[c].id in s.past.causes
    && s.past.causes[s.tags[b].id] == s.past.causes[s.tags[c].id]
  }

  /** The blocks of exchange `id` are its live, unconsumed replies, one for each share answered. */
  ghost predicate OnlyRepliesRemain(s: State, id: nat) {
    && ExchangeBlocks(s, id) == ReplyBlocks(s, id)
    && (forall b :: b in ReplyBlocks(s, id) ==>
        QuietMessage(s, b) && id in s.past.drafts && Answers(s.tags[b].draft, s.past.drafts[id]))
    && (forall b, c :: b in ReplyBlocks(s, id) && c in ReplyBlocks(s, id) && SameShare(s, b, c) ==> b == c)
    && (forall i :: i in s.past.causes && s.past.causes[i].id == id ==>
        (Allocated(s.tags, i) <==> i in s.past.published && s.past.lasts[i] == 0))
  }

  /** When nothing is in flight and the request is gone, what is left of the exchange is exactly the
      replies that were created and whose own recipients have not all consumed them: live messages, each
      addressed to where the request came from, and each answering a different recipient's share. */
  lemma ExchangeLeavesReplies(s0: State, es: seq<Event>, id: nat)
    requires Initial(s0) && Runs(s0, es) && After(s0, es).ops == map[]
    requires !Allocated(After(s0, es).tags, id)
    ensures OnlyRepliesRemain(After(s0, es), id)
  {
    ReachableGood(s0, es);
    QuietState(s0, es);
    hide Good, Initial, QuietMessage, OnlyRepliesRemain;
    QuietExchange(After(s0, es), id);
  }

  lemma QuietExchange(s: State, id: nat)
    requires Good(s) && (forall b :: b in s.tags ==> QuietMessage(s, b)) && !Allocated(s.tags, id)
    ensures OnlyRepliesRemain(s, id)
  {
    RepliesAnswer(s, id);
    RepliesDiffer(s, id);
    RequestIsGone(s, id);
    AllQuietPublished(s, id);
    RepliesAreTagged(s, id);
    hide Good, QuietMessage, Answers, SameShare, ExchangeBlocks, ReplyBlocks, Allocated;
  }

  lemma RepliesAreTagged(s: State, id: nat)
    ensures forall b :: b in ReplyBlocks(s, id) ==> b in s.tags
  {
  }

  lemma RequestIsGone(s: State, id: nat)
    requires !Allocated(s.tags, id)
    ensures ExchangeBlocks(s, id) == ReplyBlocks(s, id)
  {
    assert forall b :: b in s.tags ==> s.tags[b].id != id;
  }

  lemma AllQuietPublished(s: State, id: nat)
    requires Good(s) && forall b :: b in s.tags ==> QuietMessage(s, b)
    ensures forall i :: i in s.past.causes && s.past.causes[i].id == id ==>
      (Allocated(s.tags, i) <==> i in s.past.published && s.past.lasts[i] == 0)
  {
    hide Good, QuietMessage;
    forall i | i in s.past.causes && s.past.causes[i].id == id
      ensures Allocated(s.tags, i) <==> i in s.past.published && s.past.lasts[i] == 0
    {
      QuietPublished(s, i);
    }
  }

  lemma RepliesDiffer(s: State, id: nat)
    requires Good(s)
    ensures forall b, c :: b in ReplyBlocks(s, id) && c in ReplyBlocks(s, id) && SameShare(s, b, c) ==> b == c
  {
  }

  lemma RepliesAnswer(s: State, id: nat)
    requires Good(s)
    ensures forall b :: b in ReplyBlocks(s, id) ==> id in s.past.drafts && Answers(s.tags[b].draft, s.past.drafts[id])
  {
    forall b | b in ReplyBlocks(s, id) ensures id in s.past.drafts && Answers(s.tags[b].draft, s.past.drafts[id]) {
      assert CauseOk(s.past, s.tags[b].id) && EntryOk(s.tags[b], s.ops, s.past);
    }
  }

  lemma QuietPublished(s: State, i: nat)
    requires Good(s) && i in s.past.causes && forall b :: b in s.tags ==> QuietMessage(s, b)
    ensures Allocated(s.tags, i) <==> i in s.past.published && s.past.lasts[i] == 0
  {
    if Allocated(s.tags, i) {
      var b :| b in s.tags && s.tags[b].id == i;
      assert QuietMessage(s, b) && EntryOk(s.tags[b], s.ops, s.past);
    } else {
      assert i >= s.past.nextId ==> UnusedOk(s.past, i);
    }
  }

  // ---------------------------------------------------------------- chains of answers

  /** Each message of `ids` answers the one before it. */
  ghost predicate Chain(past: History, ids: seq<nat>) {
    && ids != [] && ids[0] in past.drafts
    && forall k :: 0 < k < |ids| ==> ids[k] in past.causes && past.causes[ids[k]].id == ids[k - 1]
  }

  /** Along a chain of answers of any length source and destination alternate: every second message has
      the original header, and the others have it swapped. */
  lemma {:induction false} ChainAlternates(s: State, ids: seq<nat>)
    requires Good(s) && Chain(s.past, ids)
    ensures ids[|ids| - 1] in s.past.drafts
    ensures var first, last := s.past.drafts[ids[0]], s.past.drafts[ids[|ids| - 1]];
            && last.kind == first.kind
            && if |ids| % 2 == 1 then last.dest == first.dest && last.src == first.src
               else last.dest == first.src && last.src == first.dest
  {
    if |ids| > 1 {
      var n := |ids| - 1;
      assert Chain(s.past, ids[..n]);
      ChainAlternates(s, ids[..n]);
      assert ids[..n][|ids[..n]| - 1] == ids[n - 1];
      assert CauseOk(s.past, ids[n]);
      hide Good;
    }
  }

  // ---------------------------------------------------------------- one-to-one conversations

  /** A message from one task to one task. */
  predicate OneToOneMask(dest: nat, src: nat) {
    PopCount(dest) == 1 && PopCount(src) == 1
  }

  /** The environment holds a conversation: a message is only sent into the idle fabric, from one task to
      one task, nobody sends more than a block of payload, and whoever receives a message answers it or
      consumes it. */
  predicate Polite(s: State, e: Event) {
    match e
    case Send(_, draft) =>
      s.ops == map[] && s.tags == map[] && OneToOneMask(draft.dest, draft.src) && draft.size <= MAX_PAYLOAD
    case Respond(_, _, _, _, size) => size <= MAX_PAYLOAD
    case _ => true
  }

  predicate PoliteRun(s: State, es: seq<Event>)
    requires Runs(s, es)
    decreases |es|
  {
    es == [] || (Polite(s, es[0]) && PoliteRun(Apply(s, es[0]), es[1..]))
  }

  /** One message is going, and while a call works on it nobody else has a share of it. */
  ghost predicate TagsTalk(tags: map<nat, Tag>, busy: bool) {
    && (forall b :: b in tags ==> OneToOneMask(tags[b].draft.dest, tags[b].draft.src))
    && (forall b :: b in tags && tags[b].phase.Live? && busy ==> tags[b].phase.owed == {})
    && (forall b, c :: b in tags && c in tags && tags[b].phase.Live? && tags[c].phase.Live? ==> b == c)
  }

  /** One call at most is under way. */
  ghost predicate OpsTalk(ops: map<nat, Call>) {
    && (forall t, u :: t in ops && u in ops ==> t == u)
    && (forall t :: t in ops ==> Talking(ops[t]))
  }

  ghost predicate Conversation(s: State) {
    TagsTalk(s.tags, s.ops != map[]) && OpsTalk(s.ops)
  }

  ghost predicate Talking(call: Call) {
    && !call.at.Undo?
    && (call.at.ReadRequest? || call.at.AllocateMessage? ==> call.draft.size <= MAX_PAYLOAD)
    && (call.at.AllocateMessage? ==> OneToOneMask(call.draft.dest, call.draft.src))
  }

  /** While a call is under way, the only live message there can be is the one the call has a share of. */
  lemma OnlyTheRequestIsLive(s: State, t: nat, b: nat)
    requires Inv(s) && Conversation(s) && t in s.ops && b in s.tags && s.tags[b].phase.Live?
    ensures s.ops[t].share.Some? && s.ops[t].share.value.block == b
  {
    assert TagOk(s, b);
    var phase := s.tags[b].phase;
    assert phase.owed == {};
    assert phase.owed + phase.claims.Keys == phase.claims.Keys;
    var d :| d in phase.claims;
    assert phase.claims[d] in s.ops;
    assert phase.claims[d] == t;
  }

  lemma QuietIsLive(s: State, b: nat)
    requires Inv(s) && s.ops == map[] && b in s.tags
    ensures s.tags[b].phase.Live?
  {
    assert TagOk(s, b);
    hide Inv;
  }

  lemma QuietHasOne(s: State)
    requires Inv(s) && Conversation(s) && s.ops == map[]
    ensures |s.tags| <= 1
  {
    hide Inv, OneToOneMask;
    if b :| b in s.tags {
      QuietIsLive(s, b);
      forall c | c in s.tags ensures c == b {
        QuietIsLive(s, c);
      }
      Within(s.tags.Keys, {b});
    }
  }

  /** The blocks in use during a call are the one it answers or frees and the one it builds. */
  lemma BusyHasTwo(s: State, t: nat)
    requires Inv(s) && Conversation(s) && t in s.ops
    ensures |s.tags| <= 2 && (s.ops[t].at.AllocateMessage? ==> |s.tags| <= 1)
  {
    InUseDuring(s, t);
    assert OpOk(s, t);
    assert CallOk(s.ops[t]);
    hide Inv, Conversation, OpOk;
    var call := s.ops[t];
    var first := if call.last.Some? then call.last else if call.share.Some? then Some(call.share.value.block) else None;
    AtMostTwo(s.tags.Keys, first, call.built);
  }

  lemma AtMostTwo(xs: set<nat>, first: Option<nat>, second: Option<nat>)
    requires forall x :: x in xs ==> Some(x) == first || Some(x) == second
    ensures |xs| <= 2 && (second.None? ==> |xs| <= 1)
  {
    if first.Some? {
      if second.Some? {
        Within(xs, {first.value, second.value});
      } else {
        Within(xs, {first.value});
      }
    } else if second.Some? {
      Within(xs, {second.value});
    } else {
      assert xs == {};
    }
  }

  lemma InUseDuring(s: State, t: nat)
    requires Inv(s) && Conversation(s) && t in s.ops
    ensures forall b :: b in s.tags ==>
      || Some(b) == s.ops[t].built
      || (if s.ops[t].last.Some? then b == s.ops[t].last.value else s.ops[t].share.Some? && b == s.ops[t].share.value.block)
  {
    assert OpOk(s, t);
    forall b | b in s.tags
      ensures || Some(b) == s.ops[t].built
              || (if s.ops[t].last.Some? then b == s.ops[t].last.value else s.ops[t].share.Some? && b == s.ops[t].share.value.block)
    {
      assert TagOk(s, b);
      if s.tags[b].phase.Live? {
        OnlyTheRequestIsLive(s, t, b);
      }
    }
  }

  lemma Within(xs: set<nat>, ys: set<nat>)
    requires xs <= ys
    ensures |xs| <= |ys|
  {
    OneToOne(xs, map x | x in xs :: x, ys);
  }

  lemma FreeBlockLeft(pool: Pool)
    requires pool.Valid() && |pool.used| < |pool.Blocks()|
    ensures pool.free != {}
  {
    assert pool.free == {} ==> pool.Blocks() == pool.used;
  }

  /** Only the message being answered can hold a payload when a call asks for one. */
  lemma OnlyTheRequestHasPayload(s: State, t: nat, p: nat)
    requires Inv(s) && Conversation(s) && t in s.ops && s.ops[t].at.AllocatePayload? && p in s.owner
    ensures s.ops[t].share.Some? && MessageAt(s, s.ops[t].share.value.block).payload == Some(p)
  {
    assert OpOk(s, t) && OwnerOk(s, p);
    InUseDuring(s, t);
  }

  lemma OnePayloadAtMost(s: State, t: nat)
    requires Inv(s) && Conversation(s) && t in s.ops && s.ops[t].at.AllocatePayload?
    ensures |s.owner| <= 1
  {
    hide Inv, Conversation;
    var first := if s.ops[t].share.Some? then MessageAt(s, s.ops[t].share.value.block).payload else None;
    forall p | p in s.owner ensures Some(p) == first {
      OnlyTheRequestHasPayload(s, t, p);
    }
    AtMostTwo(s.owner.Keys, first, None);
  }

  /** An allocation in a conversation finds a free block in either pool. */
  ghost predicate NeverRefused(s: State) {
    && |s.messages.used| <= 2
    && (forall t :: t in s.ops && s.ops[t].at.AllocateMessage? ==>
        s.ops[t].draft.size <= MAX_PAYLOAD && s.messages.free != {})
    && (forall t :: t in s.ops && s.ops[t].at.AllocatePayload? ==> s.payloads.free != {})
  }

  ghost predicate RoomForTwo(s: State) {
    |s.messages.Blocks()| >= 2 && |s.payloads.Blocks()| >= 2
  }

  lemma PoolsMirror(s: State)
    requires Inv(s)
    ensures |s.messages.used| == |s.tags| && |s.payloads.used| == |s.owner| && s.messages.Valid() && s.payloads.Valid()
  {
    assert PoolsOk(s);
    hide Inv;
  }

  lemma CallIsServed(s: State, t: nat)
    requires Inv(s) && Conversation(s) && RoomForTwo(s) && t in s.ops
    ensures s.ops[t].at.AllocateMessage? ==> s.ops[t].draft.size <= MAX_PAYLOAD && s.messages.free != {}
    ensures s.ops[t].at.AllocatePayload? ==> s.payloads.free != {}
  {
    assert Talking(s.ops[t]);
    hide Inv, Conversation;
    PoolsMirror(s);
    BusyHasTwo(s, t);
    if s.ops[t].at.AllocateMessage? {
      FreeBlockLeft(s.messages);
    }
    if s.ops[t].at.AllocatePayload? {
      OnePayloadAtMost(s, t);
      FreeBlockLeft(s.payloads);
    }
  }

  lemma ConversationIsServed(s: State)
    requires Inv(s) && Conversation(s) && RoomForTwo(s)
    ensures NeverRefused(s)
  {
    hide Inv, Conversation, RoomForTwo;
    PoolsMirror(s);
    if s.ops == map[] {
      QuietHasOne(s);
    } else {
      var t :| t in s.ops;
      BusyHasTwo(s, t);
    }
    forall t | t in s.ops
      ensures s.ops[t].at.AllocateMessage? ==> s.ops[t].draft.size <= MAX_PAYLOAD && s.messages.free != {}
      ensures s.ops[t].at.AllocatePayload? ==> s.payloads.free != {}
    {
      CallIsServed(s, t);
    }
  }

  // ---------------------------------------------------------------- a conversation stays one

  lemma NothingElseOwed(s: State, share: Share)
    requires Inv(s) && Conversation(s) && Owed(s, share)
    ensures s.ops == map[] && s.tags[share.block].phase.owed == {share.bit}
  {
    var tag := s.tags[share.block];
    assert TagOk(s, share.block);
    BitsAreTheSetBits(tag.draft.dest);
    hide Inv;
    OneElement(tag.phase.owed, Bits(tag.draft.dest), share.bit);
  }

  lemma ClaimTalksTags(tags: map<nat, Tag>, b: nat, tag: Tag)
    requires TagsTalk(tags, false) && b in tags && tags[b].phase.Live?
    requires tag.draft == tags[b].draft && tag.phase.Live? && tag.phase.owed == {}
    ensures TagsTalk(tags[b := tag], true)
  {
  }

  lemma ClaimTalks(s: State, t: nat, share: Share, call: Call)
    requires Inv(s) && Conversation(s) && t !in s.ops && Owed(s, share) && Talking(call)
    ensures Conversation(ClaimStep(s, t, share, call))
  {
    hide Inv, OneToOneMask, Talking, TagsTalk;
    NothingElseOwed(s, share);
    var s' := ClaimStep(s, t, share, call);
    ClaimTalksTags(s.tags, share.block, s'.tags[share.block]);
    assert s'.ops == map[t := call];
    assert OpsTalk(map[t := call]);
    assert t in s'.ops;
  }

  lemma OneElement(xs: set<nat>, ys: set<nat>, x: nat)
    requires x in xs && xs <= ys && |ys| == 1
    ensures xs == {x}
  {
    var rest := ys - {x};
    assert ys == rest + {x};
    assert rest == {};
  }

  /** A message is passed on only when the call that made it ends, and the call goes on as it should. */
  ghost predicate StaysTalking(s: State, s': State, t: nat) {
    && s'.ops.Keys <= s.ops.Keys && (t in s'.ops ==> Talking(s'.ops[t]))
    && (t in s.ops && s.ops[t].share.Some? ==> t in s'.ops)
    && (forall b :: b in s'.tags && b in s.tags && s'.tags[b].phase.Live? && !s.tags[b].phase.Live? ==>
        s'.ops.Keys <= s.ops.Keys - {t})
  }

  /** The live message after a step is the one the call answers, or the one it has just passed on. */
  lemma LiveAfterStep(s: State, s': State, t: nat, b: nat)
    requires Inv(s) && Conversation(s) && t in s.ops && Settles(s, s', t) && StaysTalking(s, s', t)
    requires b in s'.tags && s'.tags[b].phase.Live?
    ensures b in s.tags && OneToOneMask(s'.tags[b].draft.dest, s'.tags[b].draft.src)
    ensures if s.tags[b].phase.Live?
            then s.ops[t].share.Some? && s.ops[t].share.value.block == b && s'.tags[b].phase.owed == {}
            else s'.ops == map[] && s.ops[t].built == Some(b)
  {
    assert TagOk(s, b);
    if s.tags[b].phase.Live? {
      OnlyTheRequestIsLive(s, t, b);
    } else {
      assert s'.ops.Keys <= {};
    }
    hide Inv, OneToOneMask, CallOk, BuildOk, FreeOk;
  }

  lemma SettlingTalksTags(s: State, s': State, t: nat)
    requires Inv(s) && Conversation(s) && t in s.ops && Settles(s, s', t) && StaysTalking(s, s', t)
    ensures TagsTalk(s'.tags, s'.ops != map[])
  {
    hide Inv, OneToOneMask;
    assert s.ops[t].share.Some? ==> t in s'.ops;
    hide StaysTalking;
    forall b | b in s'.tags && s'.tags[b].phase.Live?
      ensures if s.tags[b].phase.Live?
              then s.ops[t].share.Some? && s.ops[t].share.value.block == b && s'.tags[b].phase.owed == {}
              else s'.ops == map[] && s.ops[t].built == Some(b)
    {
      LiveAfterStep(s, s', t, b);
    }
  }

  /** What a step of the only call leaves of a conversation, when it creates no message. */
  lemma SettlingTalks(s: State, s': State, t: nat)
    requires Inv(s) && Conversation(s) && t in s.ops && Settles(s, s', t) && StaysTalking(s, s', t)
    ensures Conversation(s')
  {
    SettlingTalksTags(s, s', t);
    hide Inv, TagsTalk;
  }

  lemma FreeBlockIsFresh(s: State, b: nat)
    requires Inv(s) && b in s.messages.free
    ensures b !in s.tags
  {
    assert PoolsOk(s);
    hide Inv;
  }

  lemma TagsTalkGrows(tags: map<nat, Tag>, b: nat, tag: Tag)
    requires TagsTalk(tags, true) && b !in tags && tag.phase.Building? && OneToOneMask(tag.draft.dest, tag.draft.src)
    ensures TagsTalk(tags[b := tag], true)
  {
  }

  lemma AllocateTalks(s: State, t: nat, choice: nat)
    requires Inv(s) && Conversation(s) && t in s.ops && s.ops[t].at.AllocateMessage?
    requires s.ops[t].draft.size <= MAX_PAYLOAD && choice in s.messages.free
    ensures Conversation(AllocateMessageStep(s, t, s.ops[t], choice))
  {
    hide Inv, OneToOneMask, TagsTalk;
    FreeBlockIsFresh(s, choice);
    var s' := AllocateMessageStep(s, t, s.ops[t], choice);
    assert Talking(s.ops[t]);
    TagsTalkGrows(s.tags, choice, s'.tags[choice]);
    assert t in s'.ops;
  }

  lemma BuildStaysTalking(s: State, t: nat, choice: nat)
    requires t in s.ops && s.ops[t].at.Creating() && !s.ops[t].at.Undo?
    requires s.ops[t].at.AllocatePayload? ==> s.payloads.free != {}
    ensures StaysTalking(s, CreateOp(s, t, s.ops[t], choice), t)
  {
    hide MessageAt, PopCount, SourceBytes, Overwrite, IdOf, OneToOneMask;
  }

  lemma CountStaysTalking(s: State, t: nat)
    requires t in s.ops && s.ops[t].at.Decrement?
    ensures StaysTalking(s, DecrementStep(s, t, s.ops[t]), t)
  {
    hide CountMinusOne, IdOf, OneToOneMask;
  }

  lemma ReleaseStaysTalking(s: State, t: nat)
    requires t in s.ops && s.ops[t].at.Freeing() && s.ops[t].share.None?
    ensures StaysTalking(s, ReleasePayloadStep(s, t, s.ops[t]), t)
    ensures StaysTalking(s, ForgetPayloadStep(s, t, s.ops[t]), t)
  {
    hide IdOf, OneToOneMask;
  }

  lemma RemovalStaysTalking(s: State, t: nat)
    requires t in s.ops && s.ops[t].at.Freeing() && s.ops[t].share.None?
    ensures StaysTalking(s, ReleaseMessageStep(s, t, s.ops[t]), t)
  {
    hide IdOf, OneToOneMask;
  }

  lemma ReturnStaysTalking(s: State, t: nat)
    requires t in s.ops && s.ops[t].share.None?
    ensures StaysTalking(s, ReturnStep(s, t, s.ops[t]), t)
  {
    hide Bits, OneToOneMask;
  }

  lemma ReadRequestTalks(s: State, t: nat)
    requires Inv(s) && Conversation(s) && t in s.ops && s.ops[t].at.ReadRequest?
    ensures Conversation(ReadRequestStep(s, t, s.ops[t]))
  {
    assert OpOk(s, t) && Talking(s.ops[t]);
    assert TagOk(s, Counted(s, t));
    hide Inv, Carries, PendingOk, ClaimsOk, Readable;
  }

  lemma BuildTalks(s: State, t: nat, choice: nat)
    requires Inv(s) && Conversation(s) && RoomForTwo(s) && t in s.ops && s.ops[t].at.Creating()
    ensures Conversation(CreateOp(s, t, s.ops[t], choice))
  {
    assert OpOk(s, t) && Talking(s.ops[t]);
    hide Inv, Conversation, OpOk, RoomForTwo, CreateOp, Settles, StaysTalking;
    CallIsServed(s, t);
    CreateSettles(s, t, choice);
    BuildStaysTalking(s, t, choice);
    SettlingTalks(s, CreateOp(s, t, s.ops[t], choice), t);
  }

  lemma ConsumeTalks(s: State, t: nat)
    requires Inv(s) && Conversation(s) && t in s.ops && s.ops[t].at.Created()
    ensures Conversation(ConsumeOp(s, t, s.ops[t]))
  {
    assert OpOk(s, t);
    assert CallOk(s.ops[t]);
    hide Inv, Conversation, OpOk, DecrementStep, ReleasePayloadStep, ForgetPayloadStep, ReleaseMessageStep, ReturnStep,
         Settles, StaysTalking;
    ConsumeSettles(s, t);
    if s.ops[t].at.Decrement? {
      CountStaysTalking(s, t);
    } else if s.ops[t].at.Freeing() {
      ReleaseStaysTalking(s, t);
      RemovalStaysTalking(s, t);
    } else {
      ReturnStaysTalking(s, t);
    }
    SettlingTalks(s, ConsumeOp(s, t, s.ops[t]), t);
  }

  lemma StepTalks(s: State, t: nat, choice: nat)
    requires t in s.ops && Inv(s) && Conversation(s) && RoomForTwo(s) && Enabled(s, Step(t, choice))
    ensures Conversation(StepOp(s, t, choice))
  {
    hide Inv, Conversation, RoomForTwo, ConsumeOp, ReadRequestStep, AllocateMessageStep, FillHeaderStep, AllocatePayloadStep,
         UndoStep, CopyPayloadStep, ClearPayloadStep, SetCountStep, OneToOneMask;
    if s.ops[t].at.Created() {
      ConsumeTalks(s, t);
    } else if s.ops[t].at.Creating() {
      BuildTalks(s, t, choice);
    } else if s.ops[t].at.ReadRequest? {
      ReadRequestTalks(s, t);
    } else {
      CallIsServed(s, t);
      AllocateTalks(s, t, choice);
    }
  }

  lemma NoTagsTalk(tags: map<nat, Tag>)
    requires tags == map[]
    ensures TagsTalk(tags, true)
  {
  }

  lemma ApplyTalks(s: State, e: Event)
    requires Inv(s) && Conversation(s) && RoomForTwo(s) && Enabled(s, e) && Polite(s, e)
    ensures Conversation(Apply(s, e)) && RoomForTwo(Apply(s, e))
  {
    hide Inv, StepOp, OneToOneMask, TagsTalk;
    match e
    case Send(t, draft) =>
      assert s.tags == map[];
      NoTagsTalk(s.tags);
    case Consume(t, share) => ClaimTalks(s, t, share, ConsumeCall(share));
    case Respond(t, share, info, buffer, size) => ClaimTalks(s, t, share, RespondCall(share, info, buffer, size));
    case Step(t, choice) => StepTalks(s, t, choice); StepKeepsBlocks(s, t, choice);
    case Peek(_) =>
    case Scribble(_, _) =>
  }

  /** A one-to-one conversation of any length: on pools of at least two blocks, no call is ever refused a
      block, and no more than two messages are ever in use. */
  lemma {:induction false} ConversationNeverFails(s: State, es: seq<Event>)
    requires Inv(s) && Conversation(s) && RoomForTwo(s) && Runs(s, es) && PoliteRun(s, es)
    ensures NeverRefused(After(s, es))
    decreases |es|
  {
    hide Inv, Conversation, RoomForTwo, Enabled, Polite, Apply;
    if es == [] {
      ConversationIsServed(s);
    } else {
      ApplyKeeps(s, es[0]);
      ApplyTalks(s, es[0]);
      ConversationNeverFails(Apply(s, es[0]), es[1..]);
    }
  }

  lemma IdleIsAConversation(s: State)
    requires Initial(s)
    ensures Inv(s) && Conversation(s)
  {
    InitialInv(s);
  }
}
