/** Header acceptance with its rules on target and time filled in (src/chain/chainstate.cpp:591-594). */
module HeaderSyncs {
  import opened Types
  import opened Replay
  import opened BlockTree
  import opened ChainSteps
  import opened Chainstates
  import opened HeaderRules
  import opened Pow

  function InfoOf(h: Header): (i: HeaderInfo)
    ensures i == HeaderInfo(h.time, h.bits)
  {
    HeaderInfo(h.time, h.bits)
  }

  /** If `policy` is only given to headers that meet the rules, every header of the tree meets them, whatever arrives.
      */
  method AcceptRuled(cs: Chainstate, h: Header, policy: bool, ghost infos: Infos, ghost limit: nat, ghost now: int)
    returns (r: HeaderResult, ghost after: Infos)
    requires cs.Valid() && HeadersOk(cs.nodes, cs.genesis, infos, limit)
               && now + MAX_FUTURE_DRIFT < 0x8000_0000_0000_0000
    requires TreeOk(cs.nodes, cs.genesis) && infos.Keys == cs.nodes.Keys
    requires policy && h.prev in cs.nodes ==> HeaderOk(Back(cs.nodes, cs.genesis, infos, h.prev), InfoOf(h), limit, now)
    modifies cs`nodes, cs`children, cs`nextSeq, cs`bestHeader
    ensures cs.Valid() && HeadersOk(cs.nodes, cs.genesis, after, limit)
    ensures after == if r == NewHeader then infos[cs.env.headerHash(h) := InfoOf(h)] else infos
  {
    hide *;
    var t, x := cs.nodes, cs.env.headerHash(h);
    TakenIff(cs.nodes, cs.genesis, cs.chain, cs.failed, x, h.prev, policy);
    r, x := cs.AcceptHeader(h, policy);
    after := infos;
    if r == NewHeader {
      after := infos[x := InfoOf(h)];
      AppendedRuled(t, cs.nodes, cs.genesis, infos, limit, h.prev, x, cs.env.workOf(h.bits), old(cs.nextSeq), InfoOf(h),
                    now);
    }
  }

  lemma AppendedRuled(t: Tree, t': Tree, root: Hash, infos: Infos, limit: nat, p: Hash, x: Hash, work: nat, seqNo: nat,
                      h: HeaderInfo, now: int)
    requires HeadersOk(t, root, infos, limit) && TreeOk(t, root) && infos.Keys == t.Keys && p in t && x in t'
               && Appended(t, t', p, x, work, seqNo)
    requires HeaderOk(Back(t, root, infos, p), h, limit, now) && now + MAX_FUTURE_DRIFT < 0x8000_0000_0000_0000
    ensures HeadersOk(t', root, infos[x := h], limit)
  {
    hide HeadersOk, HeaderOk;
    HeaderAdded(t, root, infos, limit, p, x, t'[x], h, now);
  }
}
