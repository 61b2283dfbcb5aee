/**
  * The relay worker (`Worker`): the single writer of the paying account's cached account
  * number and sequence. Each call of `Step` processes the next dequeued message: refresh
  * the account if needed, send the message, classify the outcome, reply exactly once.
  */
module RelayWorker {
  import opened Common
  import opened FeeEstimation
  import opened TxBuilder

  /** ABCI code of `sdkerrors.ErrTxInMempoolCache` (already pending: treated as success). */
  const TxInMempoolCacheCode: nat := 19

  /** ABCI code of `sdkerrors.ErrWrongSequence` (stale cached sequence). */
  const WrongSequenceCode: nat := 32

  /** A queued request: the message and the EVM denomination for its fee. */
  datatype Msg = Msg(ethereumMsg: EthereumMsg, evmDenom: string)

  /**
    * Answer of `GetAccountNumberSequence` for the relay's address. A failed query still
    * returns a pair alongside its error (the SDK's retriever returns 0, 0), and the worker
    * assigns that pair before it tests the error.
    */
  datatype AccountAnswer = Account(number: nat, sequence: nat) | AccountQueryError(number: nat, sequence: nat)

  datatype RelayError =
    | AccountQueryFailed      // "failed to get account"
    | SendFailed(cause: SendError)
    | Abci(resp: TxResponse)  // the node's code, codespace and log as an error

  /** The reply delivered on the request's channel: a transaction hash or an error. */
  datatype Res = TxHashReply(txHash: Hash) | ErrorReply(error: RelayError)

  /** How the worker reads the outcome of `sendMsg`. */
  datatype Verdict = Submitted | Rejected(error: RelayError, resync: bool)

  /**
    * The outcome classification of the worker loop. The codespace is not consulted:
    * only the numeric code decides.
    */
  function Classify(sr: SendResult): (v: Verdict)
    requires sr.err.None? ==> sr.resp.Some?
    ensures v.Submitted? <==> sr.err.None? && (sr.resp.value.code == 0 || sr.resp.value.code == TxInMempoolCacheCode)
    ensures v.Rejected? ==> (v.resync <==> sr.err.None? && sr.resp.value.code == WrongSequenceCode)
    ensures sr.err.Some? ==> v.Rejected? && v.error == if sr.resp.Some? then Abci(sr.resp.value) else SendFailed(sr.err.value)
    ensures sr.err.None? && v.Rejected? ==> v.error == Abci(sr.resp.value)
  {
    if sr.err.Some? then
      Rejected(if sr.resp.Some? then Abci(sr.resp.value) else SendFailed(sr.err.value), false)
    else if sr.resp.value.code != 0 && sr.resp.value.code != TxInMempoolCacheCode then
      Rejected(Abci(sr.resp.value), sr.resp.value.code == WrongSequenceCode)
    else
      Submitted
  }

  /** The envelope `sendMsg` handed to the broadcaster, as a log entry. */
  function Broadcasts(sr: SendResult): (log: seq<CosmosTx>) {
    if sr.broadcast.Some? then [sr.broadcast.value] else []
  }

  // ---------------------------------------------------------------------------------
  // Runs of consecutive uint64 sequence numbers.

  /** xs are the uint64 values start, start+1, ... in order, wrapping at 2^64. */
  predicate IsRun(start: nat, xs: seq<nat>)
    decreases |xs|
  {
    |xs| == 0 || (xs[0] == Wrap64(start) && IsRun(start + 1, xs[1..]))
  }

  lemma {:induction false} RunElements(start: nat, xs: seq<nat>)
    ensures IsRun(start, xs) <==> forall i :: 0 <= i < |xs| ==> xs[i] == Wrap64(start + i)
    decreases |xs|
  {
    if |xs| > 0 {
      RunElements(start + 1, xs[1..]);
      assert forall i :: 1 <= i < |xs| ==> xs[i] == xs[1..][i - 1];
    }
  }

  /** A run extends by the next value. */
  lemma RunExtend(start: nat, xs: seq<nat>)
    requires IsRun(start, xs)
    ensures IsRun(start, xs + [Wrap64(start + |xs|)])
  {
    RunElements(start, xs);
    RunElements(start, xs + [Wrap64(start + |xs|)]);
  }

  /** Two values of a run at most 2^64 long never coincide: no sequence is used twice. */
  lemma RunHasNoRepeats(start: nat, xs: seq<nat>)
    requires IsRun(start, xs) && |xs| <= U64
    ensures forall i, j :: 0 <= i < j < |xs| ==> xs[i] != xs[j]
  {
    RunElements(start, xs);
    forall i, j | 0 <= i < j < |xs|
      ensures xs[i] != xs[j]
    {
      WrapDistinct(start + i, start + j);
    }
  }

  lemma WrapDistinct(m: nat, n: nat)
    requires m < n < m + U64
    ensures Wrap64(m) != Wrap64(n)
  {
    var qm, qn := m / U64, n / U64;
    assert m == qm * U64 + Wrap64(m);
    assert n == qn * U64 + Wrap64(n);
    assert (qn - qm) * U64 == n - m - (Wrap64(n) - Wrap64(m));
  }

  /** Without wrap-around a run is exactly the range start .. start+|xs|-1. */
  lemma RunIsRange(start: nat, xs: seq<nat>)
    requires IsRun(start, xs) && start + |xs| <= U64
    ensures forall i :: 0 <= i < |xs| ==> xs[i] == start + i
  {
    RunElements(start, xs);
  }

  // ---------------------------------------------------------------------------------
  // The worker.

  class Worker {
    /** The paying identity, fixed for the life of the worker. */
    const relay: Relay

    var accountNum: nat
    var accountSeq: nat
    /** True when the next message must first refresh the account number and sequence. */
    var getAccount: bool

    /** The sequence obtained by the latest account refresh. */
    ghost var runStart: nat
    /** The sequences used by successful submissions since the latest refresh. */
    ghost var run: seq<nat>
    /** Every envelope handed to the broadcaster, in order. */
    ghost var sent: seq<CosmosTx>

    ghost predicate Valid()
      reads this
    {
      && accountNum < U64 && accountSeq < U64 && runStart < U64
      && IsRun(runStart, run)
      // While a refresh is pending the cached sequence may hold a failed query's answer;
      // it is not used before the next refresh overwrites it.
      && (!getAccount ==> accountSeq == Wrap64(runStart + |run|))
    }

    constructor (relay: Relay)
      ensures Valid()
      ensures this.relay == relay
      ensures getAccount && accountNum == 0 && accountSeq == 0
      ensures run == [] && sent == []
    {
      this.relay := relay;
      accountNum, accountSeq, getAccount := 0, 0, true;
      runStart, run, sent := 0, [], [];
    }

    /**
      * Process one dequeued message and return its one reply. `account` is what the
      * account query answers if it is made; `world` answers everything `sendMsg` asks.
      */
    method Step(m: Msg, account: AccountAnswer, world: Collaborators) returns (res: Res)
      requires Valid()
      requires account.number < U64 && account.sequence < U64
      requires !DividesByZero(world.fees)
      modifies this
      ensures Valid()
      // A failed refresh: error reply, nothing built or sent, still waiting to refresh;
      // the cached pair holds what the failed query returned.
      ensures old(getAccount) && account.AccountQueryError? ==>
        && res == ErrorReply(AccountQueryFailed)
        && getAccount
        && accountNum == account.number && accountSeq == account.sequence
        && sent == old(sent) && run == old(run)
      // Otherwise the message is sent with the cached (or freshly queried) pair.
      ensures !(old(getAccount) && account.AccountQueryError?) ==>
        var refreshed := old(getAccount);
        var num := if refreshed then account.number else old(accountNum);
        var sq := if refreshed then account.sequence else old(accountSeq);
        var sr := SendMsg(relay, m.ethereumMsg, m.evmDenom, num, sq, world);
        var before := if refreshed then [] else old(run);
        && accountNum == num
        && sent == old(sent) + Broadcasts(sr)
        && match Classify(sr)
           case Submitted =>
             && res == TxHashReply(TxHash(m.ethereumMsg))
             && accountSeq == Wrap64(sq + 1)
             && !getAccount
             && run == before + [sq]
           case Rejected(e, resync) =>
             && res == ErrorReply(e)
             && accountSeq == sq
             && getAccount == resync
             && run == before
    {
      if getAccount {
        accountNum, accountSeq := account.number, account.sequence;
        if account.AccountQueryError? {
          res := ErrorReply(AccountQueryFailed);
          return;
        }
        getAccount := false;
        runStart, run := account.sequence, [];
      }

      var sr := SendMsg(relay, m.ethereumMsg, m.evmDenom, accountNum, accountSeq, world);
      sent := sent + Broadcasts(sr);
      if sr.err.Some? {
        res := ErrorReply(if sr.resp.Some? then Abci(sr.resp.value) else SendFailed(sr.err.value));
        return;
      }

      var resp := sr.resp.value;
      if resp.code != 0 && resp.code != TxInMempoolCacheCode {
        if resp.code == WrongSequenceCode {
          getAccount := true;
        }
        res := ErrorReply(Abci(resp));
        return;
      }

      res := TxHashReply(TxHash(m.ethereumMsg));
      RunExtend(runStart, run);
      WrapSucc(runStart + |run|);
      run := run + [accountSeq];
      accountSeq := Wrap64(accountSeq + 1);
    }
  }

  // ---------------------------------------------------------------------------------
  // Runs of the worker over several messages.

  /**
    * Messages that all succeed, as in the sequence test: the account is queried once, for
    * the first message, and the i-th envelope is signed with sequence start + i.
    */
  method RelayAll(relay: Relay, msgs: seq<Msg>, number: nat, start: nat, world: Collaborators)
    returns (replies: seq<Res>, ghost signed: seq<nat>)
    requires number < U64 && start + |msgs| <= U64
    requires !DividesByZero(world.fees)
    requires world.failing.None? && world.broadcast.Accepted? && world.broadcast.resp.code == 0
    requires forall i :: 0 <= i < |msgs| ==> CalculateFeePayerFees(msgs[i].ethereumMsg.gas, world.fees).Fee?
    ensures |replies| == |msgs|
    ensures forall i :: 0 <= i < |msgs| ==> replies[i] == TxHashReply(TxHash(msgs[i].ethereumMsg))
    ensures |signed| == |msgs|
    ensures forall i :: 0 <= i < |msgs| ==> signed[i] == start + i
  {
    var w := new Worker(relay);
    replies, signed := [], [];
    var i := 0;
    while i < |msgs|
      invariant 0 <= i <= |msgs|
      invariant w.Valid() && w.relay == relay
      invariant i == 0 ==> w.getAccount
      invariant i > 0 ==> !w.getAccount && w.accountNum == number && w.accountSeq == Wrap64(start + i)
      invariant |replies| == i && |signed| == i
      invariant forall k :: 0 <= k < i ==> replies[k] == TxHashReply(TxHash(msgs[k].ethereumMsg))
      invariant forall k :: 0 <= k < i ==> signed[k] == start + k
    {
      var sq := if i == 0 then start else w.accountSeq;
      var r := w.Step(msgs[i], Account(number, start), world);
      replies := replies + [r];
      signed := signed + [w.sent[|w.sent| - 1].signatures[0].sequence];
      assert signed[i] == sq;
      i := i + 1;
    }
  }

  /**
    * A wrong-sequence rejection followed by the next message: the rejected message gets
    * the node's error, and the next one is signed with the freshly queried sequence.
    */
  method ResyncAfterWrongSequence(relay: Relay, m1: Msg, m2: Msg, number: nat, stale: nat, requeried: nat,
                                  rejected: Collaborators, accepted: Collaborators)
    returns (r1: Res, r2: Res, ghost signed: seq<nat>)
    requires number < U64 && stale < U64 && requeried < U64
    requires !DividesByZero(rejected.fees) && !DividesByZero(accepted.fees)
    requires rejected.failing.None? && rejected.broadcast.Accepted? && rejected.broadcast.resp.code == WrongSequenceCode
    requires accepted.failing.None? && accepted.broadcast.Accepted? && accepted.broadcast.resp.code == 0
    requires CalculateFeePayerFees(m1.ethereumMsg.gas, rejected.fees).Fee?
    requires CalculateFeePayerFees(m2.ethereumMsg.gas, accepted.fees).Fee?
    ensures r1 == ErrorReply(Abci(rejected.broadcast.resp))
    ensures r2 == TxHashReply(TxHash(m2.ethereumMsg))
    ensures signed == [stale, requeried]
  {
    var w := new Worker(relay);
    r1 := w.Step(m1, Account(number, stale), rejected);
    assert w.getAccount && w.accountSeq == stale;
    r2 := w.Step(m2, Account(number, requeried), accepted);
    signed := [w.sent[0].signatures[0].sequence, w.sent[1].signatures[0].sequence];
  }

  /**
    * A failed account query followed by the next message: the pair the failed query left
    * in the cache is never signed with, because the next message queries again.
    */
  method RetryAfterFailedRefresh(relay: Relay, m1: Msg, m2: Msg, number: nat, sequence: nat,
                                 leftNumber: nat, leftSequence: nat, world: Collaborators)
    returns (r1: Res, r2: Res, ghost signed: seq<SignerData>)
    requires number < U64 && sequence < U64 && leftNumber < U64 && leftSequence < U64
    requires !DividesByZero(world.fees)
    requires world.failing.None? && world.broadcast.Accepted? && world.broadcast.resp.code == 0
    requires CalculateFeePayerFees(m2.ethereumMsg.gas, world.fees).Fee?
    ensures r1 == ErrorReply(AccountQueryFailed)
    ensures r2 == TxHashReply(TxHash(m2.ethereumMsg))
    ensures signed == [SignerData(relay.chainId, number, sequence)]
  {
    var w := new Worker(relay);
    r1 := w.Step(m1, AccountQueryError(leftNumber, leftSequence), world);
    assert w.sent == [];
    r2 := w.Step(m2, Account(number, sequence), world);
    signed := [w.sent[0].signatures[0].signerData];
  }
}
