/** Oracle ledger, fault bound and leader schedule shared by every protocol. */
module Ledger {
  import opened Options

  /** Peer identifiers are compared with `localeCompare`, a total order: `rank` is the position in it. */
  datatype PeerId = PeerId(rank: nat)
  datatype Address = Address(id: nat)
  datatype PublicKey = PublicKey(id: nat)
  datatype OracleInfo = OracleInfo(peerId: PeerId, address: Address, publicKey: PublicKey)

  predicate ValidLedger(ledger: seq<OracleInfo>) {
    && 0 < |ledger|
    && (forall i, j :: 0 <= i < j < |ledger| ==> ledger[i].peerId != ledger[j].peerId)
    && (forall i, j :: 0 <= i < j < |ledger| ==> ledger[i].address != ledger[j].address)
  }

  function PeerIds(ledger: seq<OracleInfo>): set<PeerId> {
    set oracle | oracle in ledger :: oracle.peerId
  }

  /** The number of faulty oracles tolerated: the largest f with 3f + 1 <= n. */
  function ComputeF(nOracles: int): (f: int)
    ensures 3 * f + 1 <= nOracles < 3 * (f + 1) + 1
  {
    (nOracles - 1) / 3
  }

  function FaultBound(ledger: seq<OracleInfo>): int {
    ComputeF(|ledger|)
  }

  function LeaderForEpoch(ledger: seq<OracleInfo>, epoch: nat): (leader: PeerId)
    requires 0 < |ledger|
    ensures leader in PeerIds(ledger)
  {
    var index := epoch % |ledger|;
    assert ledger[index] in ledger;
    ledger[index].peerId
  }

  /** First ledger entry of a peer, as `Array.find` returns it. */
  function FindByPeer(ledger: seq<OracleInfo>, peer: PeerId): (found: Option<OracleInfo>)
    ensures found.Some? ==> found.value in ledger && found.value.peerId == peer
    ensures found.None? <==> peer !in PeerIds(ledger)
  {
    if ledger == [] then None
    else if ledger[0].peerId == peer then Some(ledger[0])
    else
      assert PeerIds(ledger) == {ledger[0].peerId} + PeerIds(ledger[1..]);
      FindByPeer(ledger[1..], peer)
  }

  function FindByAddress(ledger: seq<OracleInfo>, address: Address): (found: Option<OracleInfo>)
    ensures found.Some? ==> found.value in ledger && found.value.address == address
    ensures found.None? ==> forall oracle :: oracle in ledger ==> oracle.address != address
  {
    if ledger == [] then None
    else if ledger[0].address == address then Some(ledger[0])
    else FindByAddress(ledger[1..], address)
  }

  /** In a valid ledger both lookups are inverse to the fields they search. */
  lemma LookupsAgree(ledger: seq<OracleInfo>, info: OracleInfo)
    requires ValidLedger(ledger) && info in ledger
    ensures FindByPeer(ledger, info.peerId) == Some(info)
    ensures FindByAddress(ledger, info.address) == Some(info)
  {
    assert info.peerId in PeerIds(ledger);
    var byPeer := FindByPeer(ledger, info.peerId).value;
    var byAddress := FindByAddress(ledger, info.address).value;
    var i :| 0 <= i < |ledger| && ledger[i] == info;
    var j :| 0 <= j < |ledger| && ledger[j] == byPeer;
    var k :| 0 <= k < |ledger| && ledger[k] == byAddress;
  }

  lemma {:induction false} LedgerSize(ledger: seq<OracleInfo>)
    requires forall i, j :: 0 <= i < j < |ledger| ==> ledger[i].peerId != ledger[j].peerId
    ensures |PeerIds(ledger)| == |ledger|
  {
    if ledger != [] {
      var rest := ledger[1..];
      LedgerSize(rest);
      assert PeerIds(ledger) == {ledger[0].peerId} + PeerIds(rest);
      assert ledger[0].peerId !in PeerIds(rest);
    }
  }

  // ----- Quorums -----

  lemma {:induction false} SubsetSize<T>(a: set<T>, b: set<T>)
    requires a <= b
    ensures |a| <= |b|
  {
    if a != {} {
      var x :| x in a;
      SubsetSize(a - {x}, b - {x});
    }
  }

  lemma ProperSubsetSize<T>(a: set<T>, b: set<T>)
    requires a < b
    ensures |a| < |b|
  {
    var x :| x in b && x !in a;
    SubsetSize(a, b - {x});
  }

  /** Removing the faulty members leaves a quorum with its size reduced by at most their number. */
  lemma CorrectPartSize<T>(quorum: set<T>, faulty: set<T>)
    ensures |quorum - faulty| >= |quorum| - |faulty|
  {
    SubsetSize(quorum, (quorum - faulty) + faulty);
  }

  lemma QuorumHasCorrect<T>(quorum: set<T>, faulty: set<T>) returns (p: T)
    requires |quorum| > |faulty|
    ensures p in quorum && p !in faulty
  {
    CorrectPartSize(quorum, faulty);
    p :| p in quorum - faulty;
  }

  /** At most f faulty oracles leave at least 2f + 1 correct ones. */
  lemma CorrectMajority(ledger: seq<OracleInfo>, faulty: set<PeerId>)
    requires ValidLedger(ledger) && |faulty| <= FaultBound(ledger)
    ensures |PeerIds(ledger) - faulty| >= 2 * FaultBound(ledger) + 1
    ensures 0 <= FaultBound(ledger)
  {
    LedgerSize(ledger);
    CorrectPartSize(PeerIds(ledger), faulty);
  }

  // ----- Leader rotation -----

  /** Over any n consecutive epochs, every oracle leads exactly once. */
  lemma FairRotation(ledger: seq<OracleInfo>, start: nat, oracle: PeerId)
    requires ValidLedger(ledger) && oracle in PeerIds(ledger)
    ensures exists e :: start <= e < start + |ledger| && LeaderForEpoch(ledger, e) == oracle
    ensures forall d, e ::
      start <= d < e < start + |ledger| ==>
      LeaderForEpoch(ledger, d) != oracle || LeaderForEpoch(ledger, e) != oracle
  {
    var n := |ledger|;
    var i :| 0 <= i < n && ledger[i].peerId == oracle;
    var e := EpochOfIndex(n, start, i);
    assert LeaderForEpoch(ledger, e) == oracle;
    forall c, d | start <= c < d < start + n
      ensures LeaderForEpoch(ledger, c) != LeaderForEpoch(ledger, d)
    {
      LeadersDistinct(ledger, c, d);
    }
  }

  /** The ledger leads in its own order, over and over: entry `i` leads the i-th epoch of every turn. */
  lemma LeaderOfTurn(ledger: seq<OracleInfo>, turn: nat, i: nat)
    requires i < |ledger|
    ensures 0 <= turn * |ledger| + i
    ensures LeaderForEpoch(ledger, turn * |ledger| + i) == ledger[i].peerId
  {
    RemainderOf(|ledger|, turn, i);
  }

  lemma LeadersDistinct(ledger: seq<OracleInfo>, c: nat, d: nat)
    requires ValidLedger(ledger) && c < d < c + |ledger|
    ensures LeaderForEpoch(ledger, c) != LeaderForEpoch(ledger, d)
  {
    DistinctRemainders(|ledger|, c, d);
  }

  lemma EpochOfIndex(n: nat, start: nat, i: nat) returns (e: nat)
    requires i < n
    ensures start <= e < start + n && e % n == i
  {
    var r := start % n;
    e := if r <= i then start + (i - r) else start + (n - r + i);
    var q := start / n;
    assert start == q * n + r;
    if r <= i {
      assert e == q * n + i;
      RemainderOf(n, q, i);
    } else {
      assert e == q * n + n + i;
      assert (q + 1) * n == q * n + n;
      RemainderOf(n, q + 1, i);
    }
  }

  lemma NoMultipleBetween(k: int, n: nat)
    ensures k * n <= 0 || k * n >= n
  {
    if k > 1 {
      NoMultipleBetween(k - 1, n);
      assert k * n == (k - 1) * n + n;
    }
  }

  lemma DivisionUnique(n: nat, q: int, r: nat, q': int, r': nat)
    requires r < n && r' < n && q * n + r == q' * n + r'
    ensures r == r'
  {
    assert (q - q') * n == q * n - q' * n;
    assert (q' - q) * n == q' * n - q * n;
    NoMultipleBetween(q - q', n);
    NoMultipleBetween(q' - q, n);
  }

  lemma RemainderOf(n: nat, q: nat, r: nat)
    requires r < n
    ensures (q * n + r) % n == r
  {
    var x := q * n + r;
    DivisionUnique(n, q, r, x / n, x % n);
  }

  lemma DistinctRemainders(n: nat, c: nat, d: nat)
    requires 0 < n && c < d < c + n
    ensures c % n != d % n
  {
    var q, p := c / n, d / n;
    assert (p - q) * n == p * n - q * n;
    NoMultipleBetween(p - q, n);
  }

  /** The first `count` values of an injective schedule from `start` on. */
  lemma {:induction false} DistinctValues<T>(schedule: nat -> T, start: nat, count: nat) returns (values: set<T>)
    requires forall c: nat, d: nat :: start <= c < d < start + count ==> schedule(c) != schedule(d)
    ensures |values| == count
    ensures forall v :: v in values ==> exists e: nat :: start <= e < start + count && schedule(e) == v
  {
    if count == 0 {
      values := {};
    } else {
      var first := DistinctValues(schedule, start, count - 1);
      values := first + {schedule(start + count - 1)};
    }
  }

  /** Any f + 1 consecutive epochs include one led by a correct oracle. */
  lemma CorrectLeaderSoon(ledger: seq<OracleInfo>, faulty: set<PeerId>, start: nat)
    requires ValidLedger(ledger) && |faulty| <= FaultBound(ledger)
    ensures exists e ::
      start <= e <= start + FaultBound(ledger) && LeaderForEpoch(ledger, e) in PeerIds(ledger) - faulty
  {
    var f := FaultBound(ledger);
    var schedule := (e: nat) => LeaderForEpoch(ledger, e);
    forall c: nat, d: nat | start <= c < d < start + (f + 1) ensures schedule(c) != schedule(d) {
      LeadersDistinct(ledger, c, d);
    }
    var leaders := DistinctValues(schedule, start, f + 1);
    var p := QuorumHasCorrect(leaders, faulty);
    var e: nat :| start <= e < start + (f + 1) && schedule(e) == p;
    assert LeaderForEpoch(ledger, e) == p;
  }
}
