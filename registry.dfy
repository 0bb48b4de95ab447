/** The registry entries of the treasury rebalance contract: the senders, whose
    approvals are recorded in the order they arrive, and the receivers, each
    with the amount allocated to it. Both are kept as ordered lists keyed by
    address, as the contract's storage arrays are. */
module Registry {

  /** An account address; address 0 is the zero address. */
  type Address = nat

  const ZeroAddress: Address := 0

  /** A registered sender and the admins that have approved it, in approval order. */
  datatype Sender = Sender(addr: Address, approvers: seq<Address>)

  /** A registered receiver and the amount allocated to it. */
  datatype Receiver = Receiver(addr: Address, amount: nat)

  /** No address occurs twice in `xs`. */
  predicate Distinct(xs: seq<Address>)
  {
    forall i, j :: 0 <= i < j < |xs| ==> xs[i] != xs[j]
  }

  /** No two senders share an address. */
  predicate UniqueSenders(ss: seq<Sender>)
  {
    forall i, j :: 0 <= i < j < |ss| ==> ss[i].addr != ss[j].addr
  }

  /** No two receivers share an address. */
  predicate UniqueReceivers(rs: seq<Receiver>)
  {
    forall i, j :: 0 <= i < j < |rs| ==> rs[i].addr != rs[j].addr
  }

  /** The position of the first sender registered under `a`, or -1 when there is none. */
  function SenderIndex(ss: seq<Sender>, a: Address): (i: int)
    ensures -1 <= i < |ss|
    ensures 0 <= i ==> ss[i].addr == a && forall k :: 0 <= k < i ==> ss[k].addr != a
    ensures i < 0 <==> forall k :: 0 <= k < |ss| ==> ss[k].addr != a
    ensures forall k :: 0 <= k < |ss| && ss[k].addr == a ==> 0 <= i <= k
    decreases |ss|
  {
    if |ss| == 0 then -1
    else if ss[0].addr == a then 0
    else
      var j := SenderIndex(ss[1..], a);
      if j < 0 then -1 else j + 1
  }

  /** The position of the first receiver registered under `a`, or -1 when there is none. */
  function ReceiverIndex(rs: seq<Receiver>, a: Address): (i: int)
    ensures -1 <= i < |rs|
    ensures 0 <= i ==> rs[i].addr == a && forall k :: 0 <= k < i ==> rs[k].addr != a
    ensures i < 0 <==> forall k :: 0 <= k < |rs| ==> rs[k].addr != a
    ensures forall k :: 0 <= k < |rs| && rs[k].addr == a ==> 0 <= i <= k
    decreases |rs|
  {
    if |rs| == 0 then -1
    else if rs[0].addr == a then 0
    else
      var j := ReceiverIndex(rs[1..], a);
      if j < 0 then -1 else j + 1
  }

  /** With unique addresses, the search finds every sender at its own position. */
  lemma SenderIndexOf(ss: seq<Sender>, k: nat)
    requires k < |ss| && UniqueSenders(ss)
    ensures SenderIndex(ss, ss[k].addr) == k
  {
  }

  /** With unique addresses, the search finds every receiver at its own position. */
  lemma ReceiverIndexOf(rs: seq<Receiver>, k: nat)
    requires k < |rs| && UniqueReceivers(rs)
    ensures ReceiverIndex(rs, rs[k].addr) == k
  {
  }

  /** `s` with its `i`-th element taken out; the others keep their relative order. */
  function Without<T>(s: seq<T>, i: nat): (r: seq<T>)
    requires i < |s|
    ensures |r| == |s| - 1
    ensures forall k :: 0 <= k < |r| ==> r[k] == if k < i then s[k] else s[k + 1]
    ensures multiset(r) == multiset(s) - multiset{s[i]}
  {
    assert s == s[..i] + [s[i]] + s[i + 1..];
    s[..i] + s[i + 1..]
  }

  /** Taking a sender out keeps the remaining addresses unique. */
  lemma UniqueSendersWithout(ss: seq<Sender>, i: nat)
    requires i < |ss| && UniqueSenders(ss)
    ensures UniqueSenders(Without(ss, i))
  {
  }

  /** Taking a receiver out keeps the remaining addresses unique. */
  lemma UniqueReceiversWithout(rs: seq<Receiver>, i: nat)
    requires i < |rs| && UniqueReceivers(rs)
    ensures UniqueReceivers(Without(rs, i))
  {
  }


  /** The total amount allocated to the receivers. */
  function SumAmounts(rs: seq<Receiver>): nat
  {
    if rs == [] then 0 else rs[0].amount + SumAmounts(rs[1..])
  }

  /** The total over a concatenation is the sum of the totals. */
  lemma {:induction false} SumAmountsConcat(a: seq<Receiver>, b: seq<Receiver>)
    ensures SumAmounts(a + b) == SumAmounts(a) + SumAmounts(b)
    decreases |a|
  {
    if a == [] {
      assert a + b == b;
    } else {
      assert (a + b)[1..] == a[1..] + b;
      SumAmountsConcat(a[1..], b);
    }
  }

  /** Registering a receiver at the end adds exactly its amount to the total. */
  lemma SumAmountsAppend(rs: seq<Receiver>, r: Receiver)
    ensures SumAmounts(rs + [r]) == SumAmounts(rs) + r.amount
  {
    SumAmountsConcat(rs, [r]);
    assert SumAmounts([r]) == r.amount + SumAmounts([]);
  }

  /** Removing a receiver takes exactly its amount off the total. */
  lemma SumAmountsWithout(rs: seq<Receiver>, i: nat)
    requires i < |rs|
    ensures SumAmounts(Without(rs, i)) + rs[i].amount == SumAmounts(rs)
  {
    var pre, post := rs[..i], rs[i + 1..];
    assert rs == pre + ([rs[i]] + post);
    assert Without(rs, i) == pre + post;
    SumAmountsConcat(pre, post);
    SumAmountsConcat(pre, [rs[i]] + post);
    assert ([rs[i]] + post)[1..] == post;
    assert SumAmounts([rs[i]] + post) == rs[i].amount + SumAmounts(post);
  }

  /** Linear search for `x` in `xs`, as the contract scans its address arrays. */
  method Contains(xs: seq<Address>, x: Address) returns (found: bool)
    ensures found <==> x in xs
  {
    var k := 0;
    while k < |xs|
      invariant 0 <= k <= |xs|
      invariant x !in xs[..k]
    {
      if xs[k] == x {
        return true;
      }
      assert xs[..k + 1] == xs[..k] + [xs[k]];
      k := k + 1;
    }
    assert xs[..k] == xs;
    found := false;
  }
}
