/**
 After a batch of buy orders ends in a timeout, nobody knows which of them
 exist. The reconciliation looks for each submitted order among the open orders of its token
 and takes the first match not taken before. It is a greedy matching; here it is shown to be safe
 for any answers of the exchange, and a maximum matching when all answers describe one book.
 */
module Reconcile {
  import opened Common
  import opened Decimals

  type TokenId = string
  type OrderId = string

  datatype OrderSpec = OrderSpec(token: TokenId, price: real, size: real, tickSize: real)

  datatype OpenOrder = OpenOrder(id: OrderId, price: real, originalSize: real, side: Side, createdAt: int)

  const MAX_AGE_SECS: int := 10

  /** What the exchange would have received for a spec: token, price cut to a tick, size cut to two decimals. */
  datatype Key = Key(token: TokenId, price: real, size: real)

  function KeyOf(s: OrderSpec): Key {
    Key(s.token, RoundDownToTick(s.price, s.tickSize), QuantizeSize(s.size))
  }

  function KeysOf(orders: seq<OrderSpec>): (keys: seq<Key>)
    ensures |keys| == |orders|
  {
    seq(|orders|, i requires 0 <= i < |orders| => KeyOf(orders[i]))
  }

  /** Recent buys only. */
  predicate Recent(o: OpenOrder, now: int) {
    NumSeconds(now - o.createdAt) < MAX_AGE_SECS && o.side == Buy
  }

  predicate Matches(o: OpenOrder, k: Key, now: int) {
    Recent(o, now) && o.price == k.price && o.originalSize == k.size
  }

  // ----- what is submitted -----

  /** Why an order may be left out of the batch, apart from its size and price: backoff, bad token, build, signature. */
  datatype Preparation = Signed | BackedOff | BadToken | BuildFailed | SignFailed

  predicate Submitted(s: OrderSpec, p: Preparation) {
    p == Signed && QuantizeSize(s.size) >= MIN_ORDER_SHARES && RoundDownToTick(s.price, s.tickSize) > 0.0
  }

  ghost predicate StrictlyIncreasing(s: seq<nat>) {
    forall i, j :: 0 <= i < j < |s| ==> s[i] < s[j]
  }

  ghost predicate InRange(valid: seq<nat>, n: nat) {
    forall k :: 0 <= k < |valid| ==> valid[k] < n
  }

  /** The indices of the orders that go into the batch, in order. */
  method ValidIndices(orders: seq<OrderSpec>, prepared: seq<Preparation>) returns (valid: seq<nat>)
    requires |prepared| == |orders|
    ensures StrictlyIncreasing(valid) && InRange(valid, |orders|)
    ensures forall i :: i in valid <==> 0 <= i < |orders| && Submitted(orders[i], prepared[i])
  {
    valid := [];
    var i := 0;
    while i < |orders|
      invariant 0 <= i <= |orders|
      invariant StrictlyIncreasing(valid) && InRange(valid, i)
      invariant forall k :: k in valid <==> 0 <= k < i && Submitted(orders[k], prepared[k])
    {
      if Submitted(orders[i], prepared[i]) {
        valid := valid + [i];
      }
      i := i + 1;
    }
  }

  // ----- the greedy loop -----

  /** An answer to one query for the open orders of a token; the query may fail. */
  type Answer = Option<seq<OpenOrder>>

  /** First order of an answer that matches and has not been taken. */
  method FirstMatch(open: seq<OpenOrder>, k: Key, now: int, seen: set<OrderId>) returns (found: Option<OpenOrder>)
    ensures found.Some? ==> found.value in open && Matches(found.value, k, now) && found.value.id !in seen
    ensures found.None? ==> forall o :: o in open && Matches(o, k, now) ==> o.id in seen
  {
    var i := 0;
    while i < |open|
      invariant 0 <= i <= |open|
      invariant forall j :: 0 <= j < i && Matches(open[j], k, now) ==> open[j].id in seen
    {
      if open[i].id !in seen && Matches(open[i], k, now) {
        return Some(open[i]);
      }
      i := i + 1;
    }
    found := None;
  }

  datatype Pair = Pair(index: nat, id: OrderId)

  /** The pair stands on an answer: the id was listed for the token of the spec and agrees with what was sent. */
  ghost predicate Supported(p: Pair, keys: seq<Key>, valid: seq<nat>, answers: seq<Answer>, now: int)
    requires |answers| == |valid|
  {
    exists k, o :: 0 <= k < |valid| && valid[k] == p.index && p.index < |keys|
                   && answers[k].Some? && o in answers[k].value && o.id == p.id && Matches(o, keys[p.index], now)
  }

  ghost predicate DistinctPairs(m: seq<Pair>) {
    && (forall i, j :: 0 <= i < j < |m| ==> m[i].index < m[j].index)
    && (forall i, j :: 0 <= i < j < |m| ==> m[i].id != m[j].id)
  }

  function Ids(m: seq<Pair>): set<OrderId> {
    set p | p in m :: p.id
  }

  function Indices(m: seq<Pair>): set<nat> {
    set p | p in m :: p.index
  }

  /** The index was left unmatched although the k-th query listed only orders that others hold. */
  ghost predicate Exhausted(k: nat, keys: seq<Key>, valid: seq<nat>, answers: seq<Answer>, taken: set<OrderId>, now: int)
    requires k < |valid| == |answers| && valid[k] < |keys|
  {
    answers[k].Some? ==> forall o :: o in answers[k].value && Matches(o, keys[valid[k]], now) ==> o.id in taken
  }

  /**
   For every submitted order in turn, query its token and take the first match. Whatever the queries
   answer, indices come out in order, no order id is given out twice, every pair is supported by an answer, and
   a submitted order is only left out when everything that would fit it is taken.
   */
  method ReconcileOrders(keys: seq<Key>, valid: seq<nat>, answers: seq<Answer>, now: int) returns (m: seq<Pair>)
    requires |answers| == |valid| && StrictlyIncreasing(valid) && InRange(valid, |keys|)
    ensures DistinctPairs(m)
    ensures forall p :: p in m ==> Supported(p, keys, valid, answers, now)
    ensures forall k :: 0 <= k < |valid| && valid[k] !in Indices(m) ==> Exhausted(k, keys, valid, answers, Ids(m), now)
  {
    m := [];
    var seen: set<OrderId> := {};
    var k := 0;
    while k < |valid|
      invariant 0 <= k <= |valid|
      invariant DistinctPairs(m) && seen == Ids(m)
      invariant forall p :: p in m ==> Supported(p, keys, valid, answers, now)
      invariant k < |valid| ==> forall p :: p in m ==> p.index < valid[k]
      invariant forall p :: p in m ==> exists j :: 0 <= j < k && valid[j] == p.index
      invariant forall j :: 0 <= j < k && valid[j] !in Indices(m) ==> Exhausted(j, keys, valid, answers, seen, now)
    {
      var index := valid[k];
      assert index in valid;
      var found: Option<OpenOrder> := None;
      if answers[k].Some? {
        found := FirstMatch(answers[k].value, keys[index], now, seen);
      }
      if found.Some? {
        TakePair(m, Pair(index, found.value.id));
        assert Supported(Pair(index, found.value.id), keys, valid, answers, now);
        m := m + [Pair(index, found.value.id)];
        seen := seen + {found.value.id};
      }
      k := k + 1;
    }
  }

  lemma TakePair(m: seq<Pair>, p: Pair)
    requires DistinctPairs(m) && p.id !in Ids(m) && forall q :: q in m ==> q.index < p.index
    ensures DistinctPairs(m + [p])
    ensures Ids(m + [p]) == Ids(m) + {p.id} && Indices(m + [p]) == Indices(m) + {p.index}
    ensures forall q :: q in m + [p] <==> q in m || q == p
  {
    forall i | 0 <= i < |m| ensures m[i].id != p.id && m[i].index < p.index {
      assert m[i] in m;
    }
  }

  // ----- one book -----

  /** All queries answered from one snapshot, in which no order id is listed twice. */
  ghost predicate OneBook(keys: seq<Key>, valid: seq<nat>, answers: seq<Answer>, book: map<TokenId, seq<OpenOrder>>)
    requires |answers| == |valid| && InRange(valid, |keys|)
  {
    && (forall k :: 0 <= k < |valid| ==>
          keys[valid[k]].token in book && answers[k] == Some(book[keys[valid[k]].token]))
    && (forall t, u, o, p :: t in book && u in book && o in book[t] && p in book[u] && o.id == p.id ==> t == u && o == p)
  }

  /** The open order an id stands for fits the spec of the index. */
  ghost predicate Fits(i: nat, id: OrderId, keys: seq<Key>, book: map<TokenId, seq<OpenOrder>>, now: int)
    requires i < |keys|
  {
    keys[i].token in book && exists o :: o in book[keys[i].token] && o.id == id && Matches(o, keys[i], now)
  }

  /** Any way at all to assign open orders to submitted ones: at most one each, and every pair fits. */
  ghost predicate Assignment(a: map<nat, OrderId>, keys: seq<Key>, valid: seq<nat>, book: map<TokenId, seq<OpenOrder>>, now: int)
    requires InRange(valid, |keys|)
  {
    && (forall i :: i in a ==> i in valid && Fits(i, a[i], keys, book, now))
    && (forall i, j :: i in a && j in a && i != j ==> a[i] != a[j])
  }

  ghost function AsMap(m: seq<Pair>): map<nat, OrderId>
    requires DistinctPairs(m)
  {
    map i | i in Indices(m) :: IdAt(m, i)
  }

  ghost function IdAt(m: seq<Pair>, i: nat): OrderId
    requires DistinctPairs(m) && i in Indices(m)
  {
    var p :| p in m && p.index == i;
    p.id
  }

  lemma IdAtIs(m: seq<Pair>, p: Pair)
    requires DistinctPairs(m) && p in m
    ensures p.index in Indices(m) && IdAt(m, p.index) == p.id
  {
    var q :| q in m && q.index == p.index && IdAt(m, p.index) == q.id;
    var i :| 0 <= i < |m| && m[i] == p;
    var j :| 0 <= j < |m| && m[j] == q;
  }

  lemma FitsSameKey(i: nat, j: nat, id: OrderId, keys: seq<Key>, book: map<TokenId, seq<OpenOrder>>, now: int)
    requires i < |keys| && j < |keys| && keys[i] == keys[j] && Fits(i, id, keys, book, now)
    ensures Fits(j, id, keys, book, now)
  {
  }

  lemma SupportedFits(p: Pair, keys: seq<Key>, valid: seq<nat>, answers: seq<Answer>,
                      book: map<TokenId, seq<OpenOrder>>, now: int)
    requires |answers| == |valid| && InRange(valid, |keys|) && OneBook(keys, valid, answers, book)
    requires Supported(p, keys, valid, answers, now)
    ensures p.index in valid && Fits(p.index, p.id, keys, book, now)
  {
    var k, o :| 0 <= k < |valid| && valid[k] == p.index && p.index < |keys|
                && answers[k].Some? && o in answers[k].value && o.id == p.id && Matches(o, keys[p.index], now);
    assert answers[k].value == book[keys[p.index].token];
  }

  lemma IdsDiffer(m: seq<Pair>, i: nat, j: nat)
    requires DistinctPairs(m) && i in Indices(m) && j in Indices(m) && i != j
    ensures IdAt(m, i) != IdAt(m, j)
  {
    var p :| p in m && p.index == i;
    var q :| q in m && q.index == j;
    IdAtIs(m, p);
    IdAtIs(m, q);
    var x :| 0 <= x < |m| && m[x] == p;
    var y :| 0 <= y < |m| && m[y] == q;
  }

  /** What the loop returns is one of the assignments. */
  lemma GreedyIsAssignment(m: seq<Pair>, keys: seq<Key>, valid: seq<nat>, answers: seq<Answer>,
                           book: map<TokenId, seq<OpenOrder>>, now: int)
    requires |answers| == |valid| && InRange(valid, |keys|) && OneBook(keys, valid, answers, book)
    requires DistinctPairs(m) && forall p :: p in m ==> Supported(p, keys, valid, answers, now)
    ensures Assignment(AsMap(m), keys, valid, book, now)
  {
    var a := AsMap(m);
    forall i | i in a ensures i in valid && Fits(i, a[i], keys, book, now) {
      var p :| p in m && p.index == i;
      IdAtIs(m, p);
      SupportedFits(p, keys, valid, answers, book, now);
    }
    forall i, j | i in a && j in a && i != j ensures a[i] != a[j] {
      IdsDiffer(m, i, j);
    }
  }

  // ----- counting -----

  /** Distinct ids: the assigned ids are as many as the indices they are assigned to. */
  lemma {:induction false} ImageSize(a: map<nat, OrderId>, s: set<nat>)
    requires s <= a.Keys && forall i, j :: i in a && j in a && i != j ==> a[i] != a[j]
    ensures |set i | i in s :: a[i]| == |s|
    decreases |s|
  {
    if s == {} {
      assert (set i | i in s :: a[i]) == {};
    } else {
      var x :| x in s;
      ImageSize(a, s - {x});
      assert (set i | i in s :: a[i]) == (set i | i in s - {x} :: a[i]) + {a[x]};
    }
  }

  lemma {:induction false} SubsetSize<T>(s: set<T>, t: set<T>)
    requires s <= t
    ensures |s| <= |t|
  {
    if s != {} {
      var x :| x in s;
      SubsetSize(s - {x}, t - {x});
    }
  }

  lemma PartSizes<T>(s: set<T>, part: set<T>)
    requires part <= s
    ensures |s| == |part| + |s - part|
  {
    assert s == part + (s - part);
  }

  /** Some index of this key went without an order. */
  ghost predicate Starved(key: Key, a: map<nat, OrderId>, keys: seq<Key>, valid: seq<nat>)
    requires InRange(valid, |keys|)
  {
    exists i :: i in valid && i !in a && keys[i] == key
  }

  /** The indices of an assignment whose key the greedy matching starved. */
  ghost function StarvedPart(b: map<nat, OrderId>, a: map<nat, OrderId>, keys: seq<Key>, valid: seq<nat>): set<nat>
    requires InRange(valid, |keys|)
    requires b.Keys <= set i | i in valid
  {
    set i | i in b && Starved(keys[i], a, keys, valid)
  }

  /** When an index of a key goes without, every order that fits the key is given out, and to an index of that key. */
  ghost predicate Saturated(a: map<nat, OrderId>, keys: seq<Key>, valid: seq<nat>, book: map<TokenId, seq<OpenOrder>>, now: int)
    requires InRange(valid, |keys|)
  {
    forall i, id :: i in valid && i !in a && Fits(i, id, keys, book, now) ==>
      exists j :: j in a && a[j] == id && j < |keys| && keys[j] == keys[i]
  }

  lemma SupportingOrder(p: Pair, keys: seq<Key>, valid: seq<nat>, answers: seq<Answer>,
                        book: map<TokenId, seq<OpenOrder>>, now: int)
    returns (o: OpenOrder)
    requires |answers| == |valid| && InRange(valid, |keys|) && OneBook(keys, valid, answers, book)
    requires Supported(p, keys, valid, answers, now)
    ensures p.index in valid && p.index < |keys| && keys[p.index].token in book
    ensures o in book[keys[p.index].token] && o.id == p.id && Matches(o, keys[p.index], now)
  {
    var k, found :| 0 <= k < |valid| && valid[k] == p.index && p.index < |keys|
                    && answers[k].Some? && found in answers[k].value && found.id == p.id && Matches(found, keys[p.index], now);
    assert answers[k].value == book[keys[p.index].token];
    o := found;
  }

  lemma TakenByItsKey(m: seq<Pair>, p: Pair, k: nat, o: OpenOrder, keys: seq<Key>, valid: seq<nat>, answers: seq<Answer>,
                      book: map<TokenId, seq<OpenOrder>>, now: int)
    requires |answers| == |valid| && InRange(valid, |keys|) && OneBook(keys, valid, answers, book)
    requires DistinctPairs(m) && p in m && Supported(p, keys, valid, answers, now)
    requires k < |valid| && p.id == o.id
    requires o in book[keys[valid[k]].token] && Matches(o, keys[valid[k]], now)
    ensures p.index in AsMap(m) && AsMap(m)[p.index] == o.id && p.index < |keys| && keys[p.index] == keys[valid[k]]
  {
    var q := SupportingOrder(p, keys, valid, answers, book, now);
    assert keys[p.index].token == keys[valid[k]].token && q == o;
    IdAtIs(m, p);
  }

  lemma GreedySaturates(m: seq<Pair>, keys: seq<Key>, valid: seq<nat>, answers: seq<Answer>,
                        book: map<TokenId, seq<OpenOrder>>, now: int)
    requires |answers| == |valid| && InRange(valid, |keys|) && OneBook(keys, valid, answers, book)
    requires DistinctPairs(m) && forall p :: p in m ==> Supported(p, keys, valid, answers, now)
    requires forall k :: 0 <= k < |valid| && valid[k] !in Indices(m) ==> Exhausted(k, keys, valid, answers, Ids(m), now)
    ensures Saturated(AsMap(m), keys, valid, book, now)
  {
    var a := AsMap(m);
    forall i, id | i in valid && i !in a && Fits(i, id, keys, book, now)
      ensures exists j :: j in a && a[j] == id && j < |keys| && keys[j] == keys[i]
    {
      var k :| 0 <= k < |valid| && valid[k] == i;
      var j := GivenOut(m, k, id, keys, valid, answers, book, now);
    }
  }

  /** An order that fits an unmatched submission is held by a submission of the same key. */
  lemma GivenOut(m: seq<Pair>, k: nat, id: OrderId, keys: seq<Key>, valid: seq<nat>, answers: seq<Answer>,
                 book: map<TokenId, seq<OpenOrder>>, now: int)
    returns (j: nat)
    requires |answers| == |valid| && InRange(valid, |keys|) && OneBook(keys, valid, answers, book)
    requires DistinctPairs(m) && forall p :: p in m ==> Supported(p, keys, valid, answers, now)
    requires k < |valid| && Exhausted(k, keys, valid, answers, Ids(m), now) && Fits(valid[k], id, keys, book, now)
    ensures j in AsMap(m) && AsMap(m)[j] == id && j < |keys| && keys[j] == keys[valid[k]]
  {
    var o :| o in book[keys[valid[k]].token] && o.id == id && Matches(o, keys[valid[k]], now);
    assert answers[k] == Some(book[keys[valid[k]].token]);
    var p :| p in m && p.id == id;
    TakenByItsKey(m, p, k, o, keys, valid, answers, book, now);
    j := p.index;
  }

  /** Starved keys: the assigned orders of any assignment are among those the greedy matching gave out for them. */
  lemma StarvedPartIsSmaller(a: map<nat, OrderId>, b: map<nat, OrderId>, keys: seq<Key>, valid: seq<nat>,
                             book: map<TokenId, seq<OpenOrder>>, now: int)
    requires InRange(valid, |keys|)
    requires Assignment(a, keys, valid, book, now) && Assignment(b, keys, valid, book, now)
    requires Saturated(a, keys, valid, book, now)
    ensures |StarvedPart(b, a, keys, valid)| <= |StarvedPart(a, a, keys, valid)|
  {
    var theirs, ours := StarvedPart(b, a, keys, valid), StarvedPart(a, a, keys, valid);
    var bi := set i | i in theirs :: b[i];
    var ai := set i | i in ours :: a[i];
    forall id | id in bi ensures id in ai {
      var i :| i in theirs && b[i] == id;
      var s :| s in valid && s !in a && keys[s] == keys[i];
      FitsSameKey(i, s, id, keys, book, now);
      var j :| j in a && a[j] == id && keys[j] == keys[s];
      assert j in ours;
    }
    ImageSize(b, theirs);
    ImageSize(a, ours);
    SubsetSize(bi, ai);
  }

  /** All other keys: the greedy matching gave an order to every index an assignment could give one to. */
  lemma FedPartIsSmaller(a: map<nat, OrderId>, b: map<nat, OrderId>, keys: seq<Key>, valid: seq<nat>)
    requires InRange(valid, |keys|)
    requires (forall i :: i in a ==> i in valid) && (forall i :: i in b ==> i in valid)
    ensures |b.Keys - StarvedPart(b, a, keys, valid)| <= |a.Keys - StarvedPart(a, a, keys, valid)|
  {
    var theirs, ours := StarvedPart(b, a, keys, valid), StarvedPart(a, a, keys, valid);
    forall i | i in b.Keys - theirs ensures i in a.Keys - ours {
      assert !Starved(keys[i], a, keys, valid);
    }
    SubsetSize(b.Keys - theirs, a.Keys - ours);
  }

  /**
   No assignment of open orders to submitted orders recovers more than the greedy loop. Keys that were starved are
   counted by orders, all others by submissions; greedy has as many as possible of both.
   */
  lemma GreedyIsMaximum(a: map<nat, OrderId>, b: map<nat, OrderId>, keys: seq<Key>, valid: seq<nat>,
                        book: map<TokenId, seq<OpenOrder>>, now: int)
    requires InRange(valid, |keys|)
    requires Assignment(a, keys, valid, book, now) && Assignment(b, keys, valid, book, now)
    requires Saturated(a, keys, valid, book, now)
    ensures |b| <= |a|
  {
    StarvedPartIsSmaller(a, b, keys, valid, book, now);
    FedPartIsSmaller(a, b, keys, valid);
    PartSizes(b.Keys, StarvedPart(b, a, keys, valid));
    PartSizes(a.Keys, StarvedPart(a, a, keys, valid));
  }

  ghost function SubmittedWith(key: Key, keys: seq<Key>, valid: seq<nat>): set<nat>
    requires InRange(valid, |keys|)
  {
    set i | i in valid && keys[i] == key
  }

  ghost function MatchedWith(a: map<nat, OrderId>, key: Key, keys: seq<Key>): set<nat> {
    set i | i in a && i < |keys| && keys[i] == key
  }

  /** Ids of the open orders that could be a submission with this key. */
  ghost function EligibleFor(key: Key, book: map<TokenId, seq<OpenOrder>>, now: int): set<OrderId> {
    if key.token in book then set o | o in book[key.token] && Matches(o, key, now) :: o.id else {}
  }

  /** The exact count: for every key, as many matches as there are submissions or eligible orders, whichever is less. */
  lemma GreedyCountsPerKey(a: map<nat, OrderId>, key: Key, keys: seq<Key>, valid: seq<nat>,
                           book: map<TokenId, seq<OpenOrder>>, now: int)
    requires InRange(valid, |keys|) && Assignment(a, keys, valid, book, now) && Saturated(a, keys, valid, book, now)
    ensures var matched, submitted, eligible :=
        |MatchedWith(a, key, keys)|, |SubmittedWith(key, keys, valid)|, |EligibleFor(key, book, now)|;
      matched == if submitted <= eligible then submitted else eligible
  {
    var m, s, e := MatchedWith(a, key, keys), SubmittedWith(key, keys, valid), EligibleFor(key, book, now);
    var ids := set i | i in m :: a[i];
    assert m <= a.Keys;
    ImageSize(a, m);
    MatchedAreEligible(a, key, keys, valid, book, now);
    SubsetSize(ids, e);
    SubsetSize(m, s);
    if Starved(key, a, keys, valid) {
      EligibleAreMatched(a, key, keys, valid, book, now);
      SubsetSize(e, ids);
    } else {
      SubsetSize(s, m);
    }
  }

  lemma MatchedAreEligible(a: map<nat, OrderId>, key: Key, keys: seq<Key>, valid: seq<nat>,
                           book: map<TokenId, seq<OpenOrder>>, now: int)
    requires InRange(valid, |keys|) && Assignment(a, keys, valid, book, now)
    ensures forall i :: i in MatchedWith(a, key, keys) ==> a[i] in EligibleFor(key, book, now)
    ensures MatchedWith(a, key, keys) <= SubmittedWith(key, keys, valid)
  {
    forall i | i in MatchedWith(a, key, keys) ensures a[i] in EligibleFor(key, book, now) {
      assert Fits(i, a[i], keys, book, now);
    }
  }

  lemma EligibleAreMatched(a: map<nat, OrderId>, key: Key, keys: seq<Key>, valid: seq<nat>,
                           book: map<TokenId, seq<OpenOrder>>, now: int)
    requires InRange(valid, |keys|) && Saturated(a, keys, valid, book, now) && Starved(key, a, keys, valid)
    ensures forall id :: id in EligibleFor(key, book, now) ==> exists j :: j in MatchedWith(a, key, keys) && a[j] == id
  {
    var i :| i in valid && i !in a && keys[i] == key;
    forall id | id in EligibleFor(key, book, now) ensures exists j :: j in MatchedWith(a, key, keys) && a[j] == id {
      assert Fits(i, id, keys, book, now);
      var j :| j in a && a[j] == id && j < |keys| && keys[j] == keys[i];
      assert j in MatchedWith(a, key, keys);
    }
  }

  // ----- the call -----

  datatype PostResult = TimedOut | Failed(message: string)

  /** The orders may have been created although the request did not succeed. */
  predicate Ambiguous(post: PostResult) {
    match post
    case TimedOut => true
    case Failed(message) => Contains(message, "timeout") || Contains(message, "connection") || Contains(message, "hyper")
  }

  function FailureText(post: PostResult): string {
    match post
    case TimedOut => "Batch post_orders timed out"
    case Failed(message) => "Batch post_orders failed: " + message
  }

  // ----- the call, in the fields of orders and specs -----

  /** The open order could be the one sent for the spec: a buy under ten seconds old, at the cut price and of the cut size. */
  predicate CouldBe(o: OpenOrder, s: OrderSpec, now: int) {
    && o.side == Buy && now - o.createdAt < 10_000_000_000
    && o.price == RoundDownToTick(s.price, s.tickSize) && o.originalSize == QuantizeSize(s.size)
  }

  lemma MatchesMeans(o: OpenOrder, s: OrderSpec, now: int)
    ensures Matches(o, KeyOf(s), now) <==> CouldBe(o, s, now)
  {
    WholeSeconds(now - o.createdAt, 10);
  }

  /** Nobody knows whether the orders exist: no answer at all, or a message that speaks of timeout, connection or hyper. */
  ghost predicate Unknown(post: PostResult) {
    || post == TimedOut
    || exists a, b :: || post == Failed(a + "timeout" + b)
                      || post == Failed(a + "connection" + b)
                      || post == Failed(a + "hyper" + b)
  }

  lemma AmbiguousMeans(post: PostResult)
    ensures Ambiguous(post) <==> Unknown(post)
  {
    if post.Failed? {
      ContainsMeans(post.message, "timeout");
      ContainsMeans(post.message, "connection");
      ContainsMeans(post.message, "hyper");
    }
  }

  /** The pair stands on an order that the answer to its own query lists and that could be the one sent. */
  ghost predicate Listed(p: Pair, orders: seq<OrderSpec>, valid: seq<nat>, answers: seq<Answer>, now: int) {
    exists k, o :: 0 <= k < |valid| && k < |answers| && valid[k] == p.index && p.index < |orders|
                   && answers[k].Some? && o in answers[k].value && o.id == p.id && CouldBe(o, orders[p.index], now)
  }

  /** Where an order is listed that could be the one sent, the index was recovered, or that order went to another index. */
  ghost predicate NothingMissed(m: seq<Pair>, orders: seq<OrderSpec>, valid: seq<nat>, answers: seq<Answer>, now: int)
    requires |valid| <= |answers| && InRange(valid, |orders|)
  {
    forall k, o :: 0 <= k < |valid| && answers[k].Some? && o in answers[k].value && CouldBe(o, orders[valid[k]], now) ==>
      exists p :: p in m && (p.index == valid[k] || p.id == o.id)
  }

  lemma SupportedIsListed(p: Pair, orders: seq<OrderSpec>, valid: seq<nat>, answers: seq<Answer>, now: int)
    requires |valid| <= |answers| && Supported(p, KeysOf(orders), valid, answers[..|valid|], now)
    ensures Listed(p, orders, valid, answers, now)
  {
    var k, o :| 0 <= k < |valid| && valid[k] == p.index && p.index < |orders| && answers[k].Some?
                && o in answers[k].value && o.id == p.id && Matches(o, KeysOf(orders)[p.index], now);
    MatchesMeans(o, orders[p.index], now);
  }

  lemma ExhaustedMissesNothing(m: seq<Pair>, orders: seq<OrderSpec>, valid: seq<nat>, answers: seq<Answer>, now: int)
    requires |valid| <= |answers| && InRange(valid, |orders|)
    requires forall k :: 0 <= k < |valid| && valid[k] !in Indices(m) ==>
               Exhausted(k, KeysOf(orders), valid, answers[..|valid|], Ids(m), now)
    ensures NothingMissed(m, orders, valid, answers, now)
  {
    forall k, o | 0 <= k < |valid| && answers[k].Some? && o in answers[k].value && CouldBe(o, orders[valid[k]], now)
      ensures exists p :: p in m && (p.index == valid[k] || p.id == o.id)
    {
      MatchesMeans(o, orders[valid[k]], now);
      if valid[k] !in Indices(m) {
        assert Exhausted(k, KeysOf(orders), valid, answers[..|valid|], Ids(m), now);
        assert o.id in Ids(m);
      }
    }
  }

  /**
   Outcome of a batch whose submission did not answer: what was recovered, or an error. If all queries answer
   from one book, no assignment whatsoever recovers more.
   */
  method AfterFailedPost(orders: seq<OrderSpec>, prepared: seq<Preparation>, post: PostResult, answers: seq<Answer>, now: int,
                         ghost book: map<TokenId, seq<OpenOrder>>)
    returns (r: Result<seq<Pair>, string>, valid: seq<nat>)
    requires |prepared| == |orders| && |answers| == |orders|
    ensures forall i :: i in valid <==> 0 <= i < |orders| && Submitted(orders[i], prepared[i])
    ensures InRange(valid, |orders|) && StrictlyIncreasing(valid) && |valid| <= |answers|
    ensures r.Ok? ==> DistinctPairs(r.value) && forall p :: p in r.value ==> Supported(p, KeysOf(orders), valid, answers[..|valid|], now)
    ensures r.Err? ==> r.error == FailureText(post)
    ensures r == Ok([]) <==> valid == []
    ensures valid != [] && !Ambiguous(post) ==> r.Err?
    ensures valid != [] && Ambiguous(post) ==>
              var m := if r.Ok? then r.value else [];
              && (forall k :: 0 <= k < |valid| && valid[k] !in Indices(m) ==>
                    Exhausted(k, KeysOf(orders), valid, answers[..|valid|], Ids(m), now))
              && (OneBook(KeysOf(orders), valid, answers[..|valid|], book) ==>
                    forall b :: Assignment(b, KeysOf(orders), valid, book, now) ==> |b| <= |m|)
    ensures forall i :: i in valid <==>
              && 0 <= i < |orders| && prepared[i] == Signed
              && QuantizeSize(orders[i].size) >= 5.0 && RoundDownToTick(orders[i].price, orders[i].tickSize) > 0.0
    ensures r.Ok? ==> forall p :: p in r.value ==> Listed(p, orders, valid, answers, now)
    ensures valid != [] && !Unknown(post) ==> r.Err?
    ensures Unknown(post) ==> NothingMissed(if r.Ok? then r.value else [], orders, valid, answers, now)
  {
    r, valid := Recover(orders, prepared, post, answers, now, book);
    AmbiguousMeans(post);
    if r.Ok? {
      forall p | p in r.value ensures Listed(p, orders, valid, answers, now) {
        SupportedIsListed(p, orders, valid, answers, now);
      }
    }
    if Unknown(post) {
      ExhaustedMissesNothing(if r.Ok? then r.value else [], orders, valid, answers, now);
    }
  }

  method Recover(orders: seq<OrderSpec>, prepared: seq<Preparation>, post: PostResult, answers: seq<Answer>, now: int,
                 ghost book: map<TokenId, seq<OpenOrder>>)
    returns (r: Result<seq<Pair>, string>, valid: seq<nat>)
    requires |prepared| == |orders| && |answers| == |orders|
    ensures forall i :: i in valid <==> 0 <= i < |orders| && Submitted(orders[i], prepared[i])
    ensures InRange(valid, |orders|) && StrictlyIncreasing(valid) && |valid| <= |answers|
    ensures r.Ok? ==> DistinctPairs(r.value) && forall p :: p in r.value ==> Supported(p, KeysOf(orders), valid, answers[..|valid|], now)
    ensures r.Err? ==> r.error == FailureText(post)
    ensures r == Ok([]) <==> valid == []
    ensures valid != [] && !Ambiguous(post) ==> r.Err?
    ensures valid != [] && Ambiguous(post) ==>
              var m := if r.Ok? then r.value else [];
              && (forall k :: 0 <= k < |valid| && valid[k] !in Indices(m) ==>
                    Exhausted(k, KeysOf(orders), valid, answers[..|valid|], Ids(m), now))
              && (OneBook(KeysOf(orders), valid, answers[..|valid|], book) ==>
                    forall b :: Assignment(b, KeysOf(orders), valid, book, now) ==> |b| <= |m|)
  {
    var keys := KeysOf(orders);
    valid := ValidIndices(orders, prepared);
    FewIndices(valid, |orders|);
    if valid == [] {
      return Ok([]), valid;
    }
    if !Ambiguous(post) {
      return Err(FailureText(post)), valid;
    }
    var m := ReconcileOrders(keys, valid, answers[..|valid|], now);
    if OneBook(keys, valid, answers[..|valid|], book) {
      RecoversMost(m, keys, valid, answers[..|valid|], book, now);
    }
    r := if m != [] then Ok(m) else Err(FailureText(post));
  }

  lemma RecoversMost(m: seq<Pair>, keys: seq<Key>, valid: seq<nat>, answers: seq<Answer>, book: map<TokenId, seq<OpenOrder>>, now: int)
    requires |answers| == |valid| && InRange(valid, |keys|) && OneBook(keys, valid, answers, book)
    requires DistinctPairs(m) && forall p :: p in m ==> Supported(p, keys, valid, answers, now)
    requires forall k :: 0 <= k < |valid| && valid[k] !in Indices(m) ==> Exhausted(k, keys, valid, answers, Ids(m), now)
    ensures forall b :: Assignment(b, keys, valid, book, now) ==> |b| <= |m|
  {
    GreedyIsAssignment(m, keys, valid, answers, book, now);
    GreedySaturates(m, keys, valid, answers, book, now);
    MapSize(m);
    forall b | Assignment(b, keys, valid, book, now) ensures |b| <= |m| {
      GreedyIsMaximum(AsMap(m), b, keys, valid, book, now);
    }
  }

  lemma {:induction false} FewIndices(s: seq<nat>, n: nat)
    requires StrictlyIncreasing(s) && forall i :: i in s ==> i < n
    ensures |s| <= n
  {
    if s != [] {
      var init, last := s[..|s| - 1], s[|s| - 1];
      assert last in s;
      forall i | i in init ensures i < last {
        var k :| 0 <= k < |init| && init[k] == i;
        assert s[k] == i;
      }
      FewIndices(init, last);
    }
  }

  lemma {:induction false} MapSize(m: seq<Pair>)
    requires DistinctPairs(m)
    ensures |AsMap(m)| == |m|
  {
    assert AsMap(m).Keys == Indices(m);
    IndicesSize(m);
  }

  lemma {:induction false} IndicesSize(m: seq<Pair>)
    requires DistinctPairs(m)
    ensures |Indices(m)| == |m|
  {
    if m != [] {
      var init, last := m[..|m| - 1], m[|m| - 1];
      IndicesSize(init);
      assert m == init + [last];
      assert Indices(m) == Indices(init) + {last.index};
      assert last.index !in Indices(init);
    }
  }
}
