/** The order in which benchmark instances are taken (benchmarks/retrieval/swebench.py, `selection_order`): one
    seat per repository, then Sainte-Lague quotients. */
module Selection {
  import opened Basics

  /** `repo` is the place of the repository's name in name order; `key` the digest of seed and id as a number. */
  datatype Instance = Instance(repo: nat, key: nat, id: string)

  // ---------------------------------------------------------------- groups

  /** The instances of one repository, in their order. */
  function OfRepo(instances: seq<Instance>, repo: nat): seq<Instance> {
    if instances == [] then []
    else OfRepo(instances[..|instances| - 1], repo)
         + (if instances[|instances| - 1].repo == repo then [instances[|instances| - 1]] else [])
  }

  function InsertName(names: seq<nat>, repo: nat): seq<nat> {
    if names == [] || repo < names[0] then [repo] + names
    else if repo == names[0] then names
    else [names[0]] + InsertName(names[1..], repo)
  }

  /** The repositories in name order, each once. */
  function Names(instances: seq<Instance>): seq<nat> {
    if instances == [] then []
    else InsertName(Names(instances[..|instances| - 1]), instances[|instances| - 1].repo)
  }

  function InsertByKey(queue: seq<Instance>, x: Instance): seq<Instance> {
    if queue == [] || x.key < queue[0].key then [x] + queue
    else [queue[0]] + InsertByKey(queue[1..], x)
  }

  /** A stable sort by key. */
  function ByKey(instances: seq<Instance>): seq<Instance> {
    if instances == [] then []
    else InsertByKey(ByKey(instances[..|instances| - 1]), instances[|instances| - 1])
  }

  /** The instances of a repository in key order. */
  function Queue(instances: seq<Instance>, repo: nat): seq<Instance> {
    ByKey(OfRepo(instances, repo))
  }

  ghost predicate InKeyOrder(queue: seq<Instance>) {
    forall i, j :: 0 <= i < j < |queue| ==> queue[i].key <= queue[j].key
  }

  ghost predicate InNameOrder(names: seq<nat>) {
    forall i, j :: 0 <= i < j < |names| ==> names[i] < names[j]
  }

  lemma {:induction false} InsertNameSorted(names: seq<nat>, repo: nat)
    requires InNameOrder(names)
    ensures InNameOrder(InsertName(names, repo))
    ensures forall r :: r in InsertName(names, repo) <==> r in names || r == repo
  {
    if names != [] && names[0] < repo {
      InsertNameSorted(names[1..], repo);
      forall r ensures r in InsertName(names, repo) <==> r in names || r == repo {
        assert names == [names[0]] + names[1..];
      }
    }
  }

  lemma {:induction false} NamesSorted(instances: seq<Instance>)
    ensures InNameOrder(Names(instances))
    ensures forall r :: r in Names(instances) <==> OfRepo(instances, r) != []
  {
    if instances != [] {
      NamesSorted(instances[..|instances| - 1]);
      InsertNameSorted(Names(instances[..|instances| - 1]), instances[|instances| - 1].repo);
    }
  }

  lemma {:induction false} InsertByKeySorted(queue: seq<Instance>, x: Instance)
    requires InKeyOrder(queue)
    ensures InKeyOrder(InsertByKey(queue, x)) && multiset(InsertByKey(queue, x)) == multiset(queue) + multiset{x}
    ensures forall y :: y in InsertByKey(queue, x) <==> y in queue || y == x
  {
    if queue != [] {
      assert queue == [queue[0]] + queue[1..];
      if x.key >= queue[0].key {
        InsertByKeySorted(queue[1..], x);
        SortedCons(queue[0], InsertByKey(queue[1..], x));
      }
    }
  }

  lemma SortedCons(first: Instance, rest: seq<Instance>)
    requires InKeyOrder(rest) && forall y :: y in rest ==> first.key <= y.key
    ensures InKeyOrder([first] + rest)
  {
    forall i | 0 <= i < |rest| ensures first.key <= rest[i].key {
      assert rest[i] in rest;
    }
  }

  lemma {:induction false} ByKeySorted(instances: seq<Instance>)
    ensures InKeyOrder(ByKey(instances)) && multiset(ByKey(instances)) == multiset(instances)
    ensures |ByKey(instances)| == |instances|
  {
    if instances != [] {
      ByKeySorted(instances[..|instances| - 1]);
      InsertByKeySorted(ByKey(instances[..|instances| - 1]), instances[|instances| - 1]);
      assert instances == instances[..|instances| - 1] + [instances[|instances| - 1]];
    }
    assert |multiset(ByKey(instances))| == |multiset(instances)|;
  }

  function OfKey(instances: seq<Instance>, key: nat): seq<Instance> {
    if instances == [] then []
    else OfKey(instances[..|instances| - 1], key)
         + (if instances[|instances| - 1].key == key then [instances[|instances| - 1]] else [])
  }

  lemma {:induction false} OfKeyCons(first: Instance, rest: seq<Instance>, key: nat)
    ensures OfKey([first] + rest, key) == (if first.key == key then [first] else []) + OfKey(rest, key)
  {
    if rest == [] {
      assert [first] + rest == [first] && [first][..0] == [];
    } else {
      var n := |rest| - 1;
      OfKeyCons(first, rest[..n], key);
      assert ([first] + rest)[..n + 1] == [first] + rest[..n];
    }
  }

  lemma {:induction false} NoneOfKey(queue: seq<Instance>, key: nat)
    requires forall y :: y in queue ==> y.key != key
    ensures OfKey(queue, key) == []
  {
    if queue != [] {
      NoneOfKey(queue[..|queue| - 1], key);
    }
  }

  lemma {:induction false} InsertByKeyLast(queue: seq<Instance>, x: Instance, key: nat)
    requires InKeyOrder(queue)
    ensures OfKey(InsertByKey(queue, x), key) == OfKey(queue, key) + (if x.key == key then [x] else [])
    decreases |queue|
  {
    hide OfKey;
    if queue == [] || x.key < queue[0].key {
      OfKeyCons(x, queue, key);
      if x.key == key { NoneOfKey(queue, key); }
      assert OfKey(queue, key) + [] == OfKey(queue, key);
    } else {
      InsertByKeyLast(queue[1..], x, key);
      assert queue == [queue[0]] + queue[1..];
      OfKeyCons(queue[0], queue[1..], key);
      OfKeyCons(queue[0], InsertByKey(queue[1..], x), key);
      Associate(if queue[0].key == key then [queue[0]] else [], OfKey(queue[1..], key),
                if x.key == key then [x] else []);
    }
  }

  /** Instances with one key stay in their order. */
  lemma {:induction false} ByKeyIsStable(instances: seq<Instance>, key: nat)
    ensures OfKey(ByKey(instances), key) == OfKey(instances, key)
  {
    if instances != [] {
      var init := instances[..|instances| - 1];
      ByKeyIsStable(init, key);
      ByKeySorted(init);
      InsertByKeyLast(ByKey(init), instances[|instances| - 1], key);
    }
  }

  lemma {:induction false} OfRepoIsOfRepo(instances: seq<Instance>, repo: nat)
    ensures forall y :: y in OfRepo(instances, repo) ==> y.repo == repo
  {
    if instances != [] {
      OfRepoIsOfRepo(instances[..|instances| - 1], repo);
    }
  }

  lemma QueueSorted(instances: seq<Instance>, repo: nat)
    ensures InKeyOrder(Queue(instances, repo)) && |Queue(instances, repo)| == |OfRepo(instances, repo)|
    ensures multiset(Queue(instances, repo)) == multiset(OfRepo(instances, repo))
    ensures forall y :: y in Queue(instances, repo) ==> y.repo == repo
  {
    ByKeySorted(OfRepo(instances, repo));
    OfRepoIsOfRepo(instances, repo);
    forall y | y in Queue(instances, repo) ensures y.repo == repo {
      assert y in multiset(OfRepo(instances, repo));
    }
  }

  // ---------------------------------------------------------------- the rule

  function Seats(order: seq<Instance>, repo: nat): nat {
    |OfRepo(order, repo)|
  }

  predicate HasOpenSeat(instances: seq<Instance>, order: seq<Instance>, repo: nat) {
    Seats(order, repo) < Seats(instances, repo)
  }

  /** The quotient n / (2 s + 1) of repository `r` is larger than that of `t`, or equal and `r` is first by name. */
  predicate Leads(n: nat, s: nat, r: nat, n': nat, s': nat, t: nat) {
    n * (2 * s' + 1) > n' * (2 * s + 1) || (n * (2 * s' + 1) == n' * (2 * s + 1) && r <= t)
  }

  ghost predicate IsLeader(instances: seq<Instance>, order: seq<Instance>, r: nat) {
    HasOpenSeat(instances, order, r)
    && forall t {:trigger HasOpenSeat(instances, order, t)} :: HasOpenSeat(instances, order, t) ==>
         Leads(Seats(instances, r), Seats(order, r), r, Seats(instances, t), Seats(order, t), t)
  }

  /** `x` is what the rule takes after `order`. */
  ghost predicate IsNext(instances: seq<Instance>, order: seq<Instance>, x: Instance) {
    Seats(order, x.repo) < |Queue(instances, x.repo)| && x == Queue(instances, x.repo)[Seats(order, x.repo)]
    && if |order| < |Names(instances)| then x.repo == Names(instances)[|order|]
       else IsLeader(instances, order, x.repo)
  }

  ghost predicate FollowsRule(instances: seq<Instance>, order: seq<Instance>) {
    forall k {:trigger order[k]} :: 0 <= k < |order| ==> IsNext(instances, order[..k], order[k])
  }

  // ---------------------------------------------------------------- what the rule gives

  lemma OfRepoSnoc(order: seq<Instance>, x: Instance, repo: nat)
    ensures OfRepo(order + [x], repo) == OfRepo(order, repo) + (if x.repo == repo then [x] else [])
  {
    assert (order + [x])[..|order|] == order;
  }

  lemma RuleForPrefix(instances: seq<Instance>, order: seq<Instance>, k: nat)
    requires FollowsRule(instances, order) && k <= |order|
    ensures FollowsRule(instances, order[..k])
  {
    forall i | 0 <= i < k ensures IsNext(instances, order[..k][..i], order[..k][i]) {
      assert order[..k][..i] == order[..i] && order[..k][i] == order[i];
    }
  }

  lemma RuleForLast(instances: seq<Instance>, order: seq<Instance>)
    requires FollowsRule(instances, order) && order != []
    ensures FollowsRule(instances, order[..|order| - 1])
    ensures IsNext(instances, order[..|order| - 1], order[|order| - 1])
    ensures order == order[..|order| - 1] + [order[|order| - 1]]
  {
    RuleForPrefix(instances, order, |order| - 1);
    assert IsNext(instances, order[..|order| - 1], order[|order| - 1]);
  }

  /** Each repository is taken in key order. */
  lemma {:induction false} TakenInKeyOrder(instances: seq<Instance>, order: seq<Instance>, repo: nat)
    requires FollowsRule(instances, order)
    ensures OfRepo(order, repo) <= Queue(instances, repo)
    decreases |order|
  {
    if order != [] {
      RuleForLast(instances, order);
      TakenInKeyOrder(instances, order[..|order| - 1], repo);
      TakenNext(instances, order[..|order| - 1], order[|order| - 1], repo);
    }
  }

  lemma TakenNext(instances: seq<Instance>, order: seq<Instance>, x: Instance, repo: nat)
    requires OfRepo(order, repo) <= Queue(instances, repo) && IsNext(instances, order, x)
    ensures OfRepo(order + [x], repo) <= Queue(instances, repo)
  {
    OfRepoSnoc(order, x, repo);
    if x.repo == repo {
      LongerPrefix(OfRepo(order, repo), Queue(instances, repo));
    }
  }

  lemma LongerPrefix<T>(s: seq<T>, t: seq<T>)
    requires s <= t && |s| < |t|
    ensures s + [t[|s|]] <= t
  {
  }

  lemma {:induction false} CountByRepo(instances: seq<Instance>, x: Instance)
    ensures multiset(instances)[x] == multiset(OfRepo(instances, x.repo))[x]
  {
    if instances != [] {
      CountByRepo(instances[..|instances| - 1], x);
      assert instances == instances[..|instances| - 1] + [instances[|instances| - 1]];
    }
  }

  lemma PrefixCount(s: seq<Instance>, t: seq<Instance>, x: Instance)
    requires s <= t
    ensures multiset(s)[x] <= multiset(t)[x]
  {
    assert t == s + t[|s|..];
  }

  lemma NothingTwice(instances: seq<Instance>, order: seq<Instance>)
    requires forall r :: OfRepo(order, r) <= Queue(instances, r)
    ensures multiset(order) <= multiset(instances)
  {
    forall x ensures multiset(order)[x] <= multiset(instances)[x] {
      CountByRepo(order, x);
      CountByRepo(instances, x);
      QueueSorted(instances, x.repo);
      PrefixCount(OfRepo(order, x.repo), Queue(instances, x.repo), x);
    }
  }

  lemma SameSize<T>(a: multiset<T>, b: multiset<T>)
    requires a <= b && |a| == |b|
    ensures a == b
  {
    assert b == a + (b - a);
  }

  /** An order by the rule that is as long as the list of instances is a permutation of it. */
  lemma OrderIsPermutation(instances: seq<Instance>, order: seq<Instance>)
    requires FollowsRule(instances, order) && |order| == |instances|
    ensures multiset(order) == multiset(instances)
  {
    forall r ensures OfRepo(order, r) <= Queue(instances, r) {
      TakenInKeyOrder(instances, order, r);
    }
    NothingTwice(instances, order);
    SameSize(multiset(order), multiset(instances));
  }

  /** The rule leaves no choice. */
  lemma {:induction false} OrderIsUnique(instances: seq<Instance>, order: seq<Instance>, other: seq<Instance>)
    requires FollowsRule(instances, order) && FollowsRule(instances, other) && |order| == |other|
    ensures order == other
    decreases |order|
  {
    if order != [] {
      RuleForLast(instances, order);
      RuleForLast(instances, other);
      OrderIsUnique(instances, order[..|order| - 1], other[..|order| - 1]);
      NextIsUnique(instances, order[..|order| - 1], order[|order| - 1], other[|order| - 1]);
    }
  }

  lemma NextIsUnique(instances: seq<Instance>, order: seq<Instance>, x: Instance, y: Instance)
    requires IsNext(instances, order, x) && IsNext(instances, order, y)
    ensures x == y
  {
    if |order| >= |Names(instances)| {
      var r, t := x.repo, y.repo;
      assert HasOpenSeat(instances, order, r) && HasOpenSeat(instances, order, t);
      assert Leads(Seats(instances, r), Seats(order, r), r, Seats(instances, t), Seats(order, t), t);
      assert Leads(Seats(instances, t), Seats(order, t), t, Seats(instances, r), Seats(order, r), r);
    }
  }

  // ---------------------------------------------------------------- fairness

  /** No open repository had a larger claim to the last seat of `r`: N_r / (2 s_r - 1) >= N_t / (2 s_t + 1). */
  ghost predicate FairTo(instances: seq<Instance>, order: seq<Instance>, r: nat, t: nat) {
    Seats(order, r) >= 2 && HasOpenSeat(instances, order, t) ==>
      Seats(instances, r) * (2 * Seats(order, t) + 1) >= Seats(instances, t) * (2 * Seats(order, r) - 1)
  }

  lemma Grows(n: nat, a: int, b: int)
    requires a <= b
    ensures n * a <= n * b
  {
  }

  /** One more seat for `c` keeps the order fair. */
  lemma FairStep(instances: seq<Instance>, order: seq<Instance>, x: Instance, r: nat, t: nat)
    requires FairTo(instances, order, r, t) && IsLeader(instances, order, x.repo)
    ensures FairTo(instances, order + [x], r, t)
  {
    OfRepoSnoc(order, x, r);
    OfRepoSnoc(order, x, t);
    var n, s, s' := Seats(instances, r), Seats(order, t), Seats(order + [x], t);
    if Seats(order + [x], r) >= 2 && HasOpenSeat(instances, order + [x], t) {
      assert HasOpenSeat(instances, order, t);
      Grows(n, 2 * s + 1, 2 * s' + 1);
      if x.repo == r {
        assert Leads(n, Seats(order, r), r, Seats(instances, t), s, t);
      }
    }
  }

  ghost predicate Seated(names: seq<nat>, n: nat, repo: nat) {
    exists k :: 0 <= k < n && k < |names| && names[k] == repo
  }

  /** The first seats go round the repositories once. */
  lemma {:induction false} FirstSeats(instances: seq<Instance>, order: seq<Instance>, repo: nat)
    requires FollowsRule(instances, order) && |order| <= |Names(instances)|
    ensures Seats(order, repo) == if Seated(Names(instances), |order|, repo) then 1 else 0
    decreases |order|
  {
    if order != [] {
      var n := |order| - 1;
      RuleForPrefix(instances, order, n);
      FirstSeats(instances, order[..n], repo);
      assert IsNext(instances, order[..n], order[n]);
      NamesSorted(instances);
      SeatedNext(Names(instances), n, repo);
    }
  }

  lemma SeatedNext(names: seq<nat>, n: nat, repo: nat)
    requires InNameOrder(names) && n < |names|
    ensures Seated(names, n + 1, repo) <==> Seated(names, n, repo) || names[n] == repo
    ensures names[n] == repo ==> !Seated(names, n, repo)
  {
  }

  /** Every order by the rule is fair, and so is every prefix of it. */
  lemma {:induction false} OrderIsFair(instances: seq<Instance>, order: seq<Instance>, k: nat, r: nat, t: nat)
    requires FollowsRule(instances, order) && k <= |order|
    ensures FairTo(instances, order[..k], r, t)
  {
    if k <= |Names(instances)| {
      RuleForPrefix(instances, order, k);
      FirstSeats(instances, order[..k], r);
    } else {
      OrderIsFair(instances, order, k - 1, r, t);
      assert IsNext(instances, order[..k - 1], order[k - 1]);
      FairStep(instances, order[..k - 1], order[k - 1], r, t);
      assert order[..k] == order[..k - 1] + [order[k - 1]];
    }
  }

  // ---------------------------------------------------------------- the program

  method GroupByRepo(instances: seq<Instance>) returns (byRepo: map<nat, seq<Instance>>)
    ensures forall r :: r in byRepo <==> OfRepo(instances, r) != []
    ensures forall r :: r in byRepo ==> byRepo[r] == OfRepo(instances, r)
  {
    byRepo := map[];
    for i := 0 to |instances|
      invariant forall r :: r in byRepo <==> OfRepo(instances[..i], r) != []
      invariant forall r :: r in byRepo ==> byRepo[r] == OfRepo(instances[..i], r)
    {
      var x := instances[i];
      assert instances[..i + 1] == instances[..i] + [x];
      forall r ensures OfRepo(instances[..i + 1], r) == OfRepo(instances[..i], r) + (if x.repo == r then [x] else []) {
        OfRepoSnoc(instances[..i], x, r);
      }
      byRepo := byRepo[x.repo := (if x.repo in byRepo then byRepo[x.repo] else []) + [x]];
    }
    assert instances[..|instances|] == instances;
  }

  ghost predicate IsTable(instances: seq<Instance>, names: seq<nat>, queues: map<nat, seq<Instance>>) {
    names == Names(instances) && (forall r :: r in names <==> r in queues)
    && forall r :: r in queues ==> queues[r] == Queue(instances, r)
  }

  method BuildQueues(instances: seq<Instance>) returns (names: seq<nat>, queues: map<nat, seq<Instance>>)
    ensures IsTable(instances, names, queues) && forall r :: r in queues ==> queues[r] != []
  {
    var byRepo := GroupByRepo(instances);
    names := Names(instances);
    queues := map r | r in byRepo :: ByKey(byRepo[r]);
    NamesSorted(instances);
    forall r | r in queues ensures queues[r] == Queue(instances, r) && queues[r] != [] {
      QueueSorted(instances, r);
    }
  }

  lemma AllSeatsTaken(instances: seq<Instance>, order: seq<Instance>)
    requires FollowsRule(instances, order) && forall r :: !HasOpenSeat(instances, order, r)
    ensures |order| == |instances|
  {
    forall x ensures multiset(order)[x] == multiset(instances)[x] {
      TakenInKeyOrder(instances, order, x.repo);
      QueueSorted(instances, x.repo);
      CountByRepo(order, x);
      CountByRepo(instances, x);
      assert !HasOpenSeat(instances, order, x.repo);
      assert OfRepo(order, x.repo) == Queue(instances, x.repo);
    }
    assert multiset(order) == multiset(instances);
    assert |multiset(order)| == |multiset(instances)|;
  }

  /** While the order is short of the instances, some repository has a seat left. */
  lemma SomeoneIsOpen(instances: seq<Instance>, order: seq<Instance>)
    requires FollowsRule(instances, order) && |order| < |instances|
    ensures exists r :: HasOpenSeat(instances, order, r)
  {
    if forall r :: !HasOpenSeat(instances, order, r) {
      AllSeatsTaken(instances, order);
    }
  }

  ghost predicate Counts(names: seq<nat>, order: seq<Instance>, seats: map<nat, nat>) {
    (forall r :: r in names <==> r in seats) && forall r :: r in seats ==> seats[r] == Seats(order, r)
  }

  lemma Cross(n: nat, a: nat, n': nat, b: nat, n'': nat, c: nat)
    requires a > 0 && b > 0 && c > 0 && n * b >= n' * a && n' * c >= n'' * b
    ensures n * c >= n'' * a
    ensures n * b > n' * a || n' * c > n'' * b ==> n * c > n'' * a
  {
    assert (n * b) * c >= (n' * a) * c by { Grows(c, n' * a, n * b); }
    assert (n' * c) * a >= (n'' * b) * a by { Grows(a, n'' * b, n' * c); }
    assert (n * b) * c == b * (n * c) && (n'' * b) * a == b * (n'' * a) && (n' * a) * c == (n' * c) * a;
  }

  /** `r` leads all open repositories among the first `i` names. */
  ghost predicate LeadsUpTo(names: seq<nat>, i: nat, queues: map<nat, seq<Instance>>, seats: map<nat, nat>, r: nat)
    requires (forall t :: t in names ==> t in queues && t in seats) && r in queues && r in seats && i <= |names|
  {
    forall j :: 0 <= j < i && seats[names[j]] < |queues[names[j]]| ==>
      Leads(|queues[r]|, seats[r], r, |queues[names[j]]|, seats[names[j]], names[j])
  }

  lemma TakeLead(names: seq<nat>, i: nat, queues: map<nat, seq<Instance>>, seats: map<nat, nat>, r: nat, t: nat)
    requires (forall u :: u in names ==> u in queues && u in seats) && r in names && t in names && i <= |names|
    requires LeadsUpTo(names, i, queues, seats, r)
    requires |queues[t]| * (2 * seats[r] + 1) > |queues[r]| * (2 * seats[t] + 1)
    ensures LeadsUpTo(names, i, queues, seats, t)
  {
    forall j | 0 <= j < i && seats[names[j]] < |queues[names[j]]|
      ensures Leads(|queues[t]|, seats[t], t, |queues[names[j]]|, seats[names[j]], names[j])
    {
      Cross(|queues[t]|, 2 * seats[t] + 1, |queues[r]|, 2 * seats[r] + 1, |queues[names[j]]|, 2 * seats[names[j]] + 1);
    }
  }

  /** The first open repository, in name order, of those with the largest quotient. */
  method Leader(names: seq<nat>, queues: map<nat, seq<Instance>>, seats: map<nat, nat>) returns (chosen: nat)
    requires InNameOrder(names) && forall t :: t in names ==> t in queues && t in seats
    requires exists j :: 0 <= j < |names| && seats[names[j]] < |queues[names[j]]|
    ensures chosen in names && seats[chosen] < |queues[chosen]|
    ensures LeadsUpTo(names, |names|, queues, seats, chosen)
  {
    var found := false;
    chosen := 0;
    for i := 0 to |names|
      invariant !found ==> forall j :: 0 <= j < i ==> seats[names[j]] >= |queues[names[j]]|
      invariant found ==> chosen in names[..i] && seats[chosen] < |queues[chosen]|
      invariant found ==> LeadsUpTo(names, i, queues, seats, chosen)
    {
      var t := names[i];
      if seats[t] < |queues[t]| {
        if !found {
          found, chosen := true, t;
        } else if |queues[t]| * (2 * seats[chosen] + 1) > |queues[chosen]| * (2 * seats[t] + 1) {
          TakeLead(names, i, queues, seats, chosen, t);
          chosen := t;
        }
      }
    }
  }

  /** The chosen repository is the leader the rule asks for. */
  lemma ChosenIsLeader(instances: seq<Instance>, order: seq<Instance>, names: seq<nat>,
                       queues: map<nat, seq<Instance>>, seats: map<nat, nat>, chosen: nat)
    requires IsTable(instances, names, queues) && Counts(names, order, seats)
    requires chosen in names && seats[chosen] < |queues[chosen]|
    requires LeadsUpTo(names, |names|, queues, seats, chosen)
    ensures IsLeader(instances, order, chosen)
  {
    QueueSorted(instances, chosen);
    forall t | HasOpenSeat(instances, order, t)
      ensures Leads(Seats(instances, chosen), Seats(order, chosen), chosen, Seats(instances, t), Seats(order, t), t)
    {
      NamesSorted(instances);
      QueueSorted(instances, t);
      var j :| 0 <= j < |names| && names[j] == t;
    }
  }

  lemma ChosenIsNext(instances: seq<Instance>, order: seq<Instance>, names: seq<nat>,
                     queues: map<nat, seq<Instance>>, seats: map<nat, nat>, chosen: nat)
    requires IsTable(instances, names, queues) && Counts(names, order, seats) && |names| <= |order|
    requires chosen in names && seats[chosen] < |queues[chosen]|
    requires LeadsUpTo(names, |names|, queues, seats, chosen)
    ensures IsNext(instances, order, queues[chosen][seats[chosen]]) && queues[chosen][seats[chosen]].repo == chosen
  {
    ChosenIsLeader(instances, order, names, queues, seats, chosen);
    QueueSorted(instances, chosen);
  }

  lemma OpenIsNamed(instances: seq<Instance>, order: seq<Instance>, names: seq<nat>,
                    queues: map<nat, seq<Instance>>, seats: map<nat, nat>)
    requires IsTable(instances, names, queues) && Counts(names, order, seats)
    requires FollowsRule(instances, order) && |order| < |instances|
    ensures exists j :: 0 <= j < |names| && seats[names[j]] < |queues[names[j]]|
  {
    SomeoneIsOpen(instances, order);
    var r :| HasOpenSeat(instances, order, r);
    NamesSorted(instances);
    QueueSorted(instances, r);
    var j :| 0 <= j < |names| && names[j] == r;
  }

  /** Taking the next instance of a repository keeps to the rule. */
  lemma Take(instances: seq<Instance>, order: seq<Instance>, x: Instance)
    requires FollowsRule(instances, order) && IsNext(instances, order, x)
    ensures FollowsRule(instances, order + [x])
  {
    forall k | 0 <= k < |order + [x]| ensures IsNext(instances, (order + [x])[..k], (order + [x])[k]) {
      if k < |order| {
        assert (order + [x])[..k] == order[..k] && (order + [x])[k] == order[k];
      } else {
        assert (order + [x])[..k] == order;
      }
    }
  }

  lemma CountOne(names: seq<nat>, order: seq<Instance>, seats: map<nat, nat>, x: Instance)
    requires Counts(names, order, seats) && x.repo in names
    ensures Counts(names, order + [x], seats[x.repo := seats[x.repo] + 1])
  {
    forall r ensures Seats(order + [x], r) == Seats(order, r) + if x.repo == r then 1 else 0 {
      OfRepoSnoc(order, x, r);
    }
  }

  /** One seat for every repository, in name order. */
  method FirstRound(instances: seq<Instance>, names: seq<nat>, queues: map<nat, seq<Instance>>)
    returns (order: seq<Instance>, seats: map<nat, nat>)
    requires IsTable(instances, names, queues) && forall r :: r in queues ==> queues[r] != []
    ensures FollowsRule(instances, order) && |order| == |names| && Counts(names, order, seats)
  {
    order := [];
    NamesSorted(instances);
    for i := 0 to |names|
      invariant FollowsRule(instances, order) && |order| == i
    {
      var x := queues[names[i]][0];
      FirstIsNext(instances, order, x, i);
      Take(instances, order, x);
      order := order + [x];
    }
    seats := map r | r in queues :: 1;
    forall r | r in names ensures Seats(order, r) == 1 {
      FirstSeats(instances, order, r);
      var k :| 0 <= k < |names| && names[k] == r;
    }
  }

  lemma FirstIsNext(instances: seq<Instance>, order: seq<Instance>, x: Instance, i: nat)
    requires FollowsRule(instances, order) && |order| == i < |Names(instances)|
    requires Queue(instances, Names(instances)[i]) != [] && x == Queue(instances, Names(instances)[i])[0]
    ensures IsNext(instances, order, x)
  {
    var r := Names(instances)[i];
    QueueSorted(instances, r);
    FirstSeats(instances, order, r);
    NamesSorted(instances);
    SeatedNext(Names(instances), i, r);
  }

  /** The whole order follows the rule. */
  method SelectionOrder(instances: seq<Instance>) returns (order: seq<Instance>)
    ensures FollowsRule(instances, order) && |order| == |instances|
  {
    var names, queues := BuildQueues(instances);
    var seats: map<nat, nat>;
    order, seats := FirstRound(instances, names, queues);
    NamesSorted(instances);
    NotLonger(instances, order);
    while |order| < |instances|
      invariant FollowsRule(instances, order) && |names| <= |order| <= |instances| && Counts(names, order, seats)
    {
      OpenIsNamed(instances, order, names, queues, seats);
      var chosen := Leader(names, queues, seats);
      ChosenIsNext(instances, order, names, queues, seats, chosen);
      var x := queues[chosen][seats[chosen]];
      Take(instances, order, x);
      CountOne(names, order, seats, x);
      order := order + [x];
      seats := seats[chosen := seats[chosen] + 1];
    }
  }

  lemma NotLonger(instances: seq<Instance>, order: seq<Instance>)
    requires FollowsRule(instances, order)
    ensures |order| <= |instances|
  {
    forall r ensures OfRepo(order, r) <= Queue(instances, r) {
      TakenInKeyOrder(instances, order, r);
    }
    NothingTwice(instances, order);
    assert multiset(instances) == multiset(order) + (multiset(instances) - multiset(order));
    assert |multiset(order)| == |order| && |multiset(instances)| == |instances|;
  }
}
