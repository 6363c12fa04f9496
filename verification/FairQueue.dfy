/** The run queue: first-in first-out inside each owner, round-robin across owners. */
module FairQueues {
  import opened Basics

  type RunId = string
  type OwnerKey = string

  datatype Stage = Waiting | Streaming | Ended | Notified
  datatype Job = Job(id: RunId, owner: OwnerKey, parent: Option<RunId>,
                     cancelRequested: bool, shutdownRequested: bool, stage: Stage)

  type Buckets = map<OwnerKey, seq<Job>>

  datatype FairQueue = FairQueue(buckets: Buckets, owners: seq<OwnerKey>, lastServed: Option<OwnerKey>)

  const EMPTY := FairQueue(map[], [], None)

  /** Owners with waiting work, each with a non-empty bucket of its own jobs; an owner that
      was served last and still waits is at the back. */
  ghost predicate ValidQueue(q: FairQueue) {
    && Distinct(q.owners) && q.buckets.Keys == Elements(q.owners)
    && (forall o | o in q.buckets :: q.buckets[o] != [] && forall j | j in q.buckets[o] :: j.owner == o)
    && (q.lastServed.Some? && q.lastServed.value in q.owners ==> Last(q.owners) == q.lastServed.value)
  }

  /** The jobs waiting for the listed owners. */
  ghost function ContentsOf(buckets: Buckets, owners: seq<OwnerKey>): multiset<Job>
    requires forall o | o in owners :: o in buckets
  {
    if owners == [] then multiset{}
    else multiset(buckets[owners[0]]) + ContentsOf(buckets, owners[1..])
  }

  ghost function Contents(q: FairQueue): multiset<Job>
    requires ValidQueue(q)
  {
    ContentsOf(q.buckets, q.owners)
  }

  // ----- operations on values -----

  function Enqueued(q: FairQueue, job: Job): FairQueue {
    if job.owner in q.buckets then
      q.(buckets := q.buckets[job.owner := q.buckets[job.owner] + [job]])
    else
      var turn := if q.lastServed.Some? then IndexOf(q.owners, q.lastServed.value) else -1;
      q.(buckets := q.buckets[job.owner := [job]],
         owners := if turn >= 0 && Some(job.owner) != q.lastServed
                   then q.owners[..turn] + [job.owner] + q.owners[turn..]
                   else q.owners + [job.owner])
  }

  /** The first place from `i` on whose oldest job passes the test. */
  function FirstEligible(q: FairQueue, test: Job -> bool, i: nat): (k: nat)
    requires i <= |q.owners|
    requires forall o | o in q.owners :: o in q.buckets && q.buckets[o] != []
    ensures i <= k <= |q.owners|
    ensures forall m :: i <= m < k ==> !test(q.buckets[q.owners[m]][0])
    ensures k < |q.owners| ==> test(q.buckets[q.owners[k]][0])
    decreases |q.owners| - i
  {
    if i == |q.owners| || test(q.buckets[q.owners[i]][0]) then i else FirstEligible(q, test, i + 1)
  }

  function Served(q: FairQueue, k: nat): FairQueue
    requires k < |q.owners| && q.owners[k] in q.buckets && q.buckets[q.owners[k]] != []
  {
    var owner := q.owners[k];
    var rest := q.buckets[owner][1..];
    var turned := q.owners[k + 1..] + q.owners[..k];
    if rest != [] then FairQueue(q.buckets[owner := rest], turned + [owner], Some(owner))
    else FairQueue(q.buckets - {owner}, turned, Some(owner))
  }

  ghost function Dequeued(q: FairQueue, test: Job -> bool): (Option<Job>, FairQueue)
    requires ValidQueue(q)
  {
    var k := FirstEligible(q, test, 0);
    if k == |q.owners| then (None, q) else (Some(q.buckets[q.owners[k]][0]), Served(q, k))
  }

  /** Gives an owner what is left of its bucket; an owner with nothing left is not listed. */
  function Rebucketed(q: FairQueue, owner: OwnerKey, rest: seq<Job>): FairQueue {
    var place := IndexOf(q.owners, owner);
    if rest != [] then q.(buckets := q.buckets[owner := rest])
    else if place >= 0 then q.(buckets := q.buckets - {owner}, owners := q.owners[..place] + q.owners[place + 1..])
    else q.(buckets := q.buckets - {owner})
  }

  function Removed(q: FairQueue, job: Job): FairQueue {
    if job.owner !in q.buckets then q
    else
      var bucket := q.buckets[job.owner];
      var i := IndexOf(bucket, job);
      if i < 0 then q else Rebucketed(q, job.owner, bucket[..i] + bucket[i + 1..])
  }

  function Total(buckets: Buckets, owners: seq<OwnerKey>): nat {
    if owners == [] then 0
    else (if owners[0] in buckets then |buckets[owners[0]]| else 0) + Total(buckets, owners[1..])
  }

  /** The queue in serving order, one job of each owner per round. */
  ghost function RoundRobin(buckets: Buckets, owners: seq<OwnerKey>): seq<Job>
    requires Distinct(owners) && forall o | o in owners :: o in buckets && buckets[o] != []
    decreases Total(buckets, owners)
  {
    if owners == [] then []
    else
      var o := owners[0];
      var rest := buckets[o := buckets[o][1..]];
      TakingOneShrinks(buckets, owners);
      [buckets[o][0]] + RoundRobin(rest, if |buckets[o]| > 1 then owners[1..] + [o] else owners[1..])
  }

  ghost function Values(q: FairQueue): seq<Job>
    requires ValidQueue(q)
  {
    RoundRobin(q.buckets, q.owners)
  }

  // ----- bookkeeping lemmas -----

  lemma {:induction false} TotalAppend(buckets: Buckets, a: seq<OwnerKey>, b: seq<OwnerKey>)
    ensures Total(buckets, a + b) == Total(buckets, a) + Total(buckets, b)
  {
    if a == [] {
      assert a + b == b;
    } else {
      assert (a + b)[1..] == a[1..] + b;
      TotalAppend(buckets, a[1..], b);
    }
  }

  lemma {:induction false} TotalSame(a: Buckets, b: Buckets, owners: seq<OwnerKey>)
    requires forall o | o in owners :: (o in a <==> o in b) && (o in a ==> |a[o]| == |b[o]|)
    ensures Total(a, owners) == Total(b, owners)
  {
    if owners != [] {
      TotalSame(a, b, owners[1..]);
    }
  }

  lemma TakingOneShrinks(buckets: Buckets, owners: seq<OwnerKey>)
    requires owners != [] && Distinct(owners) && forall o | o in owners :: o in buckets && buckets[o] != []
    ensures var o := owners[0];
            var rest := buckets[o := buckets[o][1..]];
            var turned := if |buckets[o]| > 1 then owners[1..] + [o] else owners[1..];
            && Distinct(turned) && (forall x | x in turned :: x in rest && rest[x] != [])
            && Total(rest, turned) == Total(buckets, owners) - 1
  {
    var o := owners[0];
    var rest := buckets[o := buckets[o][1..]];
    TotalSame(buckets, rest, owners[1..]);
    TotalAppend(rest, owners[1..], [o]);
    assert Total(rest, [o]) == |rest[o]| + Total(rest, []);
  }

  lemma {:induction false} ContentsAppend(buckets: Buckets, a: seq<OwnerKey>, b: seq<OwnerKey>)
    requires forall o | o in a + b :: o in buckets
    ensures (forall o | o in a :: o in buckets) && (forall o | o in b :: o in buckets)
    ensures ContentsOf(buckets, a + b) == ContentsOf(buckets, a) + ContentsOf(buckets, b)
  {
    assert forall o :: (o in a ==> o in a + b) && (o in b ==> o in a + b);
    if a == [] {
      assert a + b == b;
    } else {
      assert (a + b)[1..] == a[1..] + b;
      ContentsAppend(buckets, a[1..], b);
    }
  }

  lemma {:induction false} ContentsSame(a: Buckets, b: Buckets, owners: seq<OwnerKey>)
    requires forall o | o in owners :: o in a && o in b && a[o] == b[o]
    ensures ContentsOf(a, owners) == ContentsOf(b, owners)
  {
    if owners != [] {
      ContentsSame(a, b, owners[1..]);
    }
  }

  lemma {:induction false} ContentsMember(buckets: Buckets, owners: seq<OwnerKey>, job: Job)
    requires forall o | o in owners :: o in buckets
    ensures job in ContentsOf(buckets, owners) <==> exists o :: o in owners && job in buckets[o]
  {
    if owners != [] {
      ContentsMember(buckets, owners[1..], job);
      assert owners == [owners[0]] + owners[1..];
    }
  }

  lemma {:induction false} ContentsSize(buckets: Buckets, owners: seq<OwnerKey>)
    requires forall o | o in owners :: o in buckets
    ensures |ContentsOf(buckets, owners)| == Total(buckets, owners)
  {
    if owners != [] {
      ContentsSize(buckets, owners[1..]);
    }
  }

  /** Changing one owner's bucket in place. */
  lemma {:induction false} BucketReplaced(buckets: Buckets, owners: seq<OwnerKey>, k: nat, s: seq<Job>)
    requires k < |owners| && Distinct(owners) && forall o | o in owners :: o in buckets
    ensures ContentsOf(buckets[owners[k] := s], owners) + multiset(buckets[owners[k]])
            == ContentsOf(buckets, owners) + multiset(s)
  {
    var after := buckets[owners[k] := s];
    if k == 0 {
      ContentsSame(buckets, after, owners[1..]);
    } else {
      BucketReplaced(buckets, owners[1..], k - 1, s);
      AddToBoth(multiset(buckets[owners[0]]), ContentsOf(after, owners[1..]), multiset(buckets[owners[k]]),
                ContentsOf(buckets, owners[1..]), multiset(s));
    }
  }

  lemma Cancel(a: multiset<Job>, o: multiset<Job>, c: multiset<Job>, n: multiset<Job>)
    requires a + o == c + n
    ensures forall x :: n == o + x ==> a == c + x
    ensures forall x :: o == n + x ==> c == a + x
  {
    forall x | n == o + x
      ensures a == c + x
    {
      forall e
        ensures a[e] == (c + x)[e]
      {
        assert (a + o)[e] == (c + (o + x))[e];
      }
    }
    forall x | o == n + x
      ensures c == a + x
    {
      forall e
        ensures c[e] == (a + x)[e]
      {
        assert (c + n)[e] == (a + (n + x))[e];
      }
    }
  }

  lemma BucketGains(buckets: Buckets, owners: seq<OwnerKey>, k: nat, job: Job)
    requires k < |owners| && Distinct(owners) && forall o | o in owners :: o in buckets
    ensures ContentsOf(buckets[owners[k] := buckets[owners[k]] + [job]], owners) == ContentsOf(buckets, owners) + multiset{job}
  {
    var bucket := buckets[owners[k]];
    BucketReplaced(buckets, owners, k, bucket + [job]);
    Cancel(ContentsOf(buckets[owners[k] := bucket + [job]], owners), multiset(bucket),
           ContentsOf(buckets, owners), multiset(bucket + [job]));
    assert multiset(bucket + [job]) == multiset(bucket) + multiset{job};
  }

  lemma BucketLoses(buckets: Buckets, owners: seq<OwnerKey>, k: nat, job: Job, rest: seq<Job>)
    requires k < |owners| && Distinct(owners) && forall o | o in owners :: o in buckets
    requires multiset(buckets[owners[k]]) == multiset(rest) + multiset{job}
    ensures ContentsOf(buckets, owners) == ContentsOf(buckets[owners[k] := rest], owners) + multiset{job}
  {
    BucketReplaced(buckets, owners, k, rest);
    Cancel(ContentsOf(buckets[owners[k] := rest], owners), multiset(buckets[owners[k]]),
           ContentsOf(buckets, owners), multiset(rest));
  }

  /** Listing one more owner. */
  lemma OwnerInserted(buckets: Buckets, owners: seq<OwnerKey>, i: nat, owner: OwnerKey, s: seq<Job>)
    requires i <= |owners| && owner !in owners && forall o | o in owners :: o in buckets
    ensures forall o | o in owners[..i] + [owner] + owners[i..] :: o in buckets[owner := s]
    ensures ContentsOf(buckets[owner := s], owners[..i] + [owner] + owners[i..])
            == ContentsOf(buckets, owners) + multiset(s)
  {
    var after := buckets[owner := s];
    var a, b := owners[..i], owners[i..];
    assert owners == a + b;
    assert a + [owner] + b == a + ([owner] + b);
    ContentsAppend(after, a, [owner] + b);
    ContentsAppend(after, [owner], b);
    ContentsAppend(after, a, b);
    ContentsSame(buckets, after, owners);
    assert ContentsOf(after, [owner]) == multiset(s) + ContentsOf(after, []);
    var x, y := ContentsOf(after, a), ContentsOf(after, b);
    assert x + (multiset(s) + y) == x + y + multiset(s);
  }

  // ----- each operation keeps the queue valid and moves exactly one job -----

  lemma ContentsRotate(buckets: Buckets, a: seq<OwnerKey>, b: seq<OwnerKey>)
    requires forall o | o in a + b :: o in buckets
    ensures (forall o | o in b + a :: o in buckets) && ContentsOf(buckets, b + a) == ContentsOf(buckets, a + b)
  {
    assert forall o :: o in a + b <==> o in b + a;
    ContentsAppend(buckets, a, b);
    ContentsAppend(buckets, b, a);
  }

  lemma DistinctWithout<T>(s: seq<T>, k: nat)
    requires Distinct(s) && k < |s|
    ensures Distinct(s[..k] + s[k + 1..]) && Elements(s[..k] + s[k + 1..]) == Elements(s) - {s[k]}
    ensures Distinct(s[k + 1..] + s[..k]) && Elements(s[k + 1..] + s[..k]) == Elements(s) - {s[k]}
  {
    forall x | x in Elements(s) - {s[k]}
      ensures x in s[..k] + s[k + 1..] && x in s[k + 1..] + s[..k]
    {
      var i :| 0 <= i < |s| && s[i] == x;
      if i < k {
        assert s[..k][i] == x;
      } else {
        assert s[k + 1..][i - k - 1] == x;
      }
    }
  }

  lemma DistinctInserted<T>(s: seq<T>, i: nat, x: T)
    requires Distinct(s) && i <= |s| && x !in s
    ensures Distinct(s[..i] + [x] + s[i..]) && Elements(s[..i] + [x] + s[i..]) == Elements(s) + {x}
  {
    forall y | y in s
      ensures y in s[..i] + [x] + s[i..]
    {
      var k :| 0 <= k < |s| && s[k] == y;
      if k >= i {
        assert s[i..][k - i] == y;
      } else {
        assert s[..i][k] == y;
      }
    }
  }

  lemma EnqueueKnownValid(q: FairQueue, job: Job)
    requires ValidQueue(q) && job.owner in q.buckets
    ensures ValidQueue(q.(buckets := q.buckets[job.owner := q.buckets[job.owner] + [job]]))
  {
  }

  lemma EnqueueNewValid(q: FairQueue, job: Job, i: nat)
    requires ValidQueue(q) && job.owner !in q.buckets && i <= |q.owners|
    requires q.lastServed.Some? && q.lastServed.value in q.owners ==> i < |q.owners|
    requires q.lastServed == Some(job.owner) ==> i == |q.owners|
    ensures ValidQueue(q.(buckets := q.buckets[job.owner := [job]], owners := q.owners[..i] + [job.owner] + q.owners[i..]))
  {
    DistinctInserted(q.owners, i, job.owner);
    hide Distinct;
    var owners := q.owners[..i] + [job.owner] + q.owners[i..];
    assert i < |q.owners| ==> Last(owners) == Last(q.owners);
    assert forall x :: x in owners <==> x in Elements(owners);
  }

  lemma EnqueueValid(q: FairQueue, job: Job)
    requires ValidQueue(q)
    ensures ValidQueue(Enqueued(q, job))
  {
    hide IndexOf;
    hide Distinct;
    if job.owner in q.buckets {
      EnqueueKnownValid(q, job);
    } else {
      var turn := if q.lastServed.Some? then IndexOf(q.owners, q.lastServed.value) else -1;
      EnqueueNewValid(q, job, if turn >= 0 then turn else |q.owners|);
      assert q.owners[..|q.owners|] + [job.owner] + q.owners[|q.owners|..] == q.owners + [job.owner];
    }
  }

  lemma ValidParts(q: FairQueue)
    requires ValidQueue(q)
    ensures Distinct(q.owners) && (forall o | o in q.owners :: o in q.buckets && q.buckets[o] != [])
    ensures forall o :: o in q.buckets <==> o in q.owners
  {
  }

  lemma EnqueueContents(q: FairQueue, job: Job)
    requires ValidQueue(q) && ValidQueue(Enqueued(q, job))
    ensures Contents(Enqueued(q, job)) == Contents(q) + multiset{job}
  {
    hide ContentsOf;
    hide Distinct;
    hide IndexOf;
    hide ValidQueue;
    ValidParts(q);
    if job.owner in q.buckets {
      BucketGains(q.buckets, q.owners, IndexOf(q.owners, job.owner), job);
    } else {
      var turn := if q.lastServed.Some? then IndexOf(q.owners, q.lastServed.value) else -1;
      OwnerInserted(q.buckets, q.owners, if turn >= 0 then turn else |q.owners|, job.owner, [job]);
      assert q.owners[..|q.owners|] + [job.owner] + q.owners[|q.owners|..] == q.owners + [job.owner];
    }
  }

  lemma EnqueueKeeps(q: FairQueue, job: Job)
    requires ValidQueue(q)
    ensures ValidQueue(Enqueued(q, job))
    ensures Contents(Enqueued(q, job)) == Contents(q) + multiset{job}
  {
    EnqueueValid(q, job);
    EnqueueContents(q, job);
  }

  lemma ServeValid(q: FairQueue, k: nat)
    requires ValidQueue(q) && k < |q.owners|
    ensures ValidQueue(Served(q, k))
  {
    var owner := q.owners[k];
    var turned := q.owners[k + 1..] + q.owners[..k];
    DistinctWithout(q.owners, k);
    assert owner !in turned;
    assert Elements(turned + [owner]) == Elements(q.owners);
  }

  /** An owner with nothing left may be dropped from the list, and the others rotated. */
  lemma OwnerMoved(buckets: Buckets, owners: seq<OwnerKey>, k: nat)
    requires k < |owners| && forall o | o in owners :: o in buckets
    ensures forall o | o in owners[k + 1..] + owners[..k] + [owners[k]] :: o in buckets
    ensures ContentsOf(buckets, owners[k + 1..] + owners[..k] + [owners[k]]) == ContentsOf(buckets, owners)
    ensures ContentsOf(buckets, owners) == ContentsOf(buckets, owners[k + 1..] + owners[..k]) + multiset(buckets[owners[k]])
    ensures ContentsOf(buckets, owners) == ContentsOf(buckets, owners[..k] + owners[k + 1..]) + multiset(buckets[owners[k]])
  {
    var before, after := owners[..k], owners[k + 1..];
    assert owners == before + ([owners[k]] + after);
    ContentsAppend(buckets, before, [owners[k]] + after);
    ContentsAppend(buckets, [owners[k]], after);
    ContentsAppend(buckets, before, after);
    ContentsAppend(buckets, after, before);
    ContentsAppend(buckets, after + before, [owners[k]]);
    assert ContentsOf(buckets, [owners[k]]) == multiset(buckets[owners[k]]) + ContentsOf(buckets, []);
  }

  lemma ServeContents(q: FairQueue, k: nat)
    requires k < |q.owners| && ValidQueue(q) && ValidQueue(Served(q, k))
    ensures var job := q.buckets[q.owners[k]][0];
            job in Contents(q) && Contents(Served(q, k)) == Contents(q) - multiset{job}
  {
    hide ContentsOf;
    hide Distinct;
    hide ValidQueue;
    ValidParts(q);
    var owner := q.owners[k];
    var bucket := q.buckets[owner];
    var rest := bucket[1..];
    assert bucket == [bucket[0]] + rest;
    var after := q.buckets[owner := rest];
    BucketLoses(q.buckets, q.owners, k, bucket[0], rest);
    OwnerMoved(after, q.owners, k);
    if rest == [] {
      DistinctWithout(q.owners, k);
      ContentsSame(after, Served(q, k).buckets, q.owners[k + 1..] + q.owners[..k]);
    }
  }

  lemma ServeKeeps(q: FairQueue, k: nat)
    requires ValidQueue(q) && k < |q.owners|
    ensures ValidQueue(Served(q, k))
    ensures var job := q.buckets[q.owners[k]][0];
            job.owner == q.owners[k] && job in Contents(q) && Contents(Served(q, k)) == Contents(q) - multiset{job}
  {
    ServeValid(q, k);
    ServeContents(q, k);
  }

  /** Serving takes the oldest job of the first owner that passes; nothing is taken only when
      no owner's oldest job passes. */
  lemma DequeueKeeps(q: FairQueue, test: Job -> bool)
    requires ValidQueue(q)
    ensures var (job, r) := Dequeued(q, test);
            ValidQueue(r)
            && (job.Some? ==> test(job.value) && job.value in Contents(q) && Contents(r) == Contents(q) - multiset{job.value}
                              && job.value == q.buckets[job.value.owner][0])
            && (job.None? ==> r == q && forall o | o in q.buckets :: !test(q.buckets[o][0]))
  {
    var k := FirstEligible(q, test, 0);
    if k < |q.owners| {
      ServeKeeps(q, k);
    }
  }

  /** When eligibility depends on the owner alone, some waiting job is eligible exactly when
      one is served, although only the oldest job of each owner is inspected. */
  lemma ServesIffEligible(q: FairQueue, test: Job -> bool)
    requires ValidQueue(q) && forall a: Job, b: Job :: a.owner == b.owner ==> test(a) == test(b)
    ensures Dequeued(q, test).0.Some? <==> exists job :: job in Contents(q) && test(job)
  {
    DequeueKeeps(q, test);
    if job :| job in Contents(q) && test(job) {
      ContentsMember(q.buckets, q.owners, job);
      var o :| o in q.owners && job in q.buckets[o];
      assert test(q.buckets[o][0]);
    }
  }

  lemma BucketWithout(bucket: seq<Job>, job: Job)
    requires job in bucket
    ensures var i := IndexOf(bucket, job);
            var rest := bucket[..i] + bucket[i + 1..];
            multiset(bucket) == multiset(rest) + multiset{job} && (forall j | j in rest :: j in bucket)
  {
    var i := IndexOf(bucket, job);
    assert bucket == bucket[..i] + [job] + bucket[i + 1..];
  }

  lemma LastWithout<T>(s: seq<T>, k: nat)
    requires k < |s| - 1
    ensures Last(s[..k] + s[k + 1..]) == Last(s)
  {
  }

  lemma ShrinkValid(q: FairQueue, k: nat, rest: seq<Job>)
    requires ValidQueue(q) && k < |q.owners| && rest != [] && forall j | j in rest :: j in q.buckets[q.owners[k]]
    ensures ValidQueue(q.(buckets := q.buckets[q.owners[k] := rest]))
  {
    assert q.owners[k] in q.buckets;
  }

  lemma DropValid(q: FairQueue, k: nat)
    requires ValidQueue(q) && k < |q.owners|
    ensures ValidQueue(q.(buckets := q.buckets - {q.owners[k]}, owners := q.owners[..k] + q.owners[k + 1..]))
  {
    DistinctWithout(q.owners, k);
    if k < |q.owners| - 1 {
      LastWithout(q.owners, k);
    }
  }

  lemma RemoveValid(q: FairQueue, job: Job)
    requires ValidQueue(q) && job.owner in q.buckets && job in q.buckets[job.owner]
    ensures ValidQueue(Removed(q, job))
  {
    hide ValidQueue;
    ValidParts(q);
    var bucket := q.buckets[job.owner];
    BucketWithout(bucket, job);
    var i := IndexOf(bucket, job);
    var k := IndexOf(q.owners, job.owner);
    if bucket[..i] + bucket[i + 1..] != [] {
      ShrinkValid(q, k, bucket[..i] + bucket[i + 1..]);
    } else {
      DropValid(q, k);
    }
  }

  lemma RebucketedContents(q: FairQueue, k: nat, job: Job, rest: seq<Job>)
    requires Distinct(q.owners) && k < |q.owners| && IndexOf(q.owners, q.owners[k]) == k
    requires forall o | o in q.owners :: o in q.buckets
    requires multiset(q.buckets[q.owners[k]]) == multiset(rest) + multiset{job}
    ensures var r := Rebucketed(q, q.owners[k], rest);
            && (forall o | o in r.owners :: o in r.buckets)
            && ContentsOf(q.buckets, q.owners) == ContentsOf(r.buckets, r.owners) + multiset{job}
  {
    hide ContentsOf;
    hide IndexOf;
    var after := q.buckets[q.owners[k] := rest];
    BucketLoses(q.buckets, q.owners, k, job, rest);
    if rest == [] {
      DistinctWithout(q.owners, k);
      hide Distinct;
      OwnerMoved(after, q.owners, k);
      var left := q.owners[..k] + q.owners[k + 1..];
      assert forall o | o in left :: o in Elements(left);
      ContentsSame(after, q.buckets - {q.owners[k]}, left);
    }
  }

  lemma RemoveContents(q: FairQueue, job: Job)
    requires ValidQueue(q) && job.owner in q.buckets && job in q.buckets[job.owner] && ValidQueue(Removed(q, job))
    ensures Contents(Removed(q, job)) == Contents(q) - multiset{job}
  {
    hide ValidQueue;
    hide ContentsOf;
    hide IndexOf;
    hide Distinct;
    hide Rebucketed;
    ValidParts(q);
    var bucket := q.buckets[job.owner];
    BucketWithout(bucket, job);
    var i := IndexOf(bucket, job);
    RebucketedContents(q, IndexOf(q.owners, job.owner), job, bucket[..i] + bucket[i + 1..]);
  }

  lemma RemoveKeeps(q: FairQueue, job: Job)
    requires ValidQueue(q) && job in Contents(q)
    ensures ValidQueue(Removed(q, job)) && Contents(Removed(q, job)) == Contents(q) - multiset{job}
  {
    ContentsMember(q.buckets, q.owners, job);
    RemoveValid(q, job);
    RemoveContents(q, job);
  }

  lemma ContentsHead(buckets: Buckets, owners: seq<OwnerKey>)
    requires owners != [] && forall o | o in owners :: o in buckets
    ensures ContentsOf(buckets, owners) == multiset(buckets[owners[0]]) + ContentsOf(buckets, owners[1..])
  {
  }

  /** One round-robin turn: the job served, the buckets and the owners left. */
  lemma RoundRobinHead(buckets: Buckets, owners: seq<OwnerKey>)
    requires owners != [] && Distinct(owners) && forall o | o in owners :: o in buckets && buckets[o] != []
    ensures var o := owners[0];
            var rest := buckets[o := buckets[o][1..]];
            var turned := if |buckets[o]| > 1 then owners[1..] + [o] else owners[1..];
            && Distinct(turned) && (forall x | x in turned :: x in rest && rest[x] != [])
            && Total(rest, turned) == Total(buckets, owners) - 1
            && RoundRobin(buckets, owners) == [buckets[o][0]] + RoundRobin(rest, turned)
  {
    TakingOneShrinks(buckets, owners);
    hide Total;
    hide Distinct;
  }

  lemma RoundRobinEmpty(buckets: Buckets)
    ensures RoundRobin(buckets, []) == []
  {
  }

  lemma TurnContents(buckets: Buckets, owners: seq<OwnerKey>)
    requires owners != [] && Distinct(owners) && forall o | o in owners :: o in buckets && buckets[o] != []
    ensures var o := owners[0];
            var rest := buckets[o := buckets[o][1..]];
            var turned := if |buckets[o]| > 1 then owners[1..] + [o] else owners[1..];
            && (forall x | x in turned :: x in rest)
            && ContentsOf(buckets, owners) == multiset{buckets[o][0]} + ContentsOf(rest, turned)
  {
    hide ContentsOf;
    hide Distinct;
    var o := owners[0];
    var bucket := buckets[o];
    var rest := buckets[o := bucket[1..]];
    assert bucket == [bucket[0]] + bucket[1..];
    BucketLoses(buckets, owners, 0, bucket[0], bucket[1..]);
    assert [o] + owners[1..] == owners;
    if |bucket| > 1 {
      ContentsRotate(rest, [o], owners[1..]);
    } else {
      ContentsHead(rest, owners);
    }
  }

  lemma {:induction false} RoundRobinContents(buckets: Buckets, owners: seq<OwnerKey>)
    requires Distinct(owners) && forall o | o in owners :: o in buckets && buckets[o] != []
    ensures multiset(RoundRobin(buckets, owners)) == ContentsOf(buckets, owners)
    decreases Total(buckets, owners)
  {
    if owners != [] {
      hide ContentsOf;
      hide RoundRobin;
      hide Total;
      hide Distinct;
      var o := owners[0];
      var rest := buckets[o := buckets[o][1..]];
      var turned := if |buckets[o]| > 1 then owners[1..] + [o] else owners[1..];
      RoundRobinHead(buckets, owners);
      TurnContents(buckets, owners);
      RoundRobinContents(rest, turned);
      PrependCounts(buckets[o][0], RoundRobin(rest, turned));
    }
  }

  lemma PrependCounts(job: Job, jobs: seq<Job>)
    ensures multiset([job] + jobs) == multiset{job} + multiset(jobs)
  {
  }

  // ----- fairness -----

  /** An owner's turn never recedes: a newcomer is placed behind everyone already waiting,
      except that it goes before the owner served last. */
  lemma TurnKeptByEnqueue(q: FairQueue, job: Job, owner: OwnerKey)
    requires ValidQueue(q) && owner in q.owners && Some(owner) != q.lastServed
    ensures owner in Enqueued(q, job).owners
    ensures IndexOf(Enqueued(q, job).owners, owner) == IndexOf(q.owners, owner)
  {
    EnqueueKeeps(q, job);
    var r := Enqueued(q, job);
    var i := IndexOf(q.owners, owner);
    assert r.owners[i] == owner;
  }

  /** Every service granted to someone else while an owner is eligible brings that owner
      strictly closer to its turn. */
  lemma TurnApproaches(q: FairQueue, test: Job -> bool, owner: OwnerKey)
    requires ValidQueue(q) && owner in q.owners && test(q.buckets[owner][0])
    ensures var (job, r) := Dequeued(q, test);
            job.Some? && (job.value.owner == owner || (owner in r.owners && Some(owner) != r.lastServed
                          && IndexOf(r.owners, owner) < IndexOf(q.owners, owner)
                          && r.buckets[owner] == q.buckets[owner]))
  {
    hide ValidQueue;
    hide IndexOf;
    hide Contents;
    hide Served;
    hide FirstEligible;
    hide Distinct;
    ValidParts(q);
    var i := IndexOf(q.owners, owner);
    var k := FirstEligible(q, test, 0);
    ServeKeeps(q, k);
    if k < i {
      ServedTurn(q, k, i);
      IndexAtMost(Served(q, k).owners, owner, i - k - 1);
    }
  }

  /** Taking jobs back brings an owner that still waits no further from its turn. */
  lemma TurnKeptByRemove(q: FairQueue, job: Job, owner: OwnerKey)
    requires ValidQueue(q) && owner in q.owners && owner in Removed(q, job).owners
    ensures Removed(q, job).lastServed == q.lastServed
    ensures IndexOf(Removed(q, job).owners, owner) <= IndexOf(q.owners, owner)
  {
    hide ValidQueue;
    hide IndexOf;
    hide Removed;
    hide Distinct;
    ValidParts(q);
    RemovedOwners(q, job);
    var i, p := IndexOf(q.owners, owner), IndexOf(q.owners, job.owner);
    var left := Removed(q, job).owners;
    OnlyPlaceRemoved(q.owners, i);
    if left != q.owners {
      assert i != p;
      if i < p {
        assert left[i] == owner;
        IndexAtMost(left, owner, i);
      } else if p < i {
        assert left[i - 1] == owner;
        IndexAtMost(left, owner, i - 1);
      }
    }
  }

  lemma RemovedOwners(q: FairQueue, job: Job)
    ensures var r, p := Removed(q, job), IndexOf(q.owners, job.owner);
            r.lastServed == q.lastServed
            && (r.owners == q.owners || (p >= 0 && r.owners == q.owners[..p] + q.owners[p + 1..]))
  {
    hide IndexOf;
  }

  lemma OnlyPlaceRemoved(s: seq<OwnerKey>, i: nat)
    requires Distinct(s) && i < |s|
    ensures s[i] !in s[..i] + s[i + 1..]
  {
  }

  /** One use of the queue. */
  datatype Use = Enqueue(job: Job) | Remove(job: Job) | Dequeue(test: Job -> bool)

  ghost function Used(q: FairQueue, use: Use): FairQueue
    requires ValidQueue(q)
  {
    match use
    case Enqueue(job) => Enqueued(q, job)
    case Remove(job) => Removed(q, job)
    case Dequeue(test) => Dequeued(q, test).1
  }

  lemma UsedValid(q: FairQueue, use: Use)
    requires ValidQueue(q)
    ensures ValidQueue(Used(q, use))
  {
    hide ValidQueue;
    hide Served;
    hide FirstEligible;
    match use
    case Enqueue(job) => EnqueueKeeps(q, job);
    case Remove(job) => RemovalFacts(q, job);
    case Dequeue(test) => DequeueKeeps(q, test);
  }

  /** The owner waits all through the uses: whenever a job is taken, its oldest job passes the
      test, but somebody else is served. */
  ghost predicate PassedOver(q: FairQueue, uses: seq<Use>, owner: OwnerKey)
    requires ValidQueue(q)
    decreases |uses|
  {
    owner in q.owners && owner in q.buckets && q.buckets[owner] != []
    && (uses != [] ==>
          (uses[0].Dequeue? ==>
             uses[0].test(q.buckets[owner][0])
             && (Dequeued(q, uses[0].test).0.Some? ==> Dequeued(q, uses[0].test).0.value.owner != owner))
          && (UsedValid(q, uses[0]); PassedOver(Used(q, uses[0]), uses[1..], owner)))
  }

  function Services(uses: seq<Use>): nat {
    if uses == [] then 0 else (if uses[0].Dequeue? then 1 else 0) + Services(uses[1..])
  }

  lemma TurnKeptByUse(q: FairQueue, use: Use, owner: OwnerKey)
    requires ValidQueue(q) && owner in q.owners && Some(owner) != q.lastServed
    requires owner in Used(q, use).owners && owner in q.buckets && q.buckets[owner] != []
    requires use.Dequeue? ==> use.test(q.buckets[owner][0])
    requires use.Dequeue? && Dequeued(q, use.test).0.Some? ==> Dequeued(q, use.test).0.value.owner != owner
    ensures var r := Used(q, use);
            Some(owner) != r.lastServed
            && IndexOf(r.owners, owner) <= IndexOf(q.owners, owner) - if use.Dequeue? then 1 else 0
  {
    hide ValidQueue;
    hide IndexOf;
    hide Served;
    hide FirstEligible;
    hide Dequeued;
    hide Removed;
    match use
    case Enqueue(job) => TurnKeptByEnqueue(q, job, owner);
    case Remove(job) => TurnKeptByRemove(q, job, owner);
    case Dequeue(test) => TurnApproaches(q, test, owner);
  }

  /** The wait is bounded: however jobs are enqueued, taken back and served in between, an owner
      that was not served last is passed over at most as often as owners stood before it. */
  lemma {:induction false} WaitBound(q: FairQueue, uses: seq<Use>, owner: OwnerKey)
    requires ValidQueue(q) && Some(owner) != q.lastServed && PassedOver(q, uses, owner)
    ensures Services(uses) <= IndexOf(q.owners, owner)
    decreases |uses|
  {
    hide ValidQueue;
    hide IndexOf;
    hide Used;
    hide Dequeued;
    if uses != [] {
      UsedValid(q, uses[0]);
      TurnKeptByUse(q, uses[0], owner);
      WaitBound(Used(q, uses[0]), uses[1..], owner);
    }
  }

  lemma ServedTurn(q: FairQueue, k: nat, i: nat)
    requires ValidQueue(q) && k < i < |q.owners|
    ensures var r := Served(q, k);
            && i - k - 1 < |r.owners| && r.owners[i - k - 1] == q.owners[i]
            && r.lastServed == Some(q.owners[k]) && q.owners[k] != q.owners[i]
            && q.owners[i] in r.buckets && r.buckets[q.owners[i]] == q.buckets[q.owners[i]]
  {
    assert q.owners[i] in q.owners && q.owners[k] in q.owners;
  }

  lemma IndexAtMost(s: seq<OwnerKey>, x: OwnerKey, j: nat)
    requires j < |s| && s[j] == x
    ensures x in s && 0 <= IndexOf(s, x) <= j
  {
    var i := IndexOf(s, x);
    assert forall k :: 0 <= k < i ==> s[..i][k] == s[k];
  }

  lemma DequeuedAt(q: FairQueue, test: Job -> bool, k: nat)
    requires ValidQueue(q) && k < |q.owners| && FirstEligible(q, test, 0) == k
    ensures q.owners[k] in q.buckets && q.buckets[q.owners[k]] != []
    ensures Dequeued(q, test) == (Some(q.buckets[q.owners[k]][0]), Served(q, k))
  {
    hide FirstEligible;
    hide Served;
  }

  lemma DequeuedNone(q: FairQueue, test: Job -> bool)
    requires ValidQueue(q) && FirstEligible(q, test, 0) == |q.owners|
    ensures Dequeued(q, test) == (None, q)
  {
    hide FirstEligible;
  }

  /** The owners in the order left after inspecting the first k of them in vain. */
  function Rotated(s: seq<OwnerKey>, k: nat): seq<OwnerKey>
    requires k <= |s|
  {
    s[k..] + s[..k]
  }

  lemma RotationStep(s: seq<OwnerKey>, k: nat)
    requires k < |s|
    ensures Rotated(s, k) != [] && Rotated(s, k)[0] == s[k] && Rotated(s, k)[1..] == s[k + 1..] + s[..k]
    ensures Rotated(s, k)[1..] + [s[k]] == Rotated(s, k + 1)
  {
  }

  lemma RotationEnds(s: seq<OwnerKey>)
    ensures Rotated(s, 0) == s && Rotated(s, |s|) == s
  {
  }

  lemma EligibleIs(q: FairQueue, test: Job -> bool, k: nat)
    requires forall o | o in q.owners :: o in q.buckets && q.buckets[o] != []
    requires k <= |q.owners| && (k < |q.owners| ==> test(q.buckets[q.owners[k]][0]))
    requires forall m :: 0 <= m < k ==> !test(q.buckets[q.owners[m]][0])
    ensures FirstEligible(q, test, 0) == k
  {
    hide FirstEligible;
  }

  /** What removing does, seen from the job: it is there exactly when its owner's bucket has it,
      and otherwise nothing changes. */
  lemma RemovalFacts(q: FairQueue, job: Job)
    requires ValidQueue(q)
    ensures job in Contents(q) <==> job.owner in q.buckets && job in q.buckets[job.owner]
    ensures ValidQueue(Removed(q, job))
    ensures job !in Contents(q) ==> Removed(q, job) == q
  {
    hide ContentsOf;
    ContentsMember(q.buckets, q.owners, job);
    if job in Contents(q) {
      RemoveKeeps(q, job);
    }
  }

  // ----- the queue object -----

  class OwnerFairQueue {
    var buckets: Buckets
    var owners: seq<OwnerKey>
    var lastServed: Option<OwnerKey>

    ghost function State(): FairQueue
      reads this
    {
      FairQueue(buckets, owners, lastServed)
    }

    ghost predicate Valid()
      reads this
    {
      ValidQueue(State())
    }

    constructor ()
      ensures State() == EMPTY && Valid()
    {
      buckets, owners, lastServed := map[], [], None;
    }

    method Length() returns (total: nat)
      requires Valid()
      ensures total == |Contents(State())|
    {
      ContentsSize(buckets, owners);
      total := 0;
      var i := 0;
      while i < |owners|
        invariant 0 <= i <= |owners|
        invariant total + Total(buckets, owners[i..]) == Total(buckets, owners)
      {
        assert owners[i..][1..] == owners[i + 1..];
        total := total + |buckets[owners[i]]|;
        i := i + 1;
      }
    }

    method Enqueue(job: Job)
      requires Valid()
      modifies this
      ensures Valid() && State() == Enqueued(old(State()), job)
      ensures Contents(State()) == old(Contents(State())) + multiset{job}
    {
      EnqueueKeeps(State(), job);
      if job.owner in buckets {
        buckets := buckets[job.owner := buckets[job.owner] + [job]];
        return;
      }
      buckets := buckets[job.owner := [job]];
      var turn := if lastServed.Some? then IndexOf(owners, lastServed.value) else -1;
      if turn >= 0 && Some(job.owner) != lastServed {
        owners := owners[..turn] + [job.owner] + owners[turn..];
      } else {
        owners := owners + [job.owner];
      }
    }

    /** Takes the oldest job of the owner inspected, which goes to the back if it has more. */
    method Serve(ghost q: FairQueue, ghost k: nat, owner: OwnerKey)
      requires k < |q.owners| && q.owners[k] == owner && owner in q.buckets && q.buckets[owner] != []
      requires buckets == q.buckets && owners == q.owners[k + 1..] + q.owners[..k]
      modifies this
      ensures State() == Served(q, k)
    {
      var rest := buckets[owner][1..];
      lastServed := Some(owner);
      if rest != [] {
        buckets := buckets[owner := rest];
        owners := owners + [owner];
      } else {
        buckets := buckets - {owner};
      }
    }

    /** Turns the owners until the first one's oldest job passes; owners that may not run yet keep
        their order. */
    method TurnToEligible(test: Job -> bool) returns (found: bool)
      requires Valid()
      modifies this`owners
      ensures var k := FirstEligible(old(State()), test, 0);
              found == (k < |old(owners)|) && owners == Rotated(old(owners), k)
    {
      hide FirstEligible;
      hide ValidQueue;
      hide Distinct;
      hide Rotated;
      ghost var q := State();
      ValidParts(q);
      RotationEnds(q.owners);
      var inspected := 0;
      while inspected < |owners|
        invariant 0 <= inspected <= |owners| == |q.owners|
        invariant owners == Rotated(q.owners, inspected)
        invariant forall m :: 0 <= m < inspected ==> !test(q.buckets[q.owners[m]][0])
        decreases |q.owners| - inspected
      {
        RotationStep(q.owners, inspected);
        var owner := owners[0];
        if test(buckets[owner][0]) {
          EligibleIs(q, test, inspected);
          return true;
        }
        owners := owners[1..] + [owner];
        inspected := inspected + 1;
      }
      EligibleIs(q, test, inspected);
      return false;
    }

    method DequeueWhere(test: Job -> bool) returns (job: Option<Job>)
      requires Valid()
      modifies this
      ensures Valid() && (job, State()) == Dequeued(old(State()), test)
    {
      hide FirstEligible;
      hide Served;
      hide Dequeued;
      hide Contents;
      hide ContentsOf;
      hide Distinct;
      ghost var q := State();
      ghost var k := FirstEligible(q, test, 0);
      var found := TurnToEligible(test);
      if !found {
        RotationEnds(owners);
        DequeuedNone(q, test);
        RotationEnds(q.owners);
        return None;
      }
      RotationStep(q.owners, k);
      ServeValid(q, k);
      DequeuedAt(q, test, k);
      var owner := owners[0];
      var item := buckets[owner][0];
      owners := owners[1..];
      Serve(q, k, owner);
      return Some(item);
    }

    method Remove(job: Job) returns (found: bool)
      requires Valid()
      modifies this
      ensures Valid() && State() == Removed(old(State()), job)
      ensures found <==> job in old(Contents(State()))
    {
      hide ValidQueue;
      hide Contents;
      hide IndexOf;
      hide Rebucketed;
      RemovalFacts(State(), job);
      if job.owner !in buckets {
        return false;
      }
      var bucket := buckets[job.owner];
      var index := IndexOf(bucket, job);
      if index < 0 {
        return false;
      }
      Rebucket(job.owner, bucket[..index] + bucket[index + 1..]);
      return true;
    }

    method Rebucket(owner: OwnerKey, rest: seq<Job>)
      modifies this
      ensures State() == Rebucketed(old(State()), owner, rest)
    {
      if rest != [] {
        buckets := buckets[owner := rest];
      } else {
        buckets := buckets - {owner};
        var place := IndexOf(owners, owner);
        if place >= 0 {
          owners := owners[..place] + owners[place + 1..];
        }
      }
    }

    method Snapshot() returns (jobs: seq<Job>)
      requires Valid()
      ensures jobs == Values(State())
    {
      hide ValidQueue;
      hide RoundRobin;
      hide Total;
      hide Distinct;
      ValidParts(State());
      var left, turns := buckets, owners;
      jobs := [];
      while turns != []
        invariant Distinct(turns) && forall o | o in turns :: o in left && left[o] != []
        invariant jobs + RoundRobin(left, turns) == Values(State())
        decreases Total(left, turns)
      {
        RoundRobinHead(left, turns);
        var owner := turns[0];
        jobs := jobs + [left[owner][0]];
        turns := if |left[owner]| > 1 then turns[1..] + [owner] else turns[1..];
        left := left[owner := left[owner][1..]];
      }
      RoundRobinEmpty(left);
    }
  }
}
