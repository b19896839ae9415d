/**
 * Reader counts spread over shards, as both CUDA gates use them. The first threads own a shard each
 * and publish with plain stores; later threads share shards and publish with read-modify-writes.
 */
module ReaderShards {
  import opened Common

  const SHARDS: nat := 256
  const EXCLUSIVE: nat := 192

  datatype Home = NoHome | Home(shard: nat, exclusive: bool)

  /** A thread: its shard, whether the shard counts it, and where it stands. */
  datatype Thread<P> = Thread(home: Home, published: bool, place: P)

  /** The shard a ticket gives. */
  function HomeOf(ticket: nat): Home {
    if ticket < EXCLUSIVE then Home(ticket, true)
    else Home(EXCLUSIVE + (ticket - EXCLUSIVE) % (SHARDS - EXCLUSIVE), false)
  }

  /** The first 192 tickets own a shard each; the others share the 64 that are left, 64 tickets apart. */
  lemma HomesAreSpread(t: nat, u: nat)
    requires t < u
    ensures HomeOf(t).exclusive <==> t < 192
    ensures HomeOf(t).shard < 256 && HomeOf(u).shard < 256
    ensures HomeOf(t).shard == HomeOf(u).shard <==> t >= 192 && (u - t) % 64 == 0
  {
    if t >= 192 {
      SameRemainder(t - 192, u - 192);
    }
  }

  lemma SameRemainder(t: nat, u: nat)
    requires t <= u
    ensures t % 64 == u % 64 <==> (u - t) % 64 == 0
  {
  }

  function Raised(active: seq<int>, home: Home): seq<int>
    requires home.Home? && home.shard < |active|
  {
    active[home.shard := if home.exclusive then 1 else active[home.shard] + 1]
  }

  function Lowered(active: seq<int>, home: Home): seq<int>
    requires home.Home? && home.shard < |active|
  {
    active[home.shard := if home.exclusive then 0 else active[home.shard] - 1]
  }

  predicate AtHome<P>(threads: seq<Thread<P>>, active: seq<int>, t: nat) {
    t < |threads| && threads[t].home.Home? && threads[t].home.shard < |active|
  }

  function CountedIn<P>(shard: nat): Thread<P> -> bool {
    (t: Thread<P>) => t.home.Home? && t.home.shard == shard && t.published
  }

  predicate HomeOk(home: Home, tickets: nat) {
    home.Home? ==> home.shard < SHARDS && (home.exclusive ==> home.shard < tickets) && (home.exclusive <==> home.shard < EXCLUSIVE)
  }

  /** Shards are in range, and an exclusive shard has one owner. */
  predicate HomesOk<P>(threads: seq<Thread<P>>, tickets: nat) {
    && (forall t :: 0 <= t < |threads| ==> HomeOk(threads[t].home, tickets) && (threads[t].published ==> threads[t].home.Home?))
    && (forall t, u :: 0 <= t < u < |threads| && threads[t].home.Home? && threads[t].home.exclusive ==> threads[t].home != threads[u].home)
  }

  /** Each shard's counter is the number of threads published in it. */
  predicate CountsOk<P>(active: seq<int>, threads: seq<Thread<P>>) {
    |active| == SHARDS && forall k :: 0 <= k < SHARDS ==> active[k] == Count(threads, CountedIn(k))
  }

  lemma UnpublishedKeepsCounts<P>(active: seq<int>, threads: seq<Thread<P>>, t: nat, u: Thread<P>)
    requires CountsOk(active, threads) && t < |threads|
    requires u.published == threads[t].published && (u.published ==> u.home == threads[t].home)
    ensures CountsOk(active, threads[t := u])
  {
    forall k | 0 <= k < SHARDS ensures active[k] == Count(threads[t := u], CountedIn(k)) {
      CountUpdate(threads, t, u, CountedIn(k));
    }
  }

  /** The owner of an exclusive shard is the only thread the shard can count. */
  lemma {:induction false} ExclusiveCount<P>(threads: seq<Thread<P>>, tickets: nat, t: nat)
    requires HomesOk(threads, tickets) && t < |threads| && threads[t].home.Home? && threads[t].home.exclusive
    requires !threads[t].published
    ensures Count(threads, CountedIn(threads[t].home.shard)) == 0
  {
    var k := threads[t].home.shard;
    forall u | 0 <= u < |threads| ensures !CountedIn(k)(threads[u]) {
      assert HomeOk(threads[u].home, tickets) && HomeOk(threads[t].home, tickets);
    }
    CountNone(threads, CountedIn(k));
  }

  /** Stores and read-modify-writes agree with the number of threads a shard stands for. */
  lemma PublishKeepsCounts<P>(active: seq<int>, threads: seq<Thread<P>>, tickets: nat, t: nat, u: Thread<P>)
    requires CountsOk(active, threads) && HomesOk(threads, tickets) && t < |threads| && threads[t].home.Home?
    requires !threads[t].published && u.published && u.home == threads[t].home
    ensures CountsOk(Raised(active, u.home), threads[t := u])
  {
    if u.home.exclusive { ExclusiveCount(threads, tickets, t); }
    forall k | 0 <= k < SHARDS ensures Raised(active, u.home)[k] == Count(threads[t := u], CountedIn(k)) {
      CountUpdate(threads, t, u, CountedIn(k));
    }
  }

  lemma WithdrawKeepsCounts<P>(active: seq<int>, threads: seq<Thread<P>>, tickets: nat, t: nat, u: Thread<P>)
    requires CountsOk(active, threads) && HomesOk(threads, tickets) && t < |threads| && threads[t].home.Home?
    requires threads[t].published && !u.published && u.home == threads[t].home
    ensures CountsOk(Lowered(active, u.home), threads[t := u])
  {
    if u.home.exclusive { ExclusiveCount(threads[t := u], tickets, t); }
    forall k | 0 <= k < SHARDS ensures Lowered(active, u.home)[k] == Count(threads[t := u], CountedIn(k)) {
      CountUpdate(threads, t, u, CountedIn(k));
    }
  }

  lemma TicketKeepsHomes<P>(threads: seq<Thread<P>>, tickets: nat, t: nat)
    requires HomesOk(threads, tickets) && t < |threads| && !threads[t].published
    ensures HomesOk(threads[t := threads[t].(home := HomeOf(tickets))], tickets + 1)
  {
  }

  /** An empty shard counts nobody, a non-empty one somebody. */
  lemma ShardSays<P>(active: seq<int>, threads: seq<Thread<P>>, k: nat)
    requires CountsOk(active, threads) && k < SHARDS
    ensures active[k] == 0 ==>
      forall t :: 0 <= t < |threads| && threads[t].home.Home? && threads[t].home.shard == k ==> !threads[t].published
    ensures active[k] != 0 ==>
      exists t :: 0 <= t < |threads| && threads[t].published && threads[t].home.Home? && threads[t].home.shard == k
  {
    if active[k] == 0 {
      forall t | 0 <= t < |threads| ensures !CountedIn(k)(threads[t]) { CountZero(threads, CountedIn(k), t); }
    } else {
      CountSome(threads, CountedIn(k));
      var t :| 0 <= t < |threads| && CountedIn(k)(threads[t]);
      assert threads[t].published;
    }
  }

  lemma NobodyPublished<P>(active: seq<int>, threads: seq<Thread<P>>)
    requires |active| == SHARDS && forall k :: 0 <= k < SHARDS ==> active[k] == 0
    requires forall t :: 0 <= t < |threads| ==> !threads[t].published
    ensures CountsOk(active, threads)
  {
    forall k | 0 <= k < SHARDS ensures Count(threads, CountedIn(k)) == 0 { CountNone(threads, CountedIn(k)); }
  }
}
