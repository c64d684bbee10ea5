/**
 The write-behind cache of read positions (internal/server/conversation.go): senders push positions into it while
 proposals copy it, store the copy in pieces and then drop what was stored.
 */
module Conversations {
  import opened Options

  type Uid(==, !new)
  type Channel(==, !new)

  datatype UserUpdate = UserUpdate(uid: Uid, messageSeq: nat)

  /** The position cached for a user, or -1. */
  function Cached(users: seq<UserUpdate>, uid: Uid): int {
    if users == [] then -1 else if users[0].uid == uid then users[0].messageSeq else Cached(users[1..], uid)
  }

  lemma {:induction false} CachedBound(users: seq<UserUpdate>, uid: Uid)
    ensures Cached(users, uid) >= -1
  {
    if users != [] { CachedBound(users[1..], uid); }
  }

  /** Each user at most once. */
  predicate Distinct(users: seq<UserUpdate>) {
    forall i, j :: 0 <= i < j < |users| ==> users[i].uid != users[j].uid
  }

  lemma {:induction false} CachedAt(users: seq<UserUpdate>, uid: Uid)
    requires Distinct(users)
    ensures forall i :: 0 <= i < |users| && users[i].uid == uid ==> Cached(users, uid) == users[i].messageSeq
    ensures (forall i :: 0 <= i < |users| ==> users[i].uid != uid) ==> Cached(users, uid) == -1
  {
    if users != [] {
      CachedAt(users[1..], uid);
      forall i | 0 <= i < |users| && users[i].uid == uid ensures Cached(users, uid) == users[i].messageSeq {
        if i > 0 { assert users[1..][i - 1] == users[i]; }
      }
    }
  }

  function Max(a: int, b: int): int { if a >= b then a else b }

  datatype Sent = Sent(fromUid: Uid, messageSeq: nat)

  /** A stored message of a sender that this node keeps positions for. */
  predicate Counts(m: Sent, systemUid: Uid, local: set<Uid>) {
    m.messageSeq > 0 && m.fromUid != systemUid && m.fromUid in local
  }

  /** The largest position that the messages give a user, or -1. */
  function Largest(ms: seq<Sent>, systemUid: Uid, local: set<Uid>, uid: Uid): int {
    if ms == [] then -1
    else
      var last := ms[|ms| - 1];
      var rest := Largest(ms[..|ms| - 1], systemUid, local, uid);
      if Counts(last, systemUid, local) && last.fromUid == uid then Max(rest, last.messageSeq) else rest
  }

  /** It is the position of one of the user's messages, and no other is beyond it. */
  lemma {:induction false} LargestIsLargest(ms: seq<Sent>, systemUid: Uid, local: set<Uid>, uid: Uid)
    ensures forall m <- ms :: Counts(m, systemUid, local) && m.fromUid == uid ==> m.messageSeq <= Largest(ms, systemUid, local, uid)
    ensures Largest(ms, systemUid, local, uid) >= 0 ==>
              Counts(Sent(uid, Largest(ms, systemUid, local, uid)), systemUid, local) && Sent(uid, Largest(ms, systemUid, local, uid)) in ms
    ensures Largest(ms, systemUid, local, uid) >= -1
  {
    if ms != [] {
      LargestIsLargest(ms[..|ms| - 1], systemUid, local, uid);
      assert ms == ms[..|ms| - 1] + [ms[|ms| - 1]];
    }
  }

  /** Whether the whole channel is to be stored, and the tag that this was last asked for with. */
  datatype Scope = Scope(tagKey: string, all: bool)

  /** When a request asks for the whole channel, and which tag is then the last one. */
  lemma WidenedIff(was: Scope, messages: seq<Sent>, person: bool, cmd: bool, tagKey: string)
    ensures var s := Widened(was, messages, person, cmd, tagKey);
      && (s.all <==> was.all || (messages != [] && !person && ((cmd && messages[0].messageSeq == 1) || tagKey != was.tagKey)))
      && (s.tagKey == if messages != [] && !person then tagKey else was.tagKey)
  {
  }

  /** What the stored messages of a request make of it. */
  function Widened(was: Scope, messages: seq<Sent>, person: bool, cmd: bool, tagKey: string): Scope {
    if messages == [] || person then was
    else if (cmd && messages[0].messageSeq == 1) || was.tagKey != tagKey then Scope(tagKey, true)
    else was
  }

  /** What one channel has to store: positions of single users and, with `updateAll`, of everybody on this node. */
  class ConversationUpdate {
    const channel: Channel
    const suggestMessageSeq: nat
    var users: seq<UserUpdate>
    var deleted: set<Uid>
    var updateAll: bool
    var lastTagKey: string

    ghost predicate Valid()
      reads this
    {
      Distinct(users)
    }

    function Marks(): Scope
      reads this
    {
      Scope(lastTagKey, updateAll)
    }

    constructor (channel: Channel, suggestMessageSeq: nat)
      ensures Valid() && users == [] && deleted == {} && Marks() == Scope("", false)
      ensures this.channel == channel && this.suggestMessageSeq == suggestMessageSeq
    {
      this.channel, this.suggestMessageSeq := channel, suggestMessageSeq;
      users, deleted, updateAll, lastTagKey := [], {}, false, "";
    }

    /** The cached position only grows, and nobody else's changes. */
    method AddOrUpdateUser(uid: Uid, messageSeq: nat)
      requires Valid()
      modifies this`users, this`deleted
      ensures Valid() && deleted == old(deleted) - {uid}
      ensures forall v: Uid :: Cached(users, v) == if v == uid then Max(old(Cached(users, v)), messageSeq) else old(Cached(users, v))
    {
      deleted := deleted - {uid};
      ghost var before := users;
      CachedAt(before, uid);
      var i := 0;
      while i < |users|
        invariant i <= |users| && users == before && forall j :: 0 <= j < i ==> users[j].uid != uid
        invariant deleted == old(deleted) - {uid}
      {
        if users[i].uid == uid {
          if messageSeq > users[i].messageSeq {
            users := users[i := UserUpdate(uid, messageSeq)];
          }
          forall v: Uid
            ensures Cached(users, v) == if v == uid then Max(Cached(before, v), messageSeq) else Cached(before, v)
          {
            SamePlaces(before, users, v, i);
          }
          return;
        }
        i := i + 1;
      }
      users := users + [UserUpdate(uid, messageSeq)];
      forall v: Uid
        ensures Cached(users, v) == if v == uid then Max(Cached(before, v), messageSeq) else Cached(before, v)
      {
        CachedAppended(before, UserUpdate(uid, messageSeq), v);
      }
    }

    /**
     The senders' part of a request. `local` are the users whose slot leader is this node; where the lookup fails the
     message is skipped.
     */
    method HandleSenders(ms: seq<Sent>, systemUid: Uid, local: set<Uid>)
      requires Valid()
      modifies this`users, this`deleted
      ensures Valid()
      ensures forall v: Uid :: Cached(users, v) == Max(old(Cached(users, v)), Largest(ms, systemUid, local, v))
      ensures forall m <- ms :: m.messageSeq > 0 && m.fromUid in local && m.fromUid != systemUid ==> Cached(users, m.fromUid) >= m.messageSeq
      ensures forall v: Uid :: Cached(users, v) != old(Cached(users, v)) ==>
        v in local && v != systemUid && exists m <- ms :: m.fromUid == v && m.messageSeq == Cached(users, v) && m.messageSeq > 0
    {
      ghost var before := users;
      assert forall v: Uid :: Cached(before, v) >= -1 by { forall v: Uid ensures Cached(before, v) >= -1 { CachedBound(before, v); } }
      for i := 0 to |ms|
        invariant Valid()
        invariant forall v: Uid :: Cached(users, v) == Max(Cached(before, v), Largest(ms[..i], systemUid, local, v))
      {
        assert ms[..i + 1][..i] == ms[..i] && ms[..i + 1][i] == ms[i];
        if ms[i].messageSeq > 0 && ms[i].fromUid != systemUid && ms[i].fromUid in local {
          AddOrUpdateUser(ms[i].fromUid, ms[i].messageSeq);
        }
      }
      assert ms[..|ms|] == ms;
      forall m | m in ms && m.messageSeq > 0 && m.fromUid in local && m.fromUid != systemUid
        ensures Cached(users, m.fromUid) >= m.messageSeq
      {
        LargestIsLargest(ms, systemUid, local, m.fromUid);
      }
      forall v: Uid | Cached(users, v) != Cached(before, v)
        ensures v in local && v != systemUid && exists m <- ms :: m.fromUid == v && m.messageSeq == Cached(users, v) && m.messageSeq > 0
      {
        LargestIsLargest(ms, systemUid, local, v);
        assert Sent(v, Largest(ms, systemUid, local, v)) in ms;
      }
    }

    /** Take out a user whose position is not beyond the stored one. */
    method RemoveUserIfSeqLE(uid: Uid, messageSeq: nat)
      requires Valid()
      modifies this`users
      ensures Valid()
      ensures forall v: Uid :: Cached(users, v) == if v == uid && old(Cached(users, v)) <= messageSeq then -1 else old(Cached(users, v))
    {
      ghost var before := users;
      CachedAt(before, uid);
      var i := 0;
      while i < |users|
        invariant i <= |users| && users == before
        invariant forall j :: 0 <= j < i ==> !(users[j].uid == uid && users[j].messageSeq <= messageSeq)
      {
        if users[i].uid == uid && users[i].messageSeq <= messageSeq {
          users := users[..i] + users[i + 1..];
          forall v: Uid ensures Cached(users, v) == if v == uid then -1 else Cached(before, v) { CachedWithout(before, i, v); }
          break;
        }
        i := i + 1;
      }
    }

    method DeleteUser(uid: Uid)
      requires Valid()
      modifies this`users, this`deleted
      ensures Valid() && deleted == old(deleted) + {uid}
      ensures forall v: Uid :: Cached(users, v) == if v == uid then -1 else old(Cached(users, v))
    {
      ghost var before := users;
      CachedAt(before, uid);
      var i := 0;
      while i < |users|
        invariant i <= |users| && users == before && forall j :: 0 <= j < i ==> users[j].uid != uid
      {
        if users[i].uid == uid {
          users := users[..i] + users[i + 1..];
          forall v: Uid ensures Cached(users, v) == if v == uid then -1 else Cached(before, v) { CachedWithout(before, i, v); }
          break;
        }
        i := i + 1;
      }
      deleted := deleted + {uid};
    }

    /**
     What a proposal stores for the channel: every cached position, and the suggested one for those of `wanted` without
     a cached position. `wanted` are the users of this node for whom nothing is stored yet.
     */
    method GetConversations(wanted: seq<Uid>) returns (cs: seq<Conversation>)
      requires Valid()
      ensures |users| <= |cs| && forall i :: 0 <= i < |users| ==> cs[i] == Conversation(Key(channel, users[i].uid), users[i].messageSeq)
      ensures forall i :: |users| <= i < |cs| ==>
        updateAll && cs[i].key.channel == channel && cs[i].key.uid in wanted && Cached(users, cs[i].key.uid) == -1
        && cs[i].readToMsgSeq == if suggestMessageSeq > 0 then suggestMessageSeq - 1 else 0
      ensures updateAll ==> forall v <- wanted :: Cached(users, v) == -1 ==> exists i :: |users| <= i < |cs| && cs[i].key.uid == v
    {
      cs := seq(|users|, i requires 0 <= i < |users| reads this => Conversation(Key(channel, users[i].uid), users[i].messageSeq));
      if !updateAll { return; }
      var suggested := if suggestMessageSeq > 0 then suggestMessageSeq - 1 else 0;
      for n := 0 to |wanted|
        invariant |users| <= |cs| && forall i :: 0 <= i < |users| ==> cs[i] == Conversation(Key(channel, users[i].uid), users[i].messageSeq)
        invariant forall i :: |users| <= i < |cs| ==>
          cs[i].key.channel == channel && cs[i].key.uid in wanted && Cached(users, cs[i].key.uid) == -1 && cs[i].readToMsgSeq == suggested
        invariant forall v <- wanted[..n] :: Cached(users, v) == -1 ==> exists i :: |users| <= i < |cs| && cs[i].key.uid == v
      {
        ghost var before := cs;
        if Cached(users, wanted[n]) == -1 {
          cs := cs + [Conversation(Key(channel, wanted[n]), suggested)];
          assert cs[|before|].key.uid == wanted[n];
        }
        forall v | v in wanted[..n + 1] && Cached(users, v) == -1 ensures exists i :: |users| <= i < |cs| && cs[i].key.uid == v {
          if v in wanted[..n] {
            var i :| |users| <= i < |before| && before[i].key.uid == v;
            assert cs[i].key.uid == v;
          }
        }
      }
    }
  }

  lemma SamePlaces(a: seq<UserUpdate>, b: seq<UserUpdate>, v: Uid, i: nat)
    requires Distinct(a) && i < |a| == |b| && (b == a || b == a[i := UserUpdate(a[i].uid, b[i].messageSeq)])
    ensures Distinct(b) && Cached(b, v) == if v == a[i].uid then b[i].messageSeq else Cached(a, v)
  {
    CachedAt(a, v);
    CachedAt(b, v);
    if j :| 0 <= j < |a| && a[j].uid == v { assert b[j].uid == v; }
  }

  lemma CachedAppended(a: seq<UserUpdate>, u: UserUpdate, v: Uid)
    requires Distinct(a) && forall j :: 0 <= j < |a| ==> a[j].uid != u.uid
    ensures Distinct(a + [u]) && Cached(a + [u], v) == if v == u.uid then Max(Cached(a, v), u.messageSeq) else Cached(a, v)
  {
    var b := a + [u];
    CachedAt(a, v);
    CachedAt(b, v);
    assert b[|a|] == u;
    if j :| 0 <= j < |a| && a[j].uid == v { assert b[j].uid == v; }
  }

  /** Where element j of the shorter list stood. */
  function Before(j: int, i: int): int { if j < i then j else j + 1 }

  lemma WithoutIs(a: seq<UserUpdate>, b: seq<UserUpdate>, i: nat, v: Uid)
    requires Distinct(a) && i < |a| == |b| + 1 && forall j :: 0 <= j < |b| ==> b[j] == a[Before(j, i)]
    ensures Distinct(b) && Cached(b, v) == if v == a[i].uid then -1 else Cached(a, v)
  {
    forall x, y | 0 <= x < y < |b| ensures b[x].uid != b[y].uid {
      assert a[Before(x, i)].uid != a[Before(y, i)].uid;
    }
    CachedAt(a, v);
    CachedAt(b, v);
    if j :| 0 <= j < |a| && a[j].uid == v && j != i {
      var k := if j < i then j else j - 1;
      assert Before(k, i) == j && b[k].uid == v;
    } else {
      forall k | 0 <= k < |b| ensures b[k].uid != v { assert a[Before(k, i)].uid != v; }
    }
  }

  lemma CachedWithout(a: seq<UserUpdate>, i: nat, v: Uid)
    requires Distinct(a) && i < |a|
    ensures Distinct(a[..i] + a[i + 1..])
    ensures Cached(a[..i] + a[i + 1..], v) == if v == a[i].uid then -1 else Cached(a, v)
  {
    var b := a[..i] + a[i + 1..];
    forall j | 0 <= j < |b| ensures b[j] == a[Before(j, i)] { }
    WithoutIs(a, b, i, v);
  }

  // ---------------------------------------------------------------- pushes and proposals interleaved

  datatype Key = Key(channel: Channel, uid: Uid)

  datatype Conversation = Conversation(key: Key, readToMsgSeq: nat)

  /** A proposal between its two locked sections: what it copied, and how much of that is stored. */
  datatype Proposal = Proposal(conversations: seq<Conversation>, stored: nat)

  /** `pushed` is the largest position pushed for a user since the user was last deleted from the cache. */
  datatype State = State(cache: map<Key, nat>, store: map<Key, nat>, proposals: map<nat, Proposal>, pushed: map<Key, nat>)

  const CHUNK := 500

  datatype Event =
    | Push(key: Key, messageSeq: nat)
    | Delete(key: Key)
    | Snapshot(p: nat, conversations: seq<Conversation>)
    | Store(p: nat)
    | StoreFails(p: nat, written: nat)
    | Reconcile(p: nat)

  function At(m: map<Key, nat>, k: Key): int { if k in m then m[k] else -1 }

  function Pushed(m: map<Key, nat>, k: Key, n: nat): map<Key, nat> {
    m[k := if At(m, k) > n then m[k] else n]
  }

  /** A store write keeps the larger position. */
  function Wrote(store: map<Key, nat>, c: Conversation): map<Key, nat> {
    store[c.key := if At(store, c.key) > c.readToMsgSeq then store[c.key] else c.readToMsgSeq]
  }

  function Written(store: map<Key, nat>, cs: seq<Conversation>): map<Key, nat>
    decreases |cs|
  {
    if cs == [] then store else Written(Wrote(store, cs[0]), cs[1..])
  }

  function Dropped(cache: map<Key, nat>, c: Conversation): map<Key, nat> {
    if At(cache, c.key) <= c.readToMsgSeq then cache - {c.key} else cache
  }

  function Reconciled(cache: map<Key, nat>, cs: seq<Conversation>): map<Key, nat>
    decreases |cs|
  {
    if cs == [] then cache else Reconciled(Dropped(cache, cs[0]), cs[1..])
  }

  /** The end of the piece that a proposal stores next. */
  function ChunkEnd(p: Proposal): nat {
    if |p.conversations| - p.stored <= CHUNK then |p.conversations| else p.stored + CHUNK
  }

  ghost predicate Enabled(s: State, e: Event) {
    match e
    case Push(_, _) => true
    case Delete(_) => true
    case Snapshot(p, cs) =>
      // any list: channels whose users could not be read are skipped, channel-wide updates add others
      p !in s.proposals && cs != []
    case Store(p) => p in s.proposals && s.proposals[p].stored < |s.proposals[p].conversations|
    case StoreFails(p, written) => p in s.proposals && s.proposals[p].stored + written <= |s.proposals[p].conversations|
    case Reconcile(p) => p in s.proposals && s.proposals[p].stored == |s.proposals[p].conversations|
  }

  ghost function Next(s: State, e: Event): State
    requires Enabled(s, e)
  {
    match e
    case Push(k, n) => s.(cache := Pushed(s.cache, k, n), pushed := Pushed(s.pushed, k, n))
    case Delete(k) => s.(cache := s.cache - {k}, pushed := s.pushed - {k})
    case Snapshot(p, cs) => s.(proposals := s.proposals[p := Proposal(cs, 0)])
    case Store(p) =>
      var r := s.proposals[p];
      s.(store := Written(s.store, r.conversations[r.stored..ChunkEnd(r)]),
         proposals := s.proposals[p := r.(stored := ChunkEnd(r))])
    case StoreFails(p, written) =>
      // some of the piece may have been stored; the proposal is given up and nothing leaves the cache
      var r := s.proposals[p];
      s.(store := Written(s.store, r.conversations[r.stored..r.stored + written]), proposals := s.proposals - {p})
    case Reconcile(p) =>
      s.(cache := Reconciled(s.cache, s.proposals[p].conversations), proposals := s.proposals - {p})
  }

  /** No position is lost: what was pushed is at most the larger of what is stored and what is cached. */
  ghost predicate Kept(s: State) {
    forall k <- s.pushed :: s.pushed[k] <= Max(At(s.store, k), At(s.cache, k))
  }

  /** What a proposal has stored is in the store. */
  ghost predicate Backed(s: State, p: Proposal) {
    p.stored <= |p.conversations| &&
    forall i :: 0 <= i < p.stored ==> p.conversations[i].readToMsgSeq <= At(s.store, p.conversations[i].key)
  }

  ghost predicate Inv(s: State) {
    Kept(s) && forall p <- s.proposals :: Backed(s, s.proposals[p])
  }

  /** Nothing else is written than one of the positions, and only for its own user and channel. */
  lemma {:induction false} WrittenIsOne(store: map<Key, nat>, cs: seq<Conversation>, k: Key)
    ensures At(Written(store, cs), k) == At(store, k)
         || exists i :: 0 <= i < |cs| && cs[i].key == k && cs[i].readToMsgSeq == At(Written(store, cs), k)
    decreases |cs|
  {
    if cs != [] {
      var one := Wrote(store, cs[0]);
      WrittenIsOne(one, cs[1..], k);
      if i :| 0 <= i < |cs[1..]| && cs[1..][i].key == k && cs[1..][i].readToMsgSeq == At(Written(one, cs[1..]), k) {
        assert cs[i + 1] == cs[1..][i];
      }
    }
  }

  lemma {:induction false} WrittenCovers(store: map<Key, nat>, cs: seq<Conversation>)
    ensures forall k: Key :: At(Written(store, cs), k) >= At(store, k)
    ensures forall i :: 0 <= i < |cs| ==> cs[i].readToMsgSeq <= At(Written(store, cs), cs[i].key)
    decreases |cs|
  {
    if cs != [] {
      var c := cs[0];
      var one := Wrote(store, c);
      WrittenCovers(one, cs[1..]);
      forall k: Key ensures At(Written(store, cs), k) >= At(store, k) { assert At(one, k) >= At(store, k); }
      forall i | 0 <= i < |cs| ensures cs[i].readToMsgSeq <= At(Written(store, cs), cs[i].key) {
        if i > 0 { assert cs[i] == cs[1..][i - 1]; } else { assert At(one, c.key) >= c.readToMsgSeq; }
      }
    }
  }

  /** Reconciling takes out a position only if one at least as large is stored. */
  lemma {:induction false} ReconciledKeeps(cache: map<Key, nat>, cs: seq<Conversation>, store: map<Key, nat>, k: Key)
    requires forall i :: 0 <= i < |cs| ==> cs[i].readToMsgSeq <= At(store, cs[i].key)
    ensures Max(At(store, k), At(Reconciled(cache, cs), k)) == Max(At(store, k), At(cache, k))
    decreases |cs|
  {
    if cs != [] {
      var one := Dropped(cache, cs[0]);
      assert forall i :: 0 <= i < |cs[1..]| ==> cs[1..][i] == cs[i + 1];
      ReconciledKeeps(one, cs[1..], store, k);
    }
  }

  /** A proposal that copied the whole cache and met no push empties it. */
  lemma {:induction false} QuietProposalFlushes(cache: map<Key, nat>, cs: seq<Conversation>)
    requires forall k <- cache :: exists i :: 0 <= i < |cs| && cs[i].key == k && cache[k] <= cs[i].readToMsgSeq
    ensures forall k: Key :: k !in Reconciled(cache, cs)
    decreases |cs|
  {
    if cs != [] {
      var one := Dropped(cache, cs[0]);
      forall k | k in one ensures exists i :: 0 <= i < |cs[1..]| && cs[1..][i].key == k && one[k] <= cs[1..][i].readToMsgSeq {
        var i :| 0 <= i < |cs| && cs[i].key == k && cache[k] <= cs[i].readToMsgSeq;
        assert i > 0 && cs[1..][i - 1] == cs[i];
      }
      QuietProposalFlushes(one, cs[1..]);
    }
  }

  lemma WriteKeeps(s: State, s': State, cs: seq<Conversation>)
    requires Inv(s) && s'.cache == s.cache && s'.pushed == s.pushed && s'.store == Written(s.store, cs)
    ensures Kept(s') && forall p <- s.proposals :: Backed(s', s.proposals[p])
  {
    WrittenCovers(s.store, cs);
    forall k | k in s'.pushed ensures s'.pushed[k] <= Max(At(s'.store, k), At(s'.cache, k)) {
      assert At(s'.store, k) >= At(s.store, k);
    }
    forall p | p in s.proposals ensures Backed(s', s.proposals[p]) {
      var r := s.proposals[p];
      assert Backed(s, r);
      forall i | 0 <= i < r.stored ensures r.conversations[i].readToMsgSeq <= At(s'.store, r.conversations[i].key) {
        assert At(s'.store, r.conversations[i].key) >= At(s.store, r.conversations[i].key);
      }
    }
  }

  lemma StoreKeeps(s: State, p: nat)
    requires Inv(s) && Enabled(s, Store(p))
    ensures Inv(Next(s, Store(p)))
  {
    var r, s' := s.proposals[p], Next(s, Store(p));
    var cs := r.conversations[r.stored..ChunkEnd(r)];
    WriteKeeps(s, s', cs);
    WrittenCovers(s.store, cs);
    assert Backed(s', r);
    forall i | 0 <= i < ChunkEnd(r) ensures r.conversations[i].readToMsgSeq <= At(s'.store, r.conversations[i].key) {
      if i >= r.stored { assert cs[i - r.stored] == r.conversations[i]; }
    }
  }

  lemma StepKeeps(s: State, e: Event)
    requires Inv(s) && Enabled(s, e)
    ensures Inv(Next(s, e))
  {
    var s' := Next(s, e);
    match e
    case Push(_, _) => StillBacked(s, s');
    case Delete(_) => StillBacked(s, s');
    case Snapshot(_, _) => StillBacked(s, s');
    case Store(p) => StoreKeeps(s, p);
    case StoreFails(p, written) =>
      var r := s.proposals[p];
      WriteKeeps(s, s', r.conversations[r.stored..r.stored + written]);
    case Reconcile(p) =>
      StillBacked(s, s');
      assert Backed(s, s.proposals[p]);
      forall k | k in s'.pushed ensures s'.pushed[k] <= Max(At(s'.store, k), At(s'.cache, k)) {
        ReconciledKeeps(s.cache, s.proposals[p].conversations, s.store, k);
      }
  }

  lemma StillBacked(s: State, s': State)
    requires Inv(s) && s'.store == s.store
    requires forall p <- s'.proposals :: s'.proposals[p].stored == 0 || (p in s.proposals && s'.proposals[p] == s.proposals[p])
    ensures forall p <- s'.proposals :: Backed(s', s'.proposals[p])
  {
    forall p | p in s'.proposals ensures Backed(s', s'.proposals[p]) {
      if p in s.proposals { assert Backed(s, s.proposals[p]); }
    }
  }

  ghost predicate IsRun(ss: seq<State>, es: seq<Event>) {
    && |ss| == |es| + 1
    && ss[0].cache == map[] && ss[0].proposals == map[] && ss[0].pushed == map[]
    && forall i :: 0 <= i < |es| ==> Enabled(ss[i], es[i]) && ss[i + 1] == Next(ss[i], es[i])
  }

  lemma {:induction false} RunInv(ss: seq<State>, es: seq<Event>, i: nat)
    requires IsRun(ss, es) && i < |ss|
    ensures Inv(ss[i])
  {
    if i > 0 {
      RunInv(ss, es, i - 1);
      StepKeeps(ss[i - 1], es[i - 1]);
      assert ss[i - 1 + 1] == Next(ss[i - 1], es[i - 1]);
    }
  }

  /**
   However pushes fall between a proposal's snapshot, its pieces and its reconciliation, and however many proposals
   run at once or fail half-way, no read position that was pushed is lost.
   */
  lemma NoPositionIsLost(ss: seq<State>, es: seq<Event>, i: nat, k: Key)
    requires IsRun(ss, es) && i < |ss| && k in ss[i].pushed
    ensures ss[i].pushed[k] <= Max(At(ss[i].store, k), At(ss[i].cache, k))
  {
    RunInv(ss, es, i);
  }

  lemma OnePosition(store: map<Key, nat>, cache: map<Key, nat>, c: Conversation)
    ensures Written(store, [c]) == Wrote(store, c) && Reconciled(cache, [c]) == Dropped(cache, c)
  {
    assert [c][1..] == [];
    assert Written(Wrote(store, c), []) == Wrote(store, c) && Reconciled(Dropped(cache, c), []) == Dropped(cache, c);
  }

  /** Left to itself, a pushed position goes into the store by one proposal, and out of the cache. */
  lemma PushIsStored(s: State, k: Key, n: nat, p: nat) returns (z: State)
    requires p !in s.proposals
    ensures k in Next(s, Push(k, n)).cache
    ensures var s1 := Next(s, Push(k, n));
      && s1.cache[k] >= n
      && var c := Conversation(k, s1.cache[k]);
      && Enabled(s1, Snapshot(p, [c]))
      && var s2 := Next(s1, Snapshot(p, [c]));
      && Enabled(s2, Store(p))
      && var s3 := Next(s2, Store(p));
      && Enabled(s3, Reconcile(p)) && z == Next(s3, Reconcile(p))
    ensures At(z.store, k) >= n && k !in z.cache && z.proposals == s.proposals
  {
    var s1 := Next(s, Push(k, n));
    var c := Conversation(k, s1.cache[k]);
    var s2 := Next(s1, Snapshot(p, [c]));
    OnePosition(s.store, s1.cache, c);
    assert [c][0..1] == [c];
    var s3 := Next(s2, Store(p));
    assert s3.store == Wrote(s.store, c);
    z := Next(s3, Reconcile(p));
    assert z.cache == Dropped(s1.cache, c);
  }

  /** Some proposal before the i-th moment has copied this position. */
  ghost predicate Copied(es: seq<Event>, i: nat, c: Conversation) {
    exists j: nat :: j < i && j < |es| && es[j].Snapshot? && c in es[j].conversations
  }

  ghost predicate WasCopied(es: seq<Event>, i: nat, k: Key, position: int) {
    exists c: Conversation :: Copied(es, i, c) && c.key == k && c.readToMsgSeq == position
  }

  ghost predicate OnlyCopied(s: State, es: seq<Event>, i: nat) {
    forall p <- s.proposals, c <- s.proposals[p].conversations :: Copied(es, i, c)
  }

  lemma CopiedStays(es: seq<Event>, i: nat, c: Conversation)
    requires Copied(es, i, c)
    ensures Copied(es, i + 1, c)
  {
  }

  lemma {:induction false} ProposalsAreCopies(ss: seq<State>, es: seq<Event>, i: nat)
    requires IsRun(ss, es) && i < |ss|
    ensures OnlyCopied(ss[i], es, i)
  {
    if i > 0 {
      ProposalsAreCopies(ss, es, i - 1);
      var s, s' := ss[i - 1], ss[i - 1 + 1];
      assert s' == Next(s, es[i - 1]);
      forall p, c | p in s'.proposals && c in s'.proposals[p].conversations ensures Copied(es, i, c) {
        if p in s.proposals && s'.proposals[p].conversations == s.proposals[p].conversations {
          CopiedStays(es, i - 1, c);
        } else {
          assert es[i - 1].Snapshot? && c in es[i - 1].conversations;
        }
      }
    }
  }

  /** What is written in a step of one proposal are positions that it has copied. */
  lemma WrittenWasCopied(s: State, es: seq<Event>, i: nat, store: map<Key, nat>, p: nat, lo: nat, hi: nat, k: Key)
    requires OnlyCopied(s, es, i) && p in s.proposals && lo <= hi <= |s.proposals[p].conversations|
    ensures var position := At(Written(store, s.proposals[p].conversations[lo..hi]), k);
      position == At(store, k) || WasCopied(es, i, k, position)
  {
    var cs := s.proposals[p].conversations;
    WrittenIsOne(store, cs[lo..hi], k);
    if n :| 0 <= n < |cs[lo..hi]| && cs[lo..hi][n].key == k && cs[lo..hi][n].readToMsgSeq == At(Written(store, cs[lo..hi]), k) {
      assert cs[lo..hi][n] in cs;
    }
  }

  /** No position is made up: a stored one was stored before the run, or a proposal of the run has copied it. */
  lemma {:induction false} StoredWasCopied(ss: seq<State>, es: seq<Event>, i: nat, k: Key)
    requires IsRun(ss, es) && i < |ss|
    ensures At(ss[i].store, k) == At(ss[0].store, k) || WasCopied(es, i, k, At(ss[i].store, k))
  {
    if i > 0 {
      StoredWasCopied(ss, es, i - 1, k);
      ProposalsAreCopies(ss, es, i - 1);
      var s, s' := ss[i - 1], ss[i - 1 + 1];
      assert s' == Next(s, es[i - 1]);
      StoredNow(s, es, i - 1, k);
      var position := At(s'.store, k);
      if WasCopied(es, i - 1, k, position) {
        var c: Conversation :| Copied(es, i - 1, c) && c.key == k && c.readToMsgSeq == position;
        CopiedStays(es, i - 1, c);
      }
    }
  }

  lemma StoredNow(s: State, es: seq<Event>, i: nat, k: Key)
    requires i < |es| && Enabled(s, es[i]) && OnlyCopied(s, es, i)
    ensures var position := At(Next(s, es[i]).store, k); position == At(s.store, k) || WasCopied(es, i, k, position)
  {
    match es[i]
    case Store(p) => WrittenWasCopied(s, es, i, s.store, p, s.proposals[p].stored, ChunkEnd(s.proposals[p]), k);
    case StoreFails(p, written) =>
      WrittenWasCopied(s, es, i, s.store, p, s.proposals[p].stored, s.proposals[p].stored + written, k);
    case _ =>
  }

  lemma {:induction false} ReconciledShrinks(cache: map<Key, nat>, cs: seq<Conversation>, k: Key)
    ensures k in Reconciled(cache, cs) ==> k in cache && Reconciled(cache, cs)[k] == cache[k]
    decreases |cs|
  {
    if cs != [] { ReconciledShrinks(Dropped(cache, cs[0]), cs[1..], k); }
  }

  /** And a cached one is not beyond what was pushed for the user since it was last deleted. */
  lemma {:induction false} CachedWasPushed(ss: seq<State>, es: seq<Event>, i: nat, k: Key)
    requires IsRun(ss, es) && i < |ss| && k in ss[i].cache
    ensures k in ss[i].pushed && ss[i].cache[k] <= ss[i].pushed[k]
  {
    if i > 0 {
      var s, s' := ss[i - 1], ss[i - 1 + 1];
      assert s' == Next(s, es[i - 1]);
      if k in s.cache { CachedWasPushed(ss, es, i - 1, k); }
      if es[i - 1].Reconcile? { ReconciledShrinks(s.cache, s.proposals[es[i - 1].p].conversations, k); }
    }
  }

  // ---------------------------------------------------------------- the worker whose updates are the cache

  /** The pushes of one request. */
  function PushedAll(cache: map<Key, nat>, channel: Channel, ms: seq<Sent>, systemUid: Uid, local: set<Uid>): map<Key, nat> {
    if ms == [] then cache
    else
      var last := ms[|ms| - 1];
      var rest := PushedAll(cache, channel, ms[..|ms| - 1], systemUid, local);
      if Counts(last, systemUid, local) then Pushed(rest, Key(channel, last.fromUid), last.messageSeq) else rest
  }

  /** In the cache each user of the channel ends at the largest position, as HandleSenders leaves it. */
  lemma {:induction false} PushedAllAt(cache: map<Key, nat>, channel: Channel, ms: seq<Sent>, systemUid: Uid, local: set<Uid>, k: Key)
    ensures At(PushedAll(cache, channel, ms, systemUid, local), k)
         == if k.channel == channel then Max(At(cache, k), Largest(ms, systemUid, local, k.uid)) else At(cache, k)
  {
    if ms != [] { PushedAllAt(cache, channel, ms[..|ms| - 1], systemUid, local, k); }
  }

  /** Two people who have not exchanged a message yet start at position 0. */
  function PushedPartners(cache: map<Key, nat>, channel: Channel, partners: seq<Uid>): map<Key, nat> {
    if partners == [] then cache
    else Pushed(PushedPartners(cache, channel, partners[..|partners| - 1]), Key(channel, partners[|partners| - 1]), 0)
  }

  /** Whatever their cached positions are, the partners have one afterwards, and nobody's position changes that had one. */
  lemma {:induction false} PartnersAreCached(cache: map<Key, nat>, channel: Channel, partners: seq<Uid>, k: Key)
    ensures At(PushedPartners(cache, channel, partners), k) ==
            if At(cache, k) == -1 && k.channel == channel && k.uid in partners then 0 else At(cache, k)
  {
    if partners != [] {
      PartnersAreCached(cache, channel, partners[..|partners| - 1], k);
      assert partners == partners[..|partners| - 1] + [partners[|partners| - 1]];
    }
  }

  function Stored(ms: seq<Sent>): seq<Sent> {
    if ms == [] then [] else Stored(ms[..|ms| - 1]) + (if ms[|ms| - 1].messageSeq > 0 then [ms[|ms| - 1]] else [])
  }

  /** The first update object of the channel, or the length. */
  function Slot(us: seq<ConversationUpdate>, channel: Channel): (i: nat)
    ensures i <= |us| && (i < |us| ==> us[i].channel == channel) && forall j :: 0 <= j < i ==> us[j].channel != channel
  {
    if us == [] || us[0].channel == channel then 0 else 1 + Slot(us[1..], channel)
  }

  /** The messages that were stored. */
  method FilterStored(ms: seq<Sent>) returns (r: seq<Sent>)
    ensures r == Stored(ms)
  {
    r := [];
    for i := 0 to |ms|
      invariant r == Stored(ms[..i])
    {
      assert ms[..i + 1][..i] == ms[..i];
      if ms[i].messageSeq > 0 {
        r := r + [ms[i]];
      }
    }
    assert ms[..|ms|] == ms;
  }

  /** The number of the first stored message, or 0. */
  function First(ms: seq<Sent>): nat {
    if ms == [] then 0 else if ms[0].messageSeq > 0 then ms[0].messageSeq else First(ms[1..])
  }

  lemma {:induction false} StoredMember(ms: seq<Sent>, m: Sent)
    ensures m in Stored(ms) <==> m in ms && m.messageSeq > 0
  {
    if ms != [] {
      StoredMember(ms[..|ms| - 1], m);
      assert ms == ms[..|ms| - 1] + [ms[|ms| - 1]];
    }
  }

  lemma {:induction false} StoredFirst(ms: seq<Sent>)
    ensures First(ms) == if Stored(ms) == [] then 0 else Stored(ms)[0].messageSeq
    ensures Stored(ms) != [] ==> Stored(ms)[0].messageSeq > 0
  {
    if ms != [] {
      var init, last := ms[..|ms| - 1], ms[|ms| - 1];
      StoredFirst(init);
      FirstOfMore(init, last);
      assert ms == init + [last];
    }
  }

  lemma {:induction false} FirstOfMore(ms: seq<Sent>, m: Sent)
    ensures First(ms + [m]) == if First(ms) > 0 then First(ms) else m.messageSeq
  {
    if ms != [] {
      FirstOfMore(ms[1..], m);
      assert (ms + [m])[1..] == ms[1..] + [m];
    } else {
      assert ([m])[1..] == [] && ms + [m] == [m];
    }
  }

  /** What a request does to the cached position of one user: the largest stored message of a sender, or 0 for a new partner. */
  lemma RequestedAt(cache: map<Key, nat>, channel: Channel, ms: seq<Sent>, systemUid: Uid, local: set<Uid>,
                    person: bool, partners: seq<Uid>, k: Key)
    ensures var r := At(Requested(cache, channel, ms, systemUid, local, person, partners), k);
      && (k.channel == channel ==> forall m <- ms ::
            m.messageSeq > 0 && m.fromUid == k.uid && m.fromUid in local && m.fromUid != systemUid ==> r >= m.messageSeq)
      && (k.channel == channel && k.uid in partners && person && First(ms) == 1 ==> r >= 0)
      && (r == At(cache, k)
          || (k.channel == channel && exists m <- ms :: m.fromUid == k.uid && m.messageSeq == r && m.messageSeq > 0)
          || (k.channel == channel && k.uid in partners && person && First(ms) == 1 && r == 0))
  {
    var messages := Stored(ms);
    StoredFirst(ms);
    forall m ensures m in messages <==> m in ms && m.messageSeq > 0 { StoredMember(ms, m); }
    PushedAllAt(cache, channel, messages, systemUid, local, k);
    PartnersAreCached(PushedAll(cache, channel, messages, systemUid, local), channel, partners, k);
    LargestIsLargest(messages, systemUid, local, k.uid);
    if Largest(messages, systemUid, local, k.uid) >= 0 { assert Sent(k.uid, Largest(messages, systemUid, local, k.uid)) in messages; }
    if messages != [] { assert messages[0] in messages; }
  }

  /** A request is a number of pushes. */
  function Requested(cache: map<Key, nat>, channel: Channel, ms: seq<Sent>, systemUid: Uid, local: set<Uid>,
                     person: bool, partners: seq<Uid>): map<Key, nat>
  {
    var messages := Stored(ms);
    var pushed := PushedAll(cache, channel, messages, systemUid, local);
    if messages != [] && person && messages[0].messageSeq <= 1 then PushedPartners(pushed, channel, partners) else pushed
  }

  lemma SlotAppended(us: seq<ConversationUpdate>, u: ConversationUpdate, channel: Channel)
    ensures Slot(us + [u], channel) == if Slot(us, channel) < |us| || u.channel == channel then Slot(us, channel) else |us| + 1
  {
    var i := Slot(us + [u], channel);
    assert (us + [u])[|us|] == u;
    assert forall j :: 0 <= j < |us| ==> (us + [u])[j] == us[j];
    if Slot(us, channel) < |us| { assert (us + [u])[Slot(us, channel)].channel == channel; }
  }

  lemma SlotWithout(us: seq<ConversationUpdate>, i: nat, channel: Channel)
    requires i < |us| && forall j, k :: 0 <= j < k < |us| ==> us[j].channel != us[k].channel
    ensures var vs, n := us[..i] + us[i + 1..], Slot(us, channel);
      if n == i || n == |us| then Slot(vs, channel) == |vs|
      else Slot(vs, channel) < |vs| && vs[Slot(vs, channel)] == us[n]
  {
    var vs, n := us[..i] + us[i + 1..], Slot(us, channel);
    forall j | 0 <= j < |vs| ensures vs[j] == us[Before(j, i)] { }
    var m := Slot(vs, channel);
    if m < |vs| { assert us[Before(m, i)].channel == channel; }
    if n != i && n < |us| { assert vs[if n < i then n else n - 1] == us[n]; }
  }

  lemma {:induction false} WrittenOn(store: map<Key, nat>, a: seq<Conversation>, b: seq<Conversation>)
    ensures Written(store, a + b) == Written(Written(store, a), b)
    decreases |a|
  {
    if a == [] {
      assert a + b == b;
    } else {
      assert (a + b)[1..] == a[1..] + b;
      WrittenOn(Wrote(store, a[0]), a[1..], b);
    }
  }

  /** A proposal stores pieces of at most CHUNK; `fails(i)` says that the write at `i` fails and how much it has stored. */
  method StoreInPieces(cs: seq<Conversation>, fails: nat -> Option<nat>, ghost store: map<Key, nat>)
      returns (done: bool, n: nat, ghost store': map<Key, nat>)
    ensures n <= |cs| && (done ==> n == |cs|) && store' == Written(store, cs[..n])
    ensures !done ==> exists i: nat :: i < |cs| && fails(i).Some?
  {
    n, store' := 0, store;
    while n < |cs|
      invariant n <= |cs| && store' == Written(store, cs[..n])
    {
      var end := if n + CHUNK > |cs| then |cs| else n + CHUNK;
      var failure := fails(n);
      var upTo := if failure.None? || n + failure.value > end then end else n + failure.value;
      WrittenOn(store, cs[..n], cs[n..upTo]);
      assert cs[..n] + cs[n..upTo] == cs[..upTo];
      store' := Written(store', cs[n..upTo]);
      n := upTo;
      if failure.Some? {
        return false, n, store';
      }
    }
    done := true;
  }

  lemma CopiedIsFlushed(cache: map<Key, nat>, cs: seq<Conversation>)
    requires forall k <- cache :: Conversation(k, cache[k]) in cs
    ensures forall k: Key :: k !in Reconciled(cache, cs)
  {
    forall k | k in cache ensures exists i :: 0 <= i < |cs| && cs[i].key == k && cache[k] <= cs[i].readToMsgSeq {
      var i :| 0 <= i < |cs| && cs[i] == Conversation(k, cache[k]);
    }
    QuietProposalFlushes(cache, cs);
  }

  class ConversationWorker {
    var updates: seq<ConversationUpdate>

    /** One update object for a channel. */
    ghost predicate Valid()
      reads this, updates
    {
      && (forall u <- updates :: u.Valid())
      && forall i, j :: 0 <= i < j < |updates| ==> updates[i].channel != updates[j].channel
    }

    ghost function Position(k: Key): int
      reads this, updates
    {
      var i := Slot(updates, k.channel);
      if i < |updates| then Cached(updates[i].users, k.uid) else -1
    }

    /** The update objects hold the cache that pushes and proposals act on. */
    ghost predicate Represents(cache: map<Key, nat>)
      reads this, updates
    {
      forall k: Key :: Position(k) == At(cache, k)
    }

    constructor ()
      ensures Valid() && Represents(map[]) && updates == []
    {
      updates := [];
    }

    method GetConversationUpdate(channel: Channel) returns (update: ConversationUpdate?)
      requires Valid()
      ensures update == null ==> Slot(updates, channel) == |updates|
      ensures update != null ==> Slot(updates, channel) < |updates| && update == updates[Slot(updates, channel)]
    {
      for i := 0 to |updates|
        invariant forall j :: 0 <= j < i ==> updates[j].channel != channel
      {
        if updates[i].channel == channel { return updates[i]; }
      }
      return null;
    }

    method DeleteUserConversationFromCache(uid: Uid, channel: Channel, ghost cache: map<Key, nat>)
      requires Valid() && Represents(cache)
      modifies updates
      ensures Valid() && updates == old(updates) && Represents(cache - {Key(channel, uid)})
    {
      var update := GetConversationUpdate(channel);
      if update != null {
        PositionIn(update);
        update.DeleteUser(uid);
        OneChanges(update);
        PositionIn(update);
      }
      forall k: Key ensures Position(k) == At(cache - {Key(channel, uid)}, k) {
        assert old(Position(k)) == At(cache, k);
        assert k == Key(k.channel, k.uid);
      }
    }

    /**
     A request: `local` are the users whose slot leader is this node, and `partners` those of them that a person channel is
     between. The first message of a command channel, and a tag that is not the last one, ask for the whole channel.
     */
    method HandleReq(channel: Channel, ms: seq<Sent>, systemUid: Uid, local: set<Uid>, person: bool, partners: seq<Uid>,
                     cmd: bool, tagKey: string, ghost cache: map<Key, nat>)
      requires Valid() && Represents(cache)
      modifies this, updates
      ensures Valid() && old(updates) <= updates && forall u <- updates :: u in old(updates) || fresh(u)
      ensures Represents(Requested(cache, channel, ms, systemUid, local, person, partners))
      ensures forall u <- updates ::
        var was := if u in old(updates) then old(u.Marks()) else Scope("", false);
        u.Marks() == if u.channel == channel then Widened(was, Stored(ms), person, cmd, tagKey) else was
    {
      var messages := FilterStored(ms);
      if messages == [] {
        return;
      }
      var update := Open(channel, messages[0].messageSeq, cache);
      ghost var current := PushedAll(cache, channel, messages, systemUid, local);
      AddSenders(update, messages, systemUid, local, cache);
      label L:
      if person {
        if messages[0].messageSeq > 1 {
          return;
        }
        AddPartners(update, partners, current);
      } else if (cmd && messages[0].messageSeq == 1) || update.lastTagKey != tagKey {
        update.lastTagKey := tagKey;
        update.updateAll := true;
        NobodyChanges@L(current);
      }
    }

    /** The update object of the channel, a new one if need be. */
    method Open(channel: Channel, messageSeq: nat, ghost cache: map<Key, nat>) returns (update: ConversationUpdate)
      requires Valid() && Represents(cache)
      modifies this
      ensures Valid() && Represents(cache) && update in updates && update.channel == channel
      ensures updates == old(updates) || (updates == old(updates) + [update] && fresh(update) && update.Marks() == Scope("", false))
    {
      var found := GetConversationUpdate(channel);
      if found != null {
        return found;
      }
      update := new ConversationUpdate(channel, messageSeq);
      updates := updates + [update];
      forall k: Key ensures Position(k) == At(cache, k) {
        assert old(Position(k)) == At(cache, k);
        SlotAppended(old(updates), update, k.channel);
      }
    }

    method AddSenders(update: ConversationUpdate, ms: seq<Sent>, systemUid: Uid, local: set<Uid>, ghost cache: map<Key, nat>)
      requires Valid() && Represents(cache) && update in updates
      modifies update`users, update`deleted
      ensures Valid() && Represents(PushedAll(cache, update.channel, ms, systemUid, local))
    {
      PositionIn(update);
      update.HandleSenders(ms, systemUid, local);
      OneChanges(update);
      PositionIn(update);
      forall k: Key ensures Position(k) == At(PushedAll(cache, update.channel, ms, systemUid, local), k) {
        PushedAllAt(cache, update.channel, ms, systemUid, local, k);
        assert k == Key(k.channel, k.uid) && old(Position(k)) == At(cache, k);
      }
    }

    method AddPartners(update: ConversationUpdate, partners: seq<Uid>, ghost cache: map<Key, nat>)
      requires Valid() && Represents(cache) && update in updates
      modifies update`users, update`deleted
      ensures Valid() && Represents(PushedPartners(cache, update.channel, partners))
    {
      ghost var cur := cache;
      for i := 0 to |partners|
        invariant Valid() && Represents(cur) && cur == PushedPartners(cache, update.channel, partners[..i])
      {
        PositionIn(update);
        label L:
        update.AddOrUpdateUser(partners[i], 0);
        OneChanges@L(update);
        PositionIn(update);
        ghost var next := Pushed(cur, Key(update.channel, partners[i]), 0);
        forall k: Key ensures Position(k) == At(next, k) {
          assert k == Key(k.channel, k.uid) && old@L(Position(k)) == At(cur, k);
        }
        cur := next;
        assert partners[..i + 1][..i] == partners[..i];
      }
      assert partners[..|partners|] == partners;
    }

    ghost predicate Readable(wanted: Channel -> Option<seq<Uid>>)
      reads this, updates
    {
      forall u <- updates :: u.updateAll ==> wanted(u.channel).Some?
    }

    /** The first locked section of a proposal; `wanted` is None where the users of a channel could not be read. */
    method Copy(wanted: Channel -> Option<seq<Uid>>, ghost cache: map<Key, nat>) returns (cs: seq<Conversation>)
      requires Valid() && Represents(cache)
      ensures forall c <- cs :: c.key in cache ==> c.readToMsgSeq == cache[c.key]
      ensures Readable(wanted) ==> forall k <- cache :: Conversation(k, cache[k]) in cs
    {
      cs := [];
      ghost var readable := Readable(wanted);
      for i := 0 to |updates|
        invariant forall c <- cs :: c.key in cache ==> c.readToMsgSeq == cache[c.key]
        invariant readable ==>
          forall k <- cache :: Slot(updates, k.channel) < i ==> Conversation(k, cache[k]) in cs
      {
        var more := CopyOne(updates[i], wanted(updates[i].channel), cache);
        forall k | readable && k in cache && Slot(updates, k.channel) == i ensures Conversation(k, cache[k]) in more {
          assert k.channel == updates[i].channel;
        }
        cs := cs + more;
      }
      forall k | k in cache ensures Slot(updates, k.channel) < |updates| { assert Position(k) == At(cache, k); }
    }

    method CopyOne(u: ConversationUpdate, wanted: Option<seq<Uid>>, ghost cache: map<Key, nat>) returns (cs: seq<Conversation>)
      requires Valid() && Represents(cache) && u in updates
      ensures forall c <- cs :: c.key in cache ==> c.readToMsgSeq == cache[c.key]
      ensures (u.updateAll ==> wanted.Some?) ==> forall k <- cache :: k.channel == u.channel ==> Conversation(k, cache[k]) in cs
    {
      if u.updateAll && wanted.None? {
        return [];
      }
      cs := u.GetConversations(if wanted.Some? then wanted.value else []);
      CopyIsRight(u, cs, cache);
    }

    lemma CopyIsRight(u: ConversationUpdate, more: seq<Conversation>, cache: map<Key, nat>)
      requires Valid() && Represents(cache) && u in updates && |u.users| <= |more|
      requires forall i :: 0 <= i < |u.users| ==> more[i] == Conversation(Key(u.channel, u.users[i].uid), u.users[i].messageSeq)
      requires forall i :: |u.users| <= i < |more| ==> more[i].key.channel == u.channel && Cached(u.users, more[i].key.uid) == -1
      ensures forall c <- more :: c.key in cache ==> c.readToMsgSeq == cache[c.key]
      ensures forall k <- cache :: k.channel == u.channel ==> Conversation(k, cache[k]) in more
    {
      PositionIn(u);
      forall v: Uid ensures Cached(u.users, v) == At(cache, Key(u.channel, v)) { assert Position(Key(u.channel, v)) == At(cache, Key(u.channel, v)); }
      forall i | 0 <= i < |more| && more[i].key in cache ensures more[i].readToMsgSeq == cache[more[i].key] {
        assert more[i].key == Key(u.channel, more[i].key.uid);
        if i < |u.users| { CachedAt(u.users, more[i].key.uid); }
      }
      forall k | k in cache && k.channel == u.channel ensures Conversation(k, cache[k]) in more {
        assert k == Key(u.channel, k.uid);
        CachedAt(u.users, k.uid);
        var i :| 0 <= i < |u.users| && u.users[i].uid == k.uid;
        assert more[i] == Conversation(k, cache[k]);
      }
    }

    /** The second locked section: what was stored leaves the cache where nothing larger has been pushed since. */
    method Reconcile(cs: seq<Conversation>, ghost cache: map<Key, nat>)
      requires Valid() && Represents(cache)
      modifies updates
      ensures Valid() && Represents(Reconciled(cache, cs)) && (cs != [] ==> forall u <- updates :: !u.updateAll)
    {
      ghost var cur := cache;
      for n := 0 to |cs|
        invariant Valid() && Represents(cur) && Reconciled(cur, cs[n..]) == Reconciled(cache, cs)
        invariant n > 0 ==> forall u <- updates :: !u.updateAll
      {
        Drop(cs[n], cur);
        cur := Dropped(cur, cs[n]);
        assert cs[n..][1..] == cs[n + 1..];
      }
    }

    /**
     A proposal into which nothing comes. No position is lost, whatever fails; if nothing fails every cached position is
     stored and the cache is empty.
     */
    method Propose(wanted: Channel -> Option<seq<Uid>>, fails: nat -> Option<nat>, ghost cache: map<Key, nat>, ghost store: map<Key, nat>)
        returns (done: bool, ghost store': map<Key, nat>)
      requires Valid() && Represents(cache)
      modifies updates
      ensures Valid() && (!done ==> Represents(cache))
      ensures forall k: Key :: Max(At(store', k), Position(k)) >= Max(At(store, k), At(cache, k)) && At(store', k) >= At(store, k)
      ensures done && old(Readable(wanted)) ==>
        Represents(map[]) && forall k: Key :: At(store', k) >= At(cache, k)
    {
      var cs := Copy(wanted, cache);
      var n;
      done, n, store' := StoreInPieces(cs, fails, store);
      WrittenCovers(store, cs[..n]);
      if !done {
        return;
      }
      assert cs[..n] == cs;
      Reconcile(cs, cache);
      forall k: Key ensures Max(At(store', k), Position(k)) == Max(At(store', k), At(cache, k)) {
        ReconciledKeeps(cache, cs, store', k);
      }
      if forall k <- cache :: Conversation(k, cache[k]) in cs {
        CopiedIsFlushed(cache, cs);
      }
    }

    method Drop(c: Conversation, ghost cache: map<Key, nat>)
      requires Valid() && Represents(cache)
      modifies updates
      ensures Valid() && Represents(Dropped(cache, c)) && forall u <- updates :: !u.updateAll
    {
      for i := 0 to |updates|
        invariant Valid() && Represents(DroppedBefore(i, cache, c))
        invariant forall j :: 0 <= j < i ==> !updates[j].updateAll
      {
        DropAt(updates[i], c, i, cache);
      }
      assert Position(c.key) == At(DroppedBefore(|updates|, cache, c), c.key);
      assert c.key !in cache ==> Dropped(cache, c) == cache;
    }

    ghost function DroppedBefore(i: nat, cache: map<Key, nat>, c: Conversation): map<Key, nat>
      reads this
    {
      if Slot(updates, c.key.channel) < i then Dropped(cache, c) else cache
    }

    method DropAt(update: ConversationUpdate, c: Conversation, ghost i: nat, ghost cache: map<Key, nat>)
      requires i < |updates| && update == updates[i] && Valid() && Represents(DroppedBefore(i, cache, c))
      modifies update`users, update`updateAll
      ensures Valid() && Represents(DroppedBefore(i + 1, cache, c)) && !update.updateAll
    {
      assert Slot(updates, update.channel) == i;
      if update.channel == c.key.channel {
        DropUser(update, c, cache);
      }
      label L:
      update.updateAll := false;
      NobodyChanges@L(DroppedBefore(i + 1, cache, c));
    }

    method DropUser(update: ConversationUpdate, c: Conversation, ghost cache: map<Key, nat>)
      requires Valid() && Represents(cache) && update in updates && update.channel == c.key.channel
      modifies update`users
      ensures Valid() && Represents(Dropped(cache, c))
    {
      PositionIn(update);
      update.RemoveUserIfSeqLE(c.key.uid, c.readToMsgSeq);
      OneChanges(update);
      PositionIn(update);
      forall k: Key ensures Position(k) == At(Dropped(cache, c), k) {
        assert k == Key(k.channel, k.uid) && old(Position(k)) == At(cache, k);
      }
    }

    /** Update objects without anything to store go when they have not been used for a while. */
    method CleanUpdate(expired: set<Channel>, ghost cache: map<Key, nat>)
      requires Valid() && Represents(cache)
      modifies this
      ensures Valid() && Represents(cache)
      ensures forall u: ConversationUpdate :: u in updates <==> u in old(updates) && (u.updateAll || u.users != [] || u.channel !in expired)
    {
      var i := 0;
      while i < |updates|
        invariant i <= |updates| && Valid() && Represents(cache)
        invariant forall j :: 0 <= j < i ==> updates[j].updateAll || updates[j].users != [] || updates[j].channel !in expired
        invariant forall u <- updates :: u in old(updates)
        invariant forall u <- old(updates) :: u.updateAll || u.users != [] || u.channel !in expired ==> u in updates
      {
        var update := updates[i];
        if !update.updateAll && |update.users| == 0 && update.channel in expired {
          Forget(i, cache);
        } else {
          i := i + 1;
        }
      }
    }

    method Forget(i: nat, ghost cache: map<Key, nat>)
      requires Valid() && Represents(cache) && i < |updates| && updates[i].users == []
      modifies this
      ensures Valid() && Represents(cache) && updates == old(updates[..i] + updates[i + 1..])
    {
      ghost var before := updates;
      updates := updates[..i] + updates[i + 1..];
      forall k: Key ensures Position(k) == At(cache, k) {
        assert old(Position(k)) == At(cache, k);
        SlotWithout(before, i, k.channel);
      }
    }

    lemma PositionIn(update: ConversationUpdate)
      requires Valid() && update in updates
      ensures forall uid: Uid :: Position(Key(update.channel, uid)) == Cached(update.users, uid)
    {
      assert updates[Slot(updates, update.channel)] == update;
    }

    twostate lemma NobodyChanges(cache: map<Key, nat>)
      requires old(Represents(cache)) && updates == old(updates) && forall u <- updates :: u.users == old(u.users)
      ensures Represents(cache)
    {
      forall k: Key ensures Position(k) == At(cache, k) { assert old(Position(k)) == At(cache, k); }
    }

    /** The other channels keep their positions. */
    twostate lemma OneChanges(update: ConversationUpdate)
      requires updates == old(updates) && forall u <- updates :: u != update ==> u.users == old(u.users)
      ensures forall k: Key :: k.channel != update.channel ==> Position(k) == old(Position(k))
    {
    }
  }
}
