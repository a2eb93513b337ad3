/** The conversation snoozed with a letter (gatherSnoozeConversation in backend/src/routes/mail.js): the letters
    linked to it by Message-ID, In-Reply-To and References (section 3.6.4 of RFC 5322). */
module SnoozeThread {
  import opened Wrappers

  /** A Message-ID; a letter may have none. */
  type MessageId = Option<string>

  /** A message row: its Message-ID, and the IDs it names in References and In-Reply-To. */
  datatype Letter = Letter(id: nat, folder: string, messageId: MessageId, refs: seq<string>)

  // ---- the reply graph ----------------------------------------------------------------------------

  function Ids(pool: seq<Letter>): set<MessageId> {
    set i | 0 <= i < |pool| :: pool[i].messageId
  }

  /** One of the first n references of r links a and b. */
  ghost predicate LinksUpTo(ids: set<MessageId>, r: Letter, n: nat, a: MessageId, b: MessageId) {
    exists j :: 0 <= j < n && j < |r.refs| && Some(r.refs[j]) in ids &&
      ((a == r.messageId && b == Some(r.refs[j])) || (b == r.messageId && a == Some(r.refs[j])))
  }

  /** One of the first n letters of the pool links a and b. */
  ghost predicate EdgeUpTo(ids: set<MessageId>, pool: seq<Letter>, n: nat, a: MessageId, b: MessageId) {
    exists i :: 0 <= i < n && i < |pool| && LinksUpTo(ids, pool[i], |pool[i].refs|, a, b)
  }

  /** a and b are linked: a letter of the pool with one of them names the other, which is in the pool too. */
  ghost predicate Edge(pool: seq<Letter>, a: MessageId, b: MessageId) {
    EdgeUpTo(Ids(pool), pool, |pool|, a, b)
  }

  ghost predicate Path(pool: seq<Letter>, p: seq<MessageId>) {
    p != [] && forall i :: 0 <= i < |p| - 1 ==> Edge(pool, p[i], p[i + 1])
  }

  /** b is in the connected component of a. */
  ghost predicate Connected(pool: seq<Letter>, a: MessageId, b: MessageId) {
    exists p :: Path(pool, p) && p[0] == a && p[|p| - 1] == b
  }

  lemma EdgeSymmetric(pool: seq<Letter>, a: MessageId, b: MessageId)
    requires Edge(pool, a, b)
    ensures Edge(pool, b, a) && a in Ids(pool) && b in Ids(pool)
  {
    var i :| 0 <= i < |pool| && LinksUpTo(Ids(pool), pool[i], |pool[i].refs|, a, b);
    assert LinksUpTo(Ids(pool), pool[i], |pool[i].refs|, b, a);
  }

  lemma ConnectedSelf(pool: seq<Letter>, a: MessageId)
    ensures Connected(pool, a, a)
  {
    assert Path(pool, [a]) && [a][0] == a && [a][|[a]| - 1] == a;
  }

  lemma ConnectedStep(pool: seq<Letter>, a: MessageId, b: MessageId, c: MessageId)
    requires Connected(pool, a, b) && Edge(pool, b, c)
    ensures Connected(pool, a, c)
  {
    hide Edge;
    var p :| Path(pool, p) && p[0] == a && p[|p| - 1] == b;
    var q := p + [c];
    assert forall i :: 0 <= i < |q| - 1 ==> Edge(pool, q[i], q[i + 1]);
    assert q[0] == a && q[|q| - 1] == c;
  }

  /** A set that holds the start of a path and every neighbour of its members holds the whole path. */
  lemma {:induction false} ClosedHoldsPath(pool: seq<Letter>, closed: set<MessageId>, p: seq<MessageId>, n: nat)
    requires Path(pool, p) && p[0] in closed && n < |p|
    requires forall a, b :: a in closed && Edge(pool, a, b) ==> b in closed
    ensures p[n] in closed
  {
    hide Edge;
    if n > 0 {
      ClosedHoldsPath(pool, closed, p, n - 1);
      assert Edge(pool, p[n - 1], p[n - 1 + 1]);
    }
  }

  // ---- building the graph and searching it --------------------------------------------------------

  type Graph = map<MessageId, set<MessageId>>

  /** node(a).add(b) */
  function Linked(adj: Graph, a: MessageId, b: MessageId): Graph {
    adj[a := (if a in adj then adj[a] else {}) + {b}]
  }

  ghost predicate IsGraph(adj: Graph, pool: seq<Letter>) {
    adj.Keys == Ids(pool) && forall a, b :: a in adj ==> (b in adj[a] <==> Edge(pool, a, b))
  }

  lemma LinksOneMore(ids: set<MessageId>, r: Letter, j: nat, a: MessageId, b: MessageId)
    requires j < |r.refs|
    ensures LinksUpTo(ids, r, j + 1, a, b) <==>
      LinksUpTo(ids, r, j, a, b) ||
      (Some(r.refs[j]) in ids && ((a == r.messageId && b == Some(r.refs[j])) || (b == r.messageId && a == Some(r.refs[j]))))
  {
  }

  lemma EdgeOneMore(ids: set<MessageId>, pool: seq<Letter>, k: nat, a: MessageId, b: MessageId)
    requires k < |pool|
    ensures EdgeUpTo(ids, pool, k + 1, a, b) <==> EdgeUpTo(ids, pool, k, a, b) || LinksUpTo(ids, pool[k], |pool[k].refs|, a, b)
  {
    hide LinksUpTo;
  }

  lemma IdAt(pool: seq<Letter>, k: nat)
    requires k < |pool|
    ensures pool[k].messageId in Ids(pool)
  {
  }

  method Neighbours(pool: seq<Letter>) returns (adj: Graph)
    ensures IsGraph(adj, pool)
  {
    hide LinksUpTo, EdgeUpTo;
    ghost var ids := Ids(pool);
    adj := map[];
    for k := 0 to |pool|
      invariant adj.Keys == Ids(pool[..k]) && forall a :: a in adj ==> adj[a] == {}
    {
      assert pool[..k + 1] == pool[..k] + [pool[k]];
      IdsMore(pool[..k], pool[k]);
      if pool[k].messageId !in adj {
        adj := adj[pool[k].messageId := {}];
      }
    }
    assert pool[..|pool|] == pool;
    NoEdges(ids, pool);
    for k := 0 to |pool|
      invariant adj.Keys == ids
      invariant forall a, b :: a in adj ==> (b in adj[a] <==> EdgeUpTo(ids, pool, k, a, b))
    {
      var r := pool[k];
      IdAt(pool, k);
      NoLinks(ids, r);
      for j := 0 to |r.refs|
        invariant adj.Keys == ids
        invariant forall a, b :: a in adj ==> (b in adj[a] <==> EdgeUpTo(ids, pool, k, a, b) || LinksUpTo(ids, r, j, a, b))
      {
        var ref := Some(r.refs[j]);
        forall a, b {
          LinksOneMore(ids, r, j, a, b);
        }
        if ref in adj {
          adj := Linked(adj, r.messageId, ref);
          adj := Linked(adj, ref, r.messageId);
        }
      }
      forall a, b {
        EdgeOneMore(ids, pool, k, a, b);
      }
    }
  }

  lemma IdsMore(pool: seq<Letter>, r: Letter)
    ensures Ids(pool + [r]) == Ids(pool) + {r.messageId}
  {
    var more := pool + [r];
    forall x | x in Ids(pool) + {r.messageId}
      ensures x in Ids(more)
    {
      if x in Ids(pool) {
        var i :| 0 <= i < |pool| && pool[i].messageId == x;
        assert more[i].messageId == x;
      } else {
        assert more[|pool|].messageId == x;
      }
    }
  }

  lemma NoEdges(ids: set<MessageId>, pool: seq<Letter>)
    ensures forall a, b :: !EdgeUpTo(ids, pool, 0, a, b)
  {
  }

  lemma NoLinks(ids: set<MessageId>, r: Letter)
    ensures forall a, b :: !LinksUpTo(ids, r, 0, a, b)
  {
  }

  /** The search ends and finds exactly the connected component, in whatever order neighbours are taken. */
  method Search(pool: seq<Letter>, adj: Graph, start: MessageId) returns (seen: set<MessageId>)
    requires IsGraph(adj, pool) && start in Ids(pool)
    ensures forall x :: x in seen <==> Connected(pool, start, x)
  {
    hide Edge, Connected;
    seen := {start};
    var queue := [start];
    ConnectedSelf(pool, start);
    while queue != []
      invariant start in seen && seen <= Ids(pool)
      invariant forall x :: x in queue ==> x in seen
      invariant forall x :: x in seen ==> Connected(pool, start, x)
      invariant forall a, b :: a in seen && a !in queue && Edge(pool, a, b) ==> b in seen
      decreases Ids(pool) - seen, |queue|
    {
      var cur := queue[0];
      ghost var before, waiting := seen, queue;
      queue := queue[1..];
      var todo := adj[cur];
      while todo != {}
        invariant todo <= adj[cur] && start in seen && before <= seen <= Ids(pool)
        invariant forall x :: x in queue ==> x in seen
        invariant forall x :: x in waiting[1..] ==> x in queue
        invariant forall x :: x in seen && x !in before ==> x in queue
        invariant forall x :: x in seen ==> Connected(pool, start, x)
        invariant forall b :: b in adj[cur] && b !in todo ==> b in seen
        invariant seen == before ==> queue == waiting[1..]
        decreases todo
      {
        var nb :| nb in todo;
        todo := todo - {nb};
        if nb !in seen {
          assert Edge(pool, cur, nb);
          ConnectedStep(pool, start, cur, nb);
          EdgeSymmetric(pool, cur, nb);
          seen := seen + {nb};
          queue := queue + [nb];
        }
      }
      assert waiting == [cur] + waiting[1..];
    }
    forall x | Connected(pool, start, x)
      ensures x in seen
    {
      InComponent(pool, seen, start, x);
    }
  }

  lemma InComponent(pool: seq<Letter>, closed: set<MessageId>, start: MessageId, x: MessageId)
    requires Connected(pool, start, x) && start in closed
    requires forall a, b :: a in closed && Edge(pool, a, b) ==> b in closed
    ensures x in closed
  {
    hide Edge;
    var p :| Path(pool, p) && p[0] == start && p[|p| - 1] == x;
    ClosedHoldsPath(pool, closed, p, |p| - 1);
  }

  // ---- the conversation ---------------------------------------------------------------------------

  /** The pool with the acted-on letter, which the read may have missed. */
  function Pool(msg: Letter, rows: seq<Letter>): seq<Letter> {
    if msg.messageId in Ids(rows) then rows else rows + [msg]
  }

  /** Letters of msg's conversation in its folder that are not snoozed yet. */
  ghost predicate Qualifies(msg: Letter, pool: seq<Letter>, already: set<MessageId>, r: Letter) {
    r in pool && r.folder == msg.folder && r.messageId !in already && Connected(pool, msg.messageId, r.messageId)
  }

  /** No Message-ID twice. */
  ghost predicate Once(letters: seq<Letter>) {
    forall i, j :: 0 <= i < j < |letters| ==> letters[i].messageId != letters[j].messageId
  }

  /** at lists increasing places of the pool, each the first with its Message-ID that qualifies. */
  ghost predicate FirstPlaces(msg: Letter, pool: seq<Letter>, already: set<MessageId>, picked: seq<Letter>, at: seq<nat>) {
    && |at| == |picked| && (forall i, j :: 0 <= i < j < |at| ==> at[i] < at[j])
    && forall i :: 0 <= i < |picked| ==>
         && at[i] < |pool| && picked[i] == pool[at[i]] && Qualifies(msg, pool, already, picked[i])
         && forall j :: 0 <= j < at[i] && Qualifies(msg, pool, already, pool[j]) ==> pool[j].messageId != picked[i].messageId
  }

  /** Every Message-ID that qualifies among the first n letters is picked. */
  ghost predicate AllPicked(msg: Letter, pool: seq<Letter>, already: set<MessageId>, picked: seq<Letter>, n: nat) {
    forall j :: 0 <= j < n && j < |pool| && Qualifies(msg, pool, already, pool[j]) ==>
      exists i :: 0 <= i < |picked| && picked[i].messageId == pool[j].messageId
  }

  /** The Message-IDs of the picked letters, in the order of the pool. */
  method Pick(msg: Letter, pool: seq<Letter>, seen: set<MessageId>, already: set<MessageId>)
    returns (picked: seq<Letter>, ghost at: seq<nat>)
    requires forall x :: x in seen <==> Connected(pool, msg.messageId, x)
    ensures FirstPlaces(msg, pool, already, picked, at)
    ensures AllPicked(msg, pool, already, picked, |pool|)
    ensures Once(picked)
  {
    hide Connected, FirstPlaces, AllPicked, Once, Qualifies;
    picked, at := [], [];
    var ids: set<MessageId> := {};
    NonePicked(msg, pool, already);
    for k := 0 to |pool|
      invariant FirstPlaces(msg, pool, already, picked, at) && AllPicked(msg, pool, already, picked, k) && Once(picked)
      invariant forall i :: 0 <= i < |at| ==> at[i] < k
      invariant ids == Ids(picked)
    {
      var r := pool[k];
      QualifiesIf(msg, pool, already, r);
      if r.messageId in seen && r.folder == msg.folder && r.messageId !in already && r.messageId !in ids {
        PickMore(msg, pool, already, picked, at, k);
        IdsMore(picked, r);
        picked := picked + [r];
        at := at + [k];
        ids := ids + {r.messageId};
      } else {
        PickSkips(msg, pool, already, picked, k);
      }
    }
  }

  lemma QualifiesIf(msg: Letter, pool: seq<Letter>, already: set<MessageId>, r: Letter)
    requires r in pool
    ensures Qualifies(msg, pool, already, r) <==>
      r.folder == msg.folder && r.messageId !in already && Connected(pool, msg.messageId, r.messageId)
  {
  }

  lemma NonePicked(msg: Letter, pool: seq<Letter>, already: set<MessageId>)
    ensures FirstPlaces(msg, pool, already, [], []) && AllPicked(msg, pool, already, [], 0) && Once([]) && Ids([]) == {}
  {
  }

  lemma PlacesMore(msg: Letter, pool: seq<Letter>, already: set<MessageId>, picked: seq<Letter>, at: seq<nat>, k: nat)
    requires k < |pool| && Qualifies(msg, pool, already, pool[k]) && FirstPlaces(msg, pool, already, picked, at)
    requires forall j :: 0 <= j < k && Qualifies(msg, pool, already, pool[j]) ==> pool[j].messageId != pool[k].messageId
    requires forall i :: 0 <= i < |at| ==> at[i] < k
    ensures FirstPlaces(msg, pool, already, picked + [pool[k]], at + [k])
  {
    hide Qualifies;
  }

  lemma AllMore(msg: Letter, pool: seq<Letter>, already: set<MessageId>, picked: seq<Letter>, k: nat)
    requires k < |pool| && AllPicked(msg, pool, already, picked, k)
    ensures AllPicked(msg, pool, already, picked + [pool[k]], k + 1)
  {
    hide Qualifies;
    var more := picked + [pool[k]];
    forall j | 0 <= j < k + 1 && Qualifies(msg, pool, already, pool[j])
      ensures exists i :: 0 <= i < |more| && more[i].messageId == pool[j].messageId
    {
      if j < k {
        var i :| 0 <= i < |picked| && picked[i].messageId == pool[j].messageId;
        assert more[i].messageId == pool[j].messageId;
      } else {
        assert more[|picked|].messageId == pool[j].messageId;
      }
    }
  }

  lemma OnceMore(picked: seq<Letter>, r: Letter)
    requires Once(picked) && r.messageId !in Ids(picked)
    ensures Once(picked + [r])
  {
    assert forall i :: 0 <= i < |picked| ==> picked[i].messageId in Ids(picked);
  }

  lemma PickMore(msg: Letter, pool: seq<Letter>, already: set<MessageId>, picked: seq<Letter>, at: seq<nat>, k: nat)
    requires k < |pool| && Qualifies(msg, pool, already, pool[k]) && pool[k].messageId !in Ids(picked)
    requires FirstPlaces(msg, pool, already, picked, at) && AllPicked(msg, pool, already, picked, k) && Once(picked)
    requires forall i :: 0 <= i < |at| ==> at[i] < k
    ensures FirstPlaces(msg, pool, already, picked + [pool[k]], at + [k])
    ensures AllPicked(msg, pool, already, picked + [pool[k]], k + 1) && Once(picked + [pool[k]])
  {
    hide Qualifies, FirstPlaces, AllPicked, Once, Ids;
    NothingBefore(msg, pool, already, picked, k, pool[k]);
    PlacesMore(msg, pool, already, picked, at, k);
    AllMore(msg, pool, already, picked, k);
    OnceMore(picked, pool[k]);
  }

  lemma PickSkips(msg: Letter, pool: seq<Letter>, already: set<MessageId>, picked: seq<Letter>, k: nat)
    requires k < |pool| && AllPicked(msg, pool, already, picked, k)
    requires !Qualifies(msg, pool, already, pool[k]) || pool[k].messageId in Ids(picked)
    ensures AllPicked(msg, pool, already, picked, k + 1)
  {
    hide Qualifies;
  }

  lemma NothingBefore(msg: Letter, pool: seq<Letter>, already: set<MessageId>, picked: seq<Letter>, k: nat, r: Letter)
    requires AllPicked(msg, pool, already, picked, k) && r.messageId !in Ids(picked) && k <= |pool|
    ensures forall j :: 0 <= j < k && Qualifies(msg, pool, already, pool[j]) ==> pool[j].messageId != r.messageId
  {
    hide Qualifies;
    forall j | 0 <= j < k && Qualifies(msg, pool, already, pool[j])
      ensures pool[j].messageId != r.messageId
    {
      var i :| 0 <= i < |picked| && picked[i].messageId == pool[j].messageId;
      assert picked[i].messageId in Ids(picked);
    }
  }

  function Others(picked: seq<Letter>, id: MessageId): seq<Letter> {
    if picked == [] then []
    else Others(picked[..|picked| - 1], id) + if picked[|picked| - 1].messageId != id then [picked[|picked| - 1]] else []
  }

  function Self(picked: seq<Letter>, msg: Letter): Letter {
    if picked == [] then msg
    else if picked[0].messageId == msg.messageId then picked[0] else Self(picked[1..], msg)
  }

  /** r stands at the first place of the pool that qualifies under its Message-ID. */
  ghost predicate FirstOf(msg: Letter, pool: seq<Letter>, already: set<MessageId>, r: Letter, n: nat) {
    && n < |pool| && r == pool[n] && Qualifies(msg, pool, already, r)
    && forall j :: 0 <= j < n && Qualifies(msg, pool, already, pool[j]) ==> pool[j].messageId != r.messageId
  }

  /** What is snoozed with msg: first a letter with its Message-ID (the first in the pool that qualifies, or else
      msg itself), then, once each and in the order of the pool, the first letter of every other Message-ID of
      its connected component with a letter in its folder that is not snoozed yet; nothing else. */
  ghost predicate Conversation(msg: Letter, pool: seq<Letter>, already: set<MessageId>, result: seq<Letter>) {
    && result != [] && result[0].messageId == msg.messageId
    && (result[0] == msg || exists n :: FirstOf(msg, pool, already, result[0], n))
    && (forall n :: 0 <= n < |pool| && FirstOf(msg, pool, already, pool[n], n) && pool[n].messageId == msg.messageId ==> result[0] == pool[n])
    && Once(result)
    && (exists at :: FirstPlaces(msg, pool, already, result[1..], at))
    && (forall j :: 0 <= j < |pool| && Qualifies(msg, pool, already, pool[j]) ==>
          exists i :: 0 <= i < |result| && result[i].messageId == pool[j].messageId)
  }

  method Filter(picked: seq<Letter>, id: MessageId) returns (rest: seq<Letter>)
    ensures rest == Others(picked, id)
  {
    rest := [];
    for i := 0 to |picked|
      invariant rest == Others(picked[..i], id)
    {
      assert picked[..i + 1][..i] == picked[..i];
      if picked[i].messageId != id {
        rest := rest + [picked[i]];
      }
    }
    assert picked[..|picked|] == picked;
  }

  /** threaded: msg has a thread_id. rows: the letters of its thread. already: Message-IDs with a live snooze. */
  method GatherSnoozeConversation(msg: Letter, threaded: bool, rows: seq<Letter>, already: set<MessageId>) returns (result: seq<Letter>)
    ensures !threaded ==> result == [msg]
    ensures threaded ==> Conversation(msg, Pool(msg, rows), already, result)
  {
    hide Connected, Qualifies, FirstPlaces, AllPicked, Once, Conversation, IsGraph, Self;
    if !threaded {
      return [msg];
    }
    var pool := rows;
    if msg.messageId !in Ids(rows) {
      pool := pool + [msg];
      IdsMore(rows, msg);
    }
    var adj := Neighbours(pool);
    var seen := Search(pool, adj, msg.messageId);
    ghost var at;
    var picked: seq<Letter>;
    picked, at := Pick(msg, pool, seen, already);
    var rest := Filter(picked, msg.messageId);
    result := [Self(picked, msg)] + rest;
    Gathered(msg, pool, already, picked, at, result);
  }

  lemma {:induction false} SelfIs(picked: seq<Letter>, msg: Letter)
    ensures var self := Self(picked, msg); self.messageId == msg.messageId && (self == msg || self in picked)
    ensures (exists i :: 0 <= i < |picked| && picked[i].messageId == msg.messageId) ==> Self(picked, msg) in picked
  {
    if picked != [] {
      assert picked == [picked[0]] + picked[1..];
      SelfIs(picked[1..], msg);
      if picked[0].messageId != msg.messageId && exists i :: 0 <= i < |picked| && picked[i].messageId == msg.messageId {
        var i :| 0 <= i < |picked| && picked[i].messageId == msg.messageId;
        assert picked[1..][i - 1].messageId == msg.messageId;
      }
    }
  }

  lemma {:induction false} OthersAre(picked: seq<Letter>, id: MessageId)
    requires Once(picked)
    ensures var o := Others(picked, id);
      && Once(o)
      && (forall r :: r in o <==> r in picked && r.messageId != id)
  {
    if picked != [] {
      var front, last := picked[..|picked| - 1], picked[|picked| - 1];
      assert picked == front + [last];
      OthersAre(front, id);
      var o := Others(front, id);
      forall i | 0 <= i < |o|
        ensures o[i].messageId != last.messageId
      {
        assert o[i] in o;
        var n :| 0 <= n < |front| && front[n] == o[i];
        assert picked[n].messageId != picked[|picked| - 1].messageId;
      }
    }
  }

  lemma PickedFirst(msg: Letter, pool: seq<Letter>, already: set<MessageId>, picked: seq<Letter>, at: seq<nat>, i: nat)
    requires FirstPlaces(msg, pool, already, picked, at) && i < |picked|
    ensures FirstOf(msg, pool, already, picked[i], at[i])
  {
    hide Qualifies;
  }

  lemma SelfFirst(msg: Letter, pool: seq<Letter>, already: set<MessageId>, picked: seq<Letter>, at: seq<nat>, n: nat)
    requires FirstPlaces(msg, pool, already, picked, at) && AllPicked(msg, pool, already, picked, |pool|) && Once(picked)
    requires n < |pool| && FirstOf(msg, pool, already, pool[n], n) && pool[n].messageId == msg.messageId
    ensures Self(picked, msg) == pool[n]
  {
    hide Qualifies, Self, Once;
    var i :| 0 <= i < |picked| && picked[i].messageId == pool[n].messageId;
    PickedFirst(msg, pool, already, picked, at, i);
    assert at[i] == n;
    SelfIs(picked, msg);
    OnceSame(picked, Self(picked, msg), picked[i]);
  }

  lemma OnceSame(picked: seq<Letter>, a: Letter, b: Letter)
    requires Once(picked) && a in picked && b in picked && a.messageId == b.messageId
    ensures a == b
  {
    var i :| 0 <= i < |picked| && picked[i] == a;
    var j :| 0 <= j < |picked| && picked[j] == b;
    assert i == j;
  }

  lemma {:induction false} OthersPlaces(msg: Letter, pool: seq<Letter>, already: set<MessageId>, picked: seq<Letter>,
                                        at: seq<nat>)
    returns (some: seq<nat>)
    requires FirstPlaces(msg, pool, already, picked, at)
    ensures FirstPlaces(msg, pool, already, Others(picked, msg.messageId), some)
    ensures forall i :: 0 <= i < |some| ==> exists j :: 0 <= j < |at| && at[j] == some[i]
    decreases |picked|
  {
    hide Qualifies;
    if picked == [] {
      some := [];
    } else {
      var front, last := picked[..|picked| - 1], picked[|picked| - 1];
      some := OthersPlaces(msg, pool, already, front, at[..|at| - 1]);
      if last.messageId != msg.messageId {
        PickedFirst(msg, pool, already, picked, at, |picked| - 1);
        forall i | 0 <= i < |some|
          ensures some[i] < at[|at| - 1]
        {
          var j :| 0 <= j < |at| - 1 && at[..|at| - 1][j] == some[i];
          assert at[j] < at[|at| - 1];
        }
        PlacesMore(msg, pool, already, Others(front, msg.messageId), some, at[|at| - 1]);
        some := some + [at[|at| - 1]];
      }
    }
  }

  lemma PlacesSize(msg: Letter, pool: seq<Letter>, already: set<MessageId>, picked: seq<Letter>, at: seq<nat>)
    requires FirstPlaces(msg, pool, already, picked, at)
    ensures |at| == |picked|
  {
  }

  lemma PutFirst(self: Letter, rest: seq<Letter>)
    requires Once(rest) && forall r :: r in rest ==> r.messageId != self.messageId
    ensures Once([self] + rest)
  {
    assert forall i :: 0 <= i < |rest| ==> rest[i] in rest;
  }

  lemma NoneMissed(msg: Letter, picked: seq<Letter>, rest: seq<Letter>, self: Letter, x: MessageId)
    requires self.messageId == msg.messageId && forall r :: r in picked && r.messageId != msg.messageId ==> r in rest
    requires exists i :: 0 <= i < |picked| && picked[i].messageId == x
    ensures exists i :: 0 <= i < |[self] + rest| && ([self] + rest)[i].messageId == x
  {
    var i :| 0 <= i < |picked| && picked[i].messageId == x;
    var result := [self] + rest;
    if x == msg.messageId {
      assert result[0].messageId == x;
    } else {
      assert picked[i] in rest;
      var n :| 0 <= n < |rest| && rest[n] == picked[i];
      assert result[n + 1].messageId == x;
    }
  }

  lemma Gathered(msg: Letter, pool: seq<Letter>, already: set<MessageId>, picked: seq<Letter>, at: seq<nat>, result: seq<Letter>)
    requires FirstPlaces(msg, pool, already, picked, at) && AllPicked(msg, pool, already, picked, |pool|)
    requires Once(picked)
    requires result == [Self(picked, msg)] + Others(picked, msg.messageId)
    ensures Conversation(msg, pool, already, result)
  {
    hide Qualifies, FirstPlaces, FirstOf, Once, Self, Others;
    SelfIs(picked, msg);
    OthersAre(picked, msg.messageId);
    var rest := Others(picked, msg.messageId);
    PutFirst(Self(picked, msg), rest);
    if Self(picked, msg) != msg {
      var i :| 0 <= i < |picked| && picked[i] == Self(picked, msg);
      PlacesSize(msg, pool, already, picked, at);
      PickedFirst(msg, pool, already, picked, at, i);
      assert FirstOf(msg, pool, already, result[0], at[i]);
    }
    forall n | 0 <= n < |pool| && FirstOf(msg, pool, already, pool[n], n) && pool[n].messageId == msg.messageId
      ensures result[0] == pool[n]
    {
      SelfFirst(msg, pool, already, picked, at, n);
    }
    var some := OthersPlaces(msg, pool, already, picked, at);
    assert result[1..] == rest;
    forall j | 0 <= j < |pool| && Qualifies(msg, pool, already, pool[j])
      ensures exists i :: 0 <= i < |result| && result[i].messageId == pool[j].messageId
    {
      NoneMissed(msg, picked, rest, Self(picked, msg), pool[j].messageId);
    }
  }
}
