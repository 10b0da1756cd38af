/** Quorum intersection and the uniqueness of a term's winner. */
module ElectionSafety {
  import opened Logs
  import opened Nodes
  import opened Cluster
  import opened NodeInvariant
  import opened ClusterInvariant

  /** Any two quorums of the code's size share a member. */
  ghost predicate QuorumsMeet(members: set<NodeId>) {
    forall a: set<NodeId>, b: set<NodeId>
      | a <= members && b <= members && |a| >= QuorumSize(|members|) && |b| >= QuorumSize(|members|) ::
      a * b != {}
  }

  lemma SubsetSize(a: set<NodeId>, b: set<NodeId>)
    requires a <= b
    ensures |a| <= |b|
  {
    assert b == a + (b - a);
  }

  lemma OddQuorumsMeet(members: set<NodeId>, a: set<NodeId>, b: set<NodeId>)
    requires |members| % 2 == 1
    requires a <= members && b <= members && |a| >= QuorumSize(|members|) && |b| >= QuorumSize(|members|)
    ensures a * b != {}
  {
    if a * b == {} {
      assert |a + b| == |a| + |b|;
      SubsetSize(a + b, members);
    }
  }

  lemma SubsetOfSize(members: set<NodeId>, k: nat) returns (a: set<NodeId>)
    requires k <= |members|
    ensures a <= members && |a| == k
  {
    if k == 0 {
      a := {};
    } else {
      var v :| v in members;
      var rest := SubsetOfSize(members - {v}, k - 1);
      a := rest + {v};
    }
  }

  /** Half of the members, rounded up, is a majority exactly for odd cluster sizes. */
  lemma QuorumsMeetIffOdd(members: set<NodeId>)
    ensures QuorumsMeet(members) <==> |members| % 2 == 1
  {
    if |members| % 2 == 1 {
      forall a: set<NodeId>, b: set<NodeId>
        | a <= members && b <= members && |a| >= QuorumSize(|members|) && |b| >= QuorumSize(|members|)
        ensures a * b != {}
      {
        OddQuorumsMeet(members, a, b);
      }
    } else {
      var a := SubsetOfSize(members, |members| / 2);
      var b := members - a;
      assert members == a + b;
      assert a * b == {};
    }
  }

  ghost predicate OneWinner(wins: Wins) {
    forall t, a, b | (t, a) in wins && (t, b) in wins :: a == b
  }

  /** Two durable votes of one member for one term are for one candidate. */
  lemma VotesAgree(ns: Procs, ts: Tallies, h: History, members: set<NodeId>, v: NodeId, term: nat, a: NodeId, b: NodeId)
    requires Members(ns, ts, h, members)
    requires Durable(ns, v, term, a) && Durable(ns, v, term, b)
    ensures a == b
  {
    assert MemberOk(ns, ts, h, members, v);
    assert Honours(ns[v].votes, VoteRow(term, a)) && Honours(ns[v].votes, VoteRow(term, b));
  }

  lemma QuorumsAgree(ns: Procs, ts: Tallies, h: History, members: set<NodeId>,
                     term: nat, a: NodeId, va: set<NodeId>, b: NodeId, vb: set<NodeId>)
    requires Members(ns, ts, h, members) && |members| % 2 == 1
    requires va <= members && |va| >= QuorumSize(|members|) && forall u | u in va :: Durable(ns, u, term, a)
    requires vb <= members && |vb| >= QuorumSize(|members|) && forall u | u in vb :: Durable(ns, u, term, b)
    ensures a == b
  {
    OddQuorumsMeet(members, va, vb);
    var u :| u in va * vb;
    VotesAgree(ns, ts, h, members, u, term, a, b);
  }

  lemma WinnerUnique(c: Cluster, members: set<NodeId>)
    requires Inv(c, members) && |members| % 2 == 1
    ensures OneWinner(c.wins)
  {
    hide NodeInv;
    forall t, a, b | (t, a) in c.wins && (t, b) in c.wins ensures a == b {
      assert WinOk(c.nodes, c.wins, c.leaderLogs, members, (t, a));
      assert WinOk(c.nodes, c.wins, c.leaderLogs, members, (t, b));
      QuorumsAgree(c.nodes, c.tallies, c.leaderLogs, members, t, a, c.wins[(t, a)], b, c.wins[(t, b)]);
    }
  }
}
