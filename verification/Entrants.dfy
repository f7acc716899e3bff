/** The field of a tournament. */
module Entrants {
  import opened Basics
  import opened Brackets

  type PlayerId = int
  type TournamentId = int

  /** An entry in a tournament. `player` is absent once the account is gone. */
  datatype Entrant = Entrant(
    id: EntrantId,
    player: Option<PlayerId>,
    seed: Option<nat>,
    skill: Option<int>)

  function Ids(entrants: seq<Entrant>): seq<EntrantId> {
    seq(|entrants|, i requires 0 <= i < |entrants| => entrants[i].id)
  }

  /** No id and no account occurs in the list two times. */
  ghost predicate DistinctField(entrants: seq<Entrant>) {
    && NoDup(Ids(entrants))
    && forall i, j :: 0 <= i < j < |entrants| && entrants[i].player.Some? ==>
         entrants[i].player != entrants[j].player
  }

  /** The account behind an entry, if the list has the entry and it has one. */
  function PlayerOf(entrants: seq<Entrant>, e: EntrantId): (p: Option<PlayerId>)
    ensures p.Some? ==> exists i :: 0 <= i < |entrants| && entrants[i].id == e && entrants[i].player == p
  {
    if entrants == [] then None
    else if entrants[0].id == e then entrants[0].player
    else
      var p := PlayerOf(entrants[1..], e);
      assert p.Some? ==> exists i :: 0 <= i < |entrants[1..]| && entrants[1..][i].id == e
                                     && entrants[1..][i].player == p;
      assert forall i :: 0 <= i < |entrants[1..]| ==> entrants[1..][i] == entrants[i + 1];
      p
  }

  lemma {:induction false} PlayerOfEntry(entrants: seq<Entrant>, i: nat)
    requires i < |entrants| && NoDup(Ids(entrants))
    ensures PlayerOf(entrants, entrants[i].id) == entrants[i].player
  {
    assert Ids(entrants)[i] == entrants[i].id && Ids(entrants)[0] == entrants[0].id;
    if i > 0 {
      assert Ids(entrants[1..]) == Ids(entrants)[1..];
      PlayerOfEntry(entrants[1..], i - 1);
    }
  }

  lemma PlayerOfIsInjective(entrants: seq<Entrant>, e: EntrantId, f: EntrantId)
    requires DistinctField(entrants)
    requires PlayerOf(entrants, e).Some? && PlayerOf(entrants, e) == PlayerOf(entrants, f)
    ensures e == f
  {
    var i :| 0 <= i < |entrants| && entrants[i].id == e && entrants[i].player == PlayerOf(entrants, e);
    var j :| 0 <= j < |entrants| && entrants[j].id == f && entrants[j].player == PlayerOf(entrants, f);
    assert !(i < j) && !(j < i);
  }

  lemma {:induction false} IdsPermute(xs: seq<Entrant>, ys: seq<Entrant>)
    requires multiset(xs) == multiset(ys)
    ensures multiset(Ids(xs)) == multiset(Ids(ys))
    decreases |xs|
  {
    assert |multiset(xs)| == |xs| && |multiset(ys)| == |ys|;
    if xs != [] {
      var i := FindHead(xs, ys);
      IdsPermute(xs[1..], ys[..i] + ys[i + 1..]);
      assert Ids(xs) == [xs[0].id] + Ids(xs[1..]);
      assert Ids(ys) == Ids(ys[..i]) + ([ys[i].id] + Ids(ys[i + 1..]));
      assert Ids(ys[..i] + ys[i + 1..]) == Ids(ys[..i]) + Ids(ys[i + 1..]);
    }
  }
}
