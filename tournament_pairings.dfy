/**
 * Pairings of the advanced tournament system
 * (public/js/advanced_tournament_system.js): the game record every
 * generator produces and the circle-method round robin with a `BYE` for
 * an odd field. The Swiss and knockout generators build on these
 * definitions in modules of their own.
 */
module TournamentPairings {

  /** The filler name added to an odd field. */
  const Bye := "BYE"

  /** One scheduled game of a tournament round. */
  datatype Pairing = Pairing(white: string, black: string, round: nat, game: nat, status: string, elimination: bool)

  function Players(p: Pairing): set<string> {
    {p.white, p.black}
  }

  /** Game k (0-based) of a pairing: player1 has white iff k is even. */
  function Game(p1: string, p2: string, round: nat, k: nat, elimination: bool): Pairing {
    Pairing(if k % 2 == 0 then p1 else p2, if k % 2 == 0 then p2 else p1, round, k + 1, "pending", elimination)
  }

  /** The `gamesPerPairing` games pushed for one pairing. */
  function Games(p1: string, p2: string, round: nat, g: nat, elimination: bool): (r: seq<Pairing>)
    ensures |r| == g
  {
    if g == 0 then [] else Games(p1, p2, round, g - 1, elimination) + [Game(p1, p2, round, g - 1, elimination)]
  }

  lemma {:induction false} GamesAt(p1: string, p2: string, round: nat, g: nat, elimination: bool)
    ensures forall k :: 0 <= k < g ==> Games(p1, p2, round, g, elimination)[k] == Game(p1, p2, round, k, elimination)
  {
    if g > 0 {
      GamesAt(p1, p2, round, g - 1, elimination);
    }
  }

  /** Every game of a pairing is between its two players, in its round. */
  lemma {:induction false} GamesPlayers(p1: string, p2: string, round: nat, g: nat, elimination: bool)
    ensures forall x :: x in Games(p1, p2, round, g, elimination) ==>
              Players(x) == {p1, p2} && x.round == round && x.elimination == elimination
  {
    if g > 0 {
      GamesPlayers(p1, p2, round, g - 1, elimination);
    }
  }

  /** The inner `for (game …)` loop: pushes the games of one pairing onto a round. */
  method PushGames(acc: seq<Pairing>, p1: string, p2: string, round: nat, g: nat, elimination: bool)
    returns (r: seq<Pairing>)
    ensures r == acc + Games(p1, p2, round, g, elimination)
  {
    r := acc;
    var game := 0;
    while game < g
      invariant 0 <= game <= g
      invariant r == acc + Games(p1, p2, round, game, elimination)
    {
      r := r + [Game(p1, p2, round, game, elimination)];
      game := game + 1;
    }
  }

  // ---------------------------------------------------------------------
  // Round robin (circle method)
  // ---------------------------------------------------------------------

  /** An odd field gets a `BYE`, so the padded field is even. */
  function Padded(ps: seq<string>): (r: seq<string>)
    ensures |r| % 2 == 0 && |ps| <= |r| <= |ps| + 1
  {
    if |ps| % 2 == 1 then ps + [Bye] else ps
  }

  /** `pop` the last element and `splice` it back in at index 1. */
  function Rotate(ps: seq<string>): (r: seq<string>)
    requires |ps| >= 2
    ensures |r| == |ps|
  {
    [ps[0], ps[|ps| - 1]] + ps[1..|ps| - 1]
  }

  /** The order of the field in round r (0-based). */
  function Arrangement(q: seq<string>, r: nat): (a: seq<string>)
    requires |q| >= 2
    ensures |a| == |q|
  {
    if r == 0 then q else Rotate(Arrangement(q, r - 1))
  }

  /** Position i against position |a| - 1 - i, unless one of them is the `BYE`. */
  function Meeting(a: seq<string>, i: nat, round: nat, g: nat): seq<Pairing>
    requires i < |a|
  {
    if a[i] != Bye && a[|a| - 1 - i] != Bye then Games(a[i], a[|a| - 1 - i], round, g, false) else []
  }

  /** The games of the first i positions of a round. */
  function RoundPairs(a: seq<string>, i: nat, round: nat, g: nat): seq<Pairing>
    requires i <= |a|
  {
    if i == 0 then [] else RoundPairs(a, i - 1, round, g) + Meeting(a, i - 1, round, g)
  }

  /** Round r (0-based) of the padded field q. */
  function RoundOf(q: seq<string>, r: nat, g: nat): seq<Pairing>
    requires |q| >= 2
  {
    RoundPairs(Arrangement(q, r), |q| / 2, r + 1, g)
  }

  /** What `generateRoundRobinPairings` returns: T - 1 rounds for a padded field of T. */
  function RoundRobin(ps: seq<string>, g: nat): (r: seq<seq<Pairing>>)
    ensures |r| == if |ps| == 0 then 0 else |Padded(ps)| - 1
  {
    var q := Padded(ps);
    if |q| < 2 then [] else seq(|q| - 1, r requires 0 <= r < |q| - 1 => RoundOf(q, r, g))
  }

  method GenerateRoundRobinPairings(participants: seq<string>, gamesPerPairing: nat) returns (rounds: seq<seq<Pairing>>)
    ensures rounds == RoundRobin(participants, gamesPerPairing)
  {
    ghost var q := Padded(participants);
    var ps := participants;
    if |ps| % 2 == 1 {
      ps := ps + [Bye];
    }
    var total := |ps|;
    rounds := [];
    var round := 0;
    while round < total - 1
      invariant total == |q| && |ps| == total && |rounds| == round
      invariant total < 2 ==> round == 0
      invariant total >= 2 ==> round <= total - 1 && ps == Arrangement(q, round) && RoundsSoFar(q, rounds, gamesPerPairing)
    {
      ps, rounds := RoundRobinRound(q, ps, rounds, round, gamesPerPairing);
      round := round + 1;
    }
    if total >= 2 {
      RoundRobinExt(participants, gamesPerPairing, rounds);
    }
  }

  /** Every round built so far is the round the circle method prescribes. */
  predicate RoundsSoFar(q: seq<string>, rounds: seq<seq<Pairing>>, g: nat)
    requires |q| >= 2
  {
    forall r :: 0 <= r < |rounds| ==> rounds[r] == RoundOf(q, r, g)
  }

  /** The body of the round loop: pair the current order, push the round, rotate. */
  method RoundRobinRound(ghost q: seq<string>, ps: seq<string>, rounds: seq<seq<Pairing>>, round: nat, gamesPerPairing: nat)
    returns (ps': seq<string>, rounds': seq<seq<Pairing>>)
    requires |q| >= 2 && round < |q| - 1 && ps == Arrangement(q, round)
    requires |rounds| == round && RoundsSoFar(q, rounds, gamesPerPairing)
    ensures ps' == Arrangement(q, round + 1)
    ensures |rounds'| == round + 1 && RoundsSoFar(q, rounds', gamesPerPairing)
  {
    var roundPairings := PairRound(ps, round + 1, gamesPerPairing);
    assert roundPairings == RoundOf(q, round, gamesPerPairing);
    RoundsSoFarSnoc(q, rounds, roundPairings, gamesPerPairing);
    rounds' := rounds + [roundPairings];
    var last := ps[|ps| - 1];
    ps' := ps[..|ps| - 1];
    ps' := ps'[..1] + [last] + ps'[1..];
    RotateSplice(ps);
  }

  lemma RoundsSoFarSnoc(q: seq<string>, rounds: seq<seq<Pairing>>, next: seq<Pairing>, g: nat)
    requires |q| >= 2 && RoundsSoFar(q, rounds, g) && next == RoundOf(q, |rounds|, g)
    ensures RoundsSoFar(q, rounds + [next], g)
  {
    forall r | 0 <= r < |rounds| + 1
      ensures (rounds + [next])[r] == RoundOf(q, r, g)
    {
      if r < |rounds| {
        assert (rounds + [next])[r] == rounds[r];
      }
    }
  }

  lemma RoundRobinExt(ps: seq<string>, g: nat, rounds: seq<seq<Pairing>>)
    requires |Padded(ps)| >= 2 && |rounds| == |Padded(ps)| - 1 && RoundsSoFar(Padded(ps), rounds, g)
    ensures rounds == RoundRobin(ps, g)
  {
  }

  /** One round: position i against position |ps| - 1 - i for i < |ps| / 2, skipping the `BYE`. */
  method PairRound(ps: seq<string>, round: nat, gamesPerPairing: nat) returns (roundPairings: seq<Pairing>)
    ensures roundPairings == RoundPairs(ps, |ps| / 2, round, gamesPerPairing)
  {
    var total := |ps|;
    roundPairings := [];
    var i := 0;
    while i < total / 2
      invariant 0 <= i <= total / 2
      invariant roundPairings == RoundPairs(ps, i, round, gamesPerPairing)
    {
      roundPairings := PushMeeting(roundPairings, ps, i, round, gamesPerPairing);
      i := i + 1;
    }
  }

  /** The body of the position loop: the games of position i, unless it or its opponent is the `BYE`. */
  method PushMeeting(acc: seq<Pairing>, ps: seq<string>, i: nat, round: nat, gamesPerPairing: nat) returns (r: seq<Pairing>)
    requires i < |ps|
    ensures r == acc + Meeting(ps, i, round, gamesPerPairing)
  {
    var player1 := ps[i];
    var player2 := ps[|ps| - 1 - i];
    r := acc;
    if player1 != Bye && player2 != Bye {
      r := PushGames(r, player1, player2, round, gamesPerPairing, false);
    }
  }

  lemma RotateSplice(ps: seq<string>)
    requires |ps| >= 2
    ensures ps[..|ps| - 1][..1] + [ps[|ps| - 1]] + ps[..|ps| - 1][1..] == Rotate(ps)
  {
  }

  /** Index 0 is never rotated. */
  lemma {:induction false} ArrangementFixesFirst(q: seq<string>, r: nat)
    requires |q| >= 2
    ensures Arrangement(q, r)[0] == q[0]
  {
    if r > 0 {
      ArrangementFixesFirst(q, r - 1);
    }
  }

  /**
   * Where q[1 + a] stands in round r: positions 1..m (m = |q| - 1) turn
   * one step to the right each round, the last one wrapping to 1.
   */
  function Pos(a: nat, r: nat, m: nat): (k: nat)
    requires a < m && r < m
    ensures 1 <= k <= m
  {
    1 + (if a + r < m then a + r else a + r - m)
  }

  /** Where q[x] stands in round r. */
  function PositionOf(x: nat, r: nat, m: nat): (k: nat)
    requires x <= m && r < m
    ensures k <= m
  {
    if x == 0 then 0 else Pos(x - 1, r, m)
  }

  lemma {:induction false} ArrangementAt(q: seq<string>, r: nat, a: nat)
    requires |q| >= 2 && r < |q| - 1 && a < |q| - 1
    ensures Arrangement(q, r)[Pos(a, r, |q| - 1)] == q[1 + a]
  {
    if r > 0 {
      var m := |q| - 1;
      var prev := Arrangement(q, r - 1);
      ArrangementAt(q, r - 1, a);
      var k := Pos(a, r - 1, m);
      assert Arrangement(q, r) == Rotate(prev);
      if k == m {
        assert Pos(a, r, m) == 1;
        assert Rotate(prev)[1] == prev[m];
      } else {
        assert Pos(a, r, m) == k + 1;
        assert Rotate(prev)[k + 1] == prev[k];
      }
    }
  }

  /** Every position of round r holds the element PositionOf says. */
  lemma PositionOnto(k: nat, r: nat, m: nat) returns (x: nat)
    requires k <= m && r < m
    ensures x <= m && PositionOf(x, r, m) == k
  {
    if k == 0 {
      x := 0;
    } else if k - 1 >= r {
      x := k - r;
    } else {
      x := k - 1 - r + m + 1;
    }
  }

  predicate Distinct(s: seq<string>) {
    forall i, j :: 0 <= i < j < |s| ==> s[i] != s[j]
  }

  /** With a field of distinct names, q[x] stands at exactly one position of each round. */
  lemma ArrangementIndex(q: seq<string>, r: nat, k: nat, x: nat)
    requires |q| >= 2 && Distinct(q) && r < |q| - 1 && k < |q| && x < |q|
    ensures Arrangement(q, r)[k] == q[x] <==> k == PositionOf(x, r, |q| - 1)
  {
    var m := |q| - 1;
    var y := PositionOnto(k, r, m);
    if y == 0 {
      ArrangementFixesFirst(q, r);
    } else {
      ArrangementAt(q, r, y - 1);
    }
    if x == 0 {
      ArrangementFixesFirst(q, r);
    } else {
      ArrangementAt(q, r, x - 1);
    }
  }

  /** q[x] and q[y] play in round r iff their positions sum to m, i.e. they face each other. */
  predicate MeetAt(x: nat, y: nat, r: nat, m: nat)
    requires x <= m && y <= m && r < m
  {
    PositionOf(x, r, m) + PositionOf(y, r, m) == m
  }

  /** The one round in which q[x] faces q[y] (m odd, x != y). */
  function MeetingRound(x: nat, y: nat, m: nat): nat
    requires x <= m && y <= m && x != y
  {
    if x == 0 then m - y
    else if y == 0 then m - x
    else
      var s := x + y;
      if s % 2 == 1 then (if s <= m then (m - s) / 2 else (3 * m - s) / 2)
      else (2 * m - s) / 2
  }

  /** The circle method: two distinct entries face each other in exactly one of the m rounds. */
  lemma MeetAtIff(x: nat, y: nat, r: nat, m: nat)
    requires m % 2 == 1 && x <= m && y <= m && x != y && r < m
    ensures MeetAt(x, y, r, m) <==> r == MeetingRound(x, y, m)
  {
    if x == 0 {
      assert PositionOf(y, r, m) == m <==> y - 1 + r == m - 1;
    } else if y == 0 {
      assert PositionOf(x, r, m) == m <==> x - 1 + r == m - 1;
    } else {
      MeetAtInner(x, y, r, m);
    }
  }

  /** Two entries off index 0 face each other iff x + y + 2r is m, 2m or 3m, whichever the wraps allow. */
  lemma MeetAtInner(x: nat, y: nat, r: nat, m: nat)
    requires m % 2 == 1 && 1 <= x <= m && 1 <= y <= m && x != y && r < m
    ensures MeetAt(x, y, r, m) <==> r == MeetingRound(x, y, m)
  {
    if MeetAt(x, y, r, m) {
      MeetForward(x, y, r, m);
    }
    if r == MeetingRound(x, y, m) {
      MeetBackward(x, y, m);
    }
  }

  lemma MeetForward(x: nat, y: nat, r: nat, m: nat)
    requires m % 2 == 1 && 1 <= x <= m && 1 <= y <= m && x != y && r < m
    requires MeetAt(x, y, r, m)
    ensures r == MeetingRound(x, y, m)
  {
    var s := x + y;
    var hm := m / 2;
    var j := s / 2;
    assert m == 2 * hm + 1;
    var wx := if x - 1 + r < m then 0 else m;
    var wy := if y - 1 + r < m then 0 else m;
    assert Pos(x - 1, r, m) + Pos(y - 1, r, m) == s + 2 * r - wx - wy;
    if wx == 0 && wy == 0 {
      assert s + 2 * r == m;
      assert s == 2 * (hm - r) + 1 && j == hm - r;
    } else if wx == m && wy == m {
      assert s + 2 * r == 3 * m;
      assert s == 2 * (3 * hm + 1 - r) + 1 && j == 3 * hm + 1 - r;
    } else {
      assert s + 2 * r == 2 * m;
      assert s == 2 * (m - r) && j == m - r;
    }
  }

  lemma MeetBackward(x: nat, y: nat, m: nat)
    requires m % 2 == 1 && 1 <= x <= m && 1 <= y <= m && x != y
    ensures MeetingRound(x, y, m) < m && MeetAt(x, y, MeetingRound(x, y, m), m)
  {
    var s := x + y;
    var r := MeetingRound(x, y, m);
    var hm := m / 2;
    var j := s / 2;
    assert m == 2 * hm + 1;
    if s % 2 == 1 {
      assert s == 2 * j + 1;
      if s <= m {
        assert r == hm - j;
        assert x - 1 + r < m && y - 1 + r < m;
        assert Pos(x - 1, r, m) + Pos(y - 1, r, m) == s + 2 * r;
      } else {
        assert r == 3 * hm + 1 - j;
        assert x - 1 + r >= m && y - 1 + r >= m;
        assert Pos(x - 1, r, m) + Pos(y - 1, r, m) == s + 2 * r - 2 * m;
      }
    } else {
      assert s == 2 * j;
      assert r == m - j;
      if x > y {
        assert x - y == 2 * (x - j);
        assert x - 1 + r >= m && y - 1 + r < m;
      } else {
        assert y - x == 2 * (y - j);
        assert x - 1 + r < m && y - 1 + r >= m;
      }
      assert Pos(x - 1, r, m) + Pos(y - 1, r, m) == s + 2 * r - m;
    }
  }

  lemma MeetingRoundBound(x: nat, y: nat, m: nat)
    requires m % 2 == 1 && x <= m && y <= m && x != y
    ensures MeetingRound(x, y, m) < m
  {
  }

  lemma MeetingMember(a: seq<string>, i: nat, round: nat, g: nat, p: Pairing)
    requires i < |a| && p in Meeting(a, i, round, g)
    ensures Players(p) == {a[i], a[|a| - 1 - i]} && a[i] != Bye && a[|a| - 1 - i] != Bye && p.round == round
  {
    GamesPlayers(a[i], a[|a| - 1 - i], round, g, false);
  }

  /** A game of a round comes from one of its positions. */
  lemma {:induction false} RoundPairsSource(a: seq<string>, n: nat, round: nat, g: nat, p: Pairing) returns (i: nat)
    requires n <= |a| && p in RoundPairs(a, n, round, g)
    ensures i < n && p in Meeting(a, i, round, g)
  {
    if p in RoundPairs(a, n - 1, round, g) {
      i := RoundPairsSource(a, n - 1, round, g, p);
    } else {
      i := n - 1;
    }
  }

  /** The games of each position are in the round. */
  lemma {:induction false} RoundPairsInclude(a: seq<string>, n: nat, i: nat, round: nat, g: nat, p: Pairing)
    requires i < n <= |a| && p in Meeting(a, i, round, g)
    ensures p in RoundPairs(a, n, round, g)
  {
    if i < n - 1 {
      RoundPairsInclude(a, n - 1, i, round, g, p);
    }
  }

  /** The order of a field of distinct names never repeats a name. */
  lemma ArrangementDistinct(q: seq<string>, r: nat)
    requires |q| >= 2 && Distinct(q) && r < |q| - 1
    ensures Distinct(Arrangement(q, r))
  {
    var a := Arrangement(q, r);
    forall j1, j2 | 0 <= j1 < j2 < |a|
      ensures a[j1] != a[j2]
    {
      var x := PositionOnto(j1, r, |q| - 1);
      ArrangementIndex(q, r, j1, x);
      ArrangementIndex(q, r, j2, x);
    }
  }

  lemma PaddedAt(ps: seq<string>, x: nat)
    requires x < |Padded(ps)|
    ensures Padded(ps)[x] == if x < |ps| then ps[x] else Bye
  {
  }

  lemma PaddedDistinct(ps: seq<string>)
    requires Distinct(ps) && Bye !in ps
    ensures Distinct(Padded(ps))
  {
  }

  /** A game between u and v, whichever of them has white. */
  predicate Between(p: Pairing, u: string, v: string) {
    (p.white == u && p.black == v) || (p.white == v && p.black == u)
  }

  /** Some game of a round is between u and v. */
  predicate Meets(round: seq<Pairing>, u: string, v: string) {
    exists p :: p in round && Between(p, u, v)
  }

  /**
   * Every two distinct participants meet in exactly one round: the round
   * that `MeetingRound` names for their indices, and in no other.
   */
  lemma RoundRobinMeetsOnce(ps: seq<string>, g: nat, x: nat, y: nat)
    requires Distinct(ps) && Bye !in ps && g >= 1
    requires x < |ps| && y < |ps| && x != y
    ensures MeetingRound(x, y, |Padded(ps)| - 1) < |RoundRobin(ps, g)|
    ensures forall r :: 0 <= r < |RoundRobin(ps, g)| ==>
              (Meets(RoundRobin(ps, g)[r], ps[x], ps[y]) <==> r == MeetingRound(x, y, |Padded(ps)| - 1))
  {
    var q := Padded(ps);
    var m := |q| - 1;
    PaddedDistinct(ps);
    PaddedAt(ps, x);
    PaddedAt(ps, y);
    MeetBackward2(x, y, m);
    forall r | 0 <= r < |RoundRobin(ps, g)|
      ensures Meets(RoundRobin(ps, g)[r], ps[x], ps[y]) <==> r == MeetingRound(x, y, m)
    {
      assert RoundRobin(ps, g)[r] == RoundOf(q, r, g);
      MeetAtIff(x, y, r, m);
      var kx, ky := Seats(q, r, x, y);
      if MeetAt(x, y, r, m) {
        var p := GameInRound(q, r, g, Arrangement(q, r), kx, ky);
      } else if Meets(RoundOf(q, r, g), q[x], q[y]) {
        var p :| p in RoundOf(q, r, g) && Between(p, q[x], q[y]);
        ArrangementDistinct(q, r);
        OnlyWhenFacing(q, r, g, kx, ky, p);
      }
    }
  }

  lemma MeetBackward2(x: nat, y: nat, m: nat)
    requires m % 2 == 1 && x <= m && y <= m && x != y
    ensures MeetingRound(x, y, m) < m
  {
    if x != 0 && y != 0 {
      MeetBackward(x, y, m);
    }
  }

  /** In round r, the entries at two facing positions (neither the `BYE`) have a game... */
  lemma GameInRound(q: seq<string>, r: nat, g: nat, a: seq<string>, kx: nat, ky: nat) returns (p: Pairing)
    requires |q| >= 2 && |a| == |q| && |q| % 2 == 0 && r < |q| - 1 && g >= 1
    requires RoundOf(q, r, g) == RoundPairs(a, |q| / 2, r + 1, g)
    requires kx < |q| && ky < |q| && kx + ky == |q| - 1 && a[kx] != Bye && a[ky] != Bye
    ensures p in RoundOf(q, r, g) && Between(p, a[kx], a[ky])
  {
    p := FacingGame(a, |q| / 2, kx, ky, r + 1, g);
  }

  /** ... and two entries have a game only when they face each other, since nobody stands twice. */
  lemma OnlyWhenFacing(q: seq<string>, r: nat, g: nat, kx: nat, ky: nat, p: Pairing)
    requires |q| >= 2 && |q| % 2 == 0 && r < |q| - 1 && Distinct(Arrangement(q, r))
    requires kx < |q| && ky < |q| && kx != ky
    requires p in RoundOf(q, r, g) && Between(p, Arrangement(q, r)[kx], Arrangement(q, r)[ky])
    ensures kx + ky == |q| - 1
  {
    GameFacing(Arrangement(q, r), |q| / 2, kx, ky, r + 1, g, p);
  }

  /** Where q[x] and q[y] stand in the order of round r. */
  lemma Seats(q: seq<string>, r: nat, x: nat, y: nat) returns (kx: nat, ky: nat)
    requires |q| >= 2 && Distinct(q) && r < |q| - 1 && x < |q| && y < |q| && x != y
    ensures kx < |q| && ky < |q| && kx != ky
    ensures Arrangement(q, r)[kx] == q[x] && Arrangement(q, r)[ky] == q[y]
    ensures kx + ky == |q| - 1 <==> MeetAt(x, y, r, |q| - 1)
  {
    kx := PositionOf(x, r, |q| - 1);
    ky := PositionOf(y, r, |q| - 1);
    ArrangementIndex(q, r, kx, x);
    ArrangementIndex(q, r, ky, y);
  }

  /** Two non-`BYE` entries at positions summing to |a| - 1 get a game. */
  lemma FacingGame(a: seq<string>, n: nat, kx: nat, ky: nat, round: nat, g: nat) returns (p: Pairing)
    requires |a| % 2 == 0 && n == |a| / 2 && kx < |a| && ky < |a| && kx + ky == |a| - 1 && g >= 1
    requires a[kx] != Bye && a[ky] != Bye
    ensures p in RoundPairs(a, n, round, g) && Between(p, a[kx], a[ky])
  {
    var t := |a|;
    var i := if kx < ky then kx else ky;
    GamesAt(a[i], a[t - 1 - i], round, g, false);
    p := Games(a[i], a[t - 1 - i], round, g, false)[0];
    assert p == Game(a[i], a[t - 1 - i], round, 0, false);
    MeetingMember(a, i, round, g, p);
    RoundPairsInclude(a, n, i, round, g, p);
  }

  /** In a field without repeats, a game between a[kx] and a[ky] means they face each other. */
  lemma GameFacing(a: seq<string>, n: nat, kx: nat, ky: nat, round: nat, g: nat, p: Pairing)
    requires |a| % 2 == 0 && n == |a| / 2 && Distinct(a) && kx < |a| && ky < |a| && kx != ky
    requires p in RoundPairs(a, n, round, g) && Between(p, a[kx], a[ky])
    ensures kx + ky == |a| - 1
  {
    var i := RoundPairsSource(a, n, round, g, p);
    MeetingFacing(a, i, kx, ky, round, g, p);
  }

  lemma MeetingFacing(a: seq<string>, i: nat, kx: nat, ky: nat, round: nat, g: nat, p: Pairing)
    requires |a| % 2 == 0 && Distinct(a) && kx < |a| && ky < |a| && kx != ky && i < |a| / 2
    requires p in Meeting(a, i, round, g) && Between(p, a[kx], a[ky])
    ensures kx + ky == |a| - 1
  {
    var jx := Seat(a, i, round, g, p, a[kx]);
    var jy := Seat(a, i, round, g, p, a[ky]);
    DistinctIndex(a, jx, kx);
    DistinctIndex(a, jy, ky);
  }

  /** Nobody has two different opponents in one round. */
  lemma RoundRobinOneOpponent(ps: seq<string>, g: nat, r: nat, p1: Pairing, p2: Pairing, w: string)
    requires Distinct(ps) && Bye !in ps
    requires r < |RoundRobin(ps, g)| && p1 in RoundRobin(ps, g)[r] && p2 in RoundRobin(ps, g)[r]
    requires w in Players(p1) && w in Players(p2)
    ensures Players(p1) == Players(p2)
  {
    var q := Padded(ps);
    PaddedDistinct(ps);
    assert p1 in RoundOf(q, r, g) && p2 in RoundOf(q, r, g);
    RoundOfOneOpponent(q, r, g, p1, p2, w);
  }

  lemma RoundOfOneOpponent(q: seq<string>, r: nat, g: nat, p1: Pairing, p2: Pairing, w: string)
    requires |q| >= 2 && |q| % 2 == 0 && Distinct(q) && r < |q| - 1
    requires p1 in RoundOf(q, r, g) && p2 in RoundOf(q, r, g)
    requires w in Players(p1) && w in Players(p2)
    ensures Players(p1) == Players(p2)
  {
    ArrangementDistinct(q, r);
    RoundOneOpponent(Arrangement(q, r), r + 1, g, p1, p2, w);
  }

  lemma RoundOneOpponent(a: seq<string>, round: nat, g: nat, p1: Pairing, p2: Pairing, w: string)
    requires Distinct(a) && |a| % 2 == 0
    requires p1 in RoundPairs(a, |a| / 2, round, g) && p2 in RoundPairs(a, |a| / 2, round, g)
    requires w in Players(p1) && w in Players(p2)
    ensures Players(p1) == Players(p2)
  {
    var i1 := RoundPairsSource(a, |a| / 2, round, g, p1);
    var i2 := RoundPairsSource(a, |a| / 2, round, g, p2);
    MeetingOneOpponent(a, i1, i2, round, g, p1, p2, w);
  }

  lemma MeetingOneOpponent(a: seq<string>, i1: nat, i2: nat, round: nat, g: nat, p1: Pairing, p2: Pairing, w: string)
    requires Distinct(a) && |a| % 2 == 0 && i1 < |a| / 2 && i2 < |a| / 2
    requires p1 in Meeting(a, i1, round, g) && p2 in Meeting(a, i2, round, g)
    requires w in Players(p1) && w in Players(p2)
    ensures Players(p1) == Players(p2)
  {
    var j1 := Seat(a, i1, round, g, p1, w);
    var j2 := Seat(a, i2, round, g, p2, w);
    DistinctIndex(a, j1, j2);
    SameSeat(|a|, i1, i2, j1);
  }

  /** A player of a game of position i sits at i or at the facing position. */
  lemma Seat(a: seq<string>, i: nat, round: nat, g: nat, p: Pairing, w: string) returns (j: nat)
    requires i < |a| && p in Meeting(a, i, round, g) && w in Players(p)
    ensures j < |a| && a[j] == w && (j == i || j == |a| - 1 - i)
    ensures Players(p) == {a[i], a[|a| - 1 - i]}
  {
    MeetingMember(a, i, round, g, p);
    j := if w == a[i] then i else |a| - 1 - i;
  }

  lemma DistinctIndex(a: seq<string>, j1: nat, j2: nat)
    requires Distinct(a) && j1 < |a| && j2 < |a| && a[j1] == a[j2]
    ensures j1 == j2
  {
  }

  /** Two positions of the first half sharing a seat are the same position. */
  lemma SameSeat(t: nat, i1: nat, i2: nat, j: nat)
    requires t % 2 == 0 && i1 < t / 2 && i2 < t / 2
    requires (j == i1 || j == t - 1 - i1) && (j == i2 || j == t - 1 - i2)
    ensures i1 == i2
  {
  }

  /** No emitted game involves the `BYE`; every game of round r is numbered r + 1. */
  lemma RoundRobinNoBye(ps: seq<string>, g: nat, r: nat, p: Pairing)
    requires r < |RoundRobin(ps, g)| && p in RoundRobin(ps, g)[r]
    ensures Bye !in Players(p) && p.round == r + 1
  {
    var q := Padded(ps);
    assert p in RoundOf(q, r, g);
    RoundOfNoBye(q, r, g, p);
  }

  lemma RoundOfNoBye(q: seq<string>, r: nat, g: nat, p: Pairing)
    requires |q| >= 2 && p in RoundOf(q, r, g)
    ensures Bye !in Players(p) && p.round == r + 1
  {
    RoundNoBye(Arrangement(q, r), r + 1, g, p);
  }

  lemma RoundNoBye(a: seq<string>, round: nat, g: nat, p: Pairing)
    requires p in RoundPairs(a, |a| / 2, round, g)
    ensures Bye !in Players(p) && p.round == round
  {
    var i := RoundPairsSource(a, |a| / 2, round, g, p);
    MeetingMember(a, i, round, g, p);
  }

  // ---------------------------------------------------------------------
  // How many games the round robin schedules
  // ---------------------------------------------------------------------

  /** The number of games in a list of rounds. */
  function TotalGames(rounds: seq<seq<Pairing>>): nat
  {
    if |rounds| == 0 then 0 else |rounds[0]| + TotalGames(rounds[1..])
  }

  lemma {:induction false} TotalGamesConst(rounds: seq<seq<Pairing>>, c: nat)
    requires forall r :: 0 <= r < |rounds| ==> |rounds[r]| == c
    ensures TotalGames(rounds) == |rounds| * c
  {
    if |rounds| > 0 {
      TotalGamesConst(rounds[1..], c);
    }
  }

  /** Every position of round r holds some entry of the field. */
  lemma ArrangementFrom(q: seq<string>, r: nat, k: nat) returns (x: nat)
    requires |q| >= 2 && r < |q| - 1 && k < |q|
    ensures x < |q| && Arrangement(q, r)[k] == q[x]
  {
    x := PositionOnto(k, r, |q| - 1);
    if x == 0 {
      ArrangementFixesFirst(q, r);
    } else {
      ArrangementAt(q, r, x - 1);
    }
  }

  /** The `BYE` stands at position kb of a, and nowhere else; kb >= |a| means it is absent. */
  predicate ByeAt(a: seq<string>, kb: nat) {
    forall k :: 0 <= k < |a| ==> (a[k] == Bye <==> k == kb)
  }

  /** The position loop index whose pair holds position kb (|a| when kb is out of range). */
  function Slot(kb: nat, t: nat): nat
  {
    if kb >= t then t else if kb < t / 2 then kb else t - 1 - kb
  }

  /** How many of the first k positions of a round face no `BYE`. */
  function Facing(kb: nat, t: nat, k: nat): nat
  {
    if Slot(kb, t) < k then k - 1 else k
  }

  /** The first k positions of a round hold g games each, except the one facing the `BYE`. */
  lemma {:induction false} RoundPairsCount(a: seq<string>, k: nat, round: nat, g: nat, kb: nat)
    requires |a| % 2 == 0 && k <= |a| / 2 && ByeAt(a, kb)
    ensures |RoundPairs(a, k, round, g)| == Facing(kb, |a|, k) * g
  {
    if k > 0 {
      var i := k - 1;
      RoundPairsCount(a, i, round, g, kb);
      MeetingCount(a, i, round, g, kb);
      assert RoundPairs(a, k, round, g) == RoundPairs(a, i, round, g) + Meeting(a, i, round, g);
      FacingStep(kb, |a|, i, g);
    }
  }

  lemma FacingStep(kb: nat, t: nat, i: nat, g: nat)
    ensures Facing(kb, t, i + 1) * g == Facing(kb, t, i) * g + (if Slot(kb, t) == i then 0 else g)
  {
    if Slot(kb, t) != i {
      MulSucc(Facing(kb, t, i), g);
    }
  }

  /** Position i holds g games unless its pair holds the `BYE`. */
  lemma MeetingCount(a: seq<string>, i: nat, round: nat, g: nat, kb: nat)
    requires |a| % 2 == 0 && i < |a| / 2 && ByeAt(a, kb)
    ensures |Meeting(a, i, round, g)| == if Slot(kb, |a|) == i then 0 else g
  {
    var t := |a|;
    assert a[i] == Bye <==> i == kb;
    assert a[t - 1 - i] == Bye <==> t - 1 - i == kb;
  }

  lemma MulSucc(x: nat, g: nat)
    ensures (x + 1) * g == x * g + g
  {
  }

  /** The size of every round: |q|/2 pairings, less one when the field was padded. */
  lemma RoundOfCount(ps: seq<string>, r: nat, g: nat)
    requires Distinct(ps) && Bye !in ps && |Padded(ps)| >= 2 && r < |Padded(ps)| - 1
    ensures |RoundOf(Padded(ps), r, g)| == (if |ps| % 2 == 1 then |Padded(ps)| / 2 - 1 else |Padded(ps)| / 2) * g
  {
    var q := Padded(ps);
    var t := |q|;
    var a := Arrangement(q, r);
    var kb := ByeSeat(ps, r);
    RoundPairsCount(a, t / 2, r + 1, g, kb);
    assert RoundOf(q, r, g) == RoundPairs(a, t / 2, r + 1, g);
  }

  /** Where the `BYE` sits in round r: exactly one seat for an odd field, none for an even one. */
  lemma ByeSeat(ps: seq<string>, r: nat) returns (kb: nat)
    requires Distinct(ps) && Bye !in ps && |Padded(ps)| >= 2 && r < |Padded(ps)| - 1
    ensures ByeAt(Arrangement(Padded(ps), r), kb)
    ensures Facing(kb, |Padded(ps)|, |Padded(ps)| / 2) == if |ps| % 2 == 1 then |Padded(ps)| / 2 - 1 else |Padded(ps)| / 2
  {
    var q := Padded(ps);
    var t := |q|;
    var a := Arrangement(q, r);
    PaddedDistinct(ps);
    if |ps| % 2 == 1 {
      kb := PositionOf(t - 1, r, t - 1);
      PaddedAt(ps, t - 1);
      forall k | 0 <= k < t
        ensures a[k] == Bye <==> k == kb
      {
        ArrangementIndex(q, r, k, t - 1);
        var x := ArrangementFrom(q, r, k);
        PaddedAt(ps, x);
        if x < |ps| {
          assert ps[x] in ps;
        }
      }
    } else {
      kb := t;
      forall k | 0 <= k < t
        ensures a[k] != Bye
      {
        var x := ArrangementFrom(q, r, k);
        PaddedAt(ps, x);
        assert ps[x] in ps;
      }
    }
  }

  /** Every pair of distinct participants plays g games: n(n - 1)/2 · g in all. */
  lemma RoundRobinTotal(ps: seq<string>, g: nat)
    requires Distinct(ps) && Bye !in ps
    ensures TotalGames(RoundRobin(ps, g)) == |ps| * (|ps| - 1) / 2 * g
  {
    var n := |ps|;
    var q := Padded(ps);
    var rounds := RoundRobin(ps, g);
    if n == 0 {
      return;
    }
    var c := if n % 2 == 1 then |q| / 2 - 1 else |q| / 2;
    forall r | 0 <= r < |rounds|
      ensures |rounds[r]| == c * g
    {
      RoundOfCount(ps, r, g);
    }
    TotalGamesConst(rounds, c * g);
    HalfProduct(n, |rounds|, c, g);
  }

  /** n - 1 rounds of n/2 pairs (n even), or n rounds of (n - 1)/2 pairs (n odd), make n(n - 1)/2 pairs. */
  lemma HalfProduct(n: nat, rounds: nat, c: nat, g: nat)
    requires n % 2 == 0 ==> n >= 2 && rounds == n - 1 && c == n / 2
    requires n % 2 == 1 ==> rounds == n && c == (n - 1) / 2
    ensures rounds * (c * g) == n * (n - 1) / 2 * g
  {
    var k := HalfOf(n);
    RoundsTimesHalf(n, rounds, c, k);
    Assoc(rounds, c, g);
  }

  lemma RoundsTimesHalf(n: nat, rounds: nat, c: nat, k: nat)
    requires n % 2 == 0 ==> n >= 2 && rounds == n - 1 && c == n / 2
    requires n % 2 == 1 ==> rounds == n && c == (n - 1) / 2
    requires n * (n - 1) == 2 * k
    ensures rounds * c == k
  {
    if n % 2 == 1 {
      Twice(c, n);
    } else {
      Twice(c, n - 1);
    }
  }

  /** n(n - 1) is even. */
  lemma HalfOf(n: nat) returns (k: nat)
    requires n >= 1
    ensures n * (n - 1) == 2 * k && k == n * (n - 1) / 2
  {
    var p := n * (n - 1);
    if n % 2 == 0 {
      var h := n / 2;
      k := h * (n - 1);
      Twice(h, n - 1);
      assert p == (2 * h) * (n - 1);
    } else {
      var h := (n - 1) / 2;
      k := h * n;
      Twice(h, n);
      assert p == (2 * h) * n;
    }
    assert p == 2 * k;
  }

  lemma Twice(k: nat, g: nat)
    ensures (2 * k) * g == 2 * (k * g)
  {
  }

  lemma Assoc(a: nat, b: nat, c: nat)
    ensures a * (b * c) == (a * b) * c
  {
  }
}
