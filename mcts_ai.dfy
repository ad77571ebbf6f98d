/**
 * The Monte Carlo tree searcher: a tree of nodes, each with the board it
 * stands for, the colour to move, its children, its untried moves and its
 * visit and win tallies; an iteration descends by the UCT score while a
 * node is fully expanded, expands one untried move unless the game is
 * over, plays the position out greedily (or at random), and propagates
 * the result back to the root, flipping it at every level.
 *
 * The tree is held as an arena: node i's parent has a smaller index and
 * its children larger ones.  Random choices and the floating-point
 * exploration term sqrt(ln N / n) are supplied by the caller.
 */
module MctsAi {
  import opened Wrappers
  import opened Constants
  import opened Boards
  import opened ExtReals
  import opened BaseAi
  import Seqs
  import Sorting
  import GobangCore

  /** Iterations per level: easy 300, medium 600, hard 1000, expert 2000, anything else 1000. */
  function GetIterations(level: string): (k: nat)
    ensures level == EASY ==> k == 300
    ensures level == MEDIUM ==> k == 600
    ensures level == HARD ==> k == 1000
    ensures level == EXPERT ==> k == 2000
    ensures level !in AiLevels() ==> k == 1000
    ensures 300 <= k <= 2000
  {
    if level == EASY then 300
    else if level == MEDIUM then 600
    else if level == EXPERT then 2000
    else 1000
  }

  /** A node of the tree; parent and children are indices into the arena. */
  datatype Node = Node(board: Board, parent: Option<nat>, move: Option<Pos>, color: int,
                       children: seq<nat>, visits: nat, wins: real, untried: seq<Pos>)

  /** A fresh node: no visits, no wins, no children, every empty cell untried in row-major order. */
  function NewNode(b: Board, n: nat, parent: Option<nat>, move: Option<Pos>, color: int): (v: Node)
    requires IsSquare(b, n)
    ensures v.board == b && v.parent == parent && v.move == move && v.color == color
    ensures v.visits == 0 && v.wins == 0.0 && v.children == []
    ensures forall p :: p in v.untried <==> InBounds(n, p) && At(b, p) == EMPTY
    ensures forall k, l :: 0 <= k < l < |v.untried| ==> RowMajorBefore(v.untried[k], v.untried[l])
  {
    Node(b, parent, move, color, [], 0, 0.0, EmptyCells(b, n))
  }

  /** list.remove(x): drops the first occurrence of x. */
  function RemoveFirst(s: seq<Pos>, x: Pos): (r: seq<Pos>)
    ensures x !in s ==> r == s
  {
    if |s| == 0 then []
    else if s[0] == x then s[1..]
    else [s[0]] + RemoveFirst(s[1..], x)
  }

  /** Exactly one occurrence of a present x goes, and nothing else. */
  lemma {:induction false} RemoveFirstSpec(s: seq<Pos>, x: Pos)
    requires x in s
    ensures multiset(RemoveFirst(s, x)) + multiset{x} == multiset(s)
    ensures |RemoveFirst(s, x)| == |s| - 1
  {
    assert s == [s[0]] + s[1..];
    if s[0] != x {
      RemoveFirstSpec(s[1..], x);
    }
  }

  /** What is left after a removal was in the list. */
  lemma {:induction false} RemoveFirstWithin(s: seq<Pos>, x: Pos)
    ensures forall t :: 0 <= t < |RemoveFirst(s, x)| ==> RemoveFirst(s, x)[t] in s
  {
    if |s| > 0 && s[0] != x {
      RemoveFirstWithin(s[1..], x);
      var r := RemoveFirst(s, x);
      forall t | 0 <= t < |r| ensures r[t] in s {
        if t > 0 {
          assert r[t] == RemoveFirst(s[1..], x)[t - 1];
        }
      }
    }
  }

  /**
   * The UCT score of a child with the given tallies under a parent with
   * parentVisits visits: +infinity while unvisited, otherwise the win rate
   * plus the exploration constant times bonus(parentVisits, visits), which
   * stands for sqrt(ln parentVisits / visits).
   */
  function UctScore(wins: real, visits: nat, parentVisits: nat, c: real, bonus: (nat, nat) -> real): (s: XReal)
    ensures s == PosInf <==> visits == 0
    ensures s != NegInf
  {
    if visits == 0 then PosInf
    else Fin(wins / visits as real + c * bonus(parentVisits, visits))
  }

  /** Python's max over keys: the index of the first greatest key. */
  function FirstMaxX(s: seq<XReal>): (i: nat)
    requires |s| > 0
    ensures i < |s|
  {
    if |s| == 1 then 0
    else
      var j := FirstMaxX(s[..|s| - 1]);
      if Less(s[j], s[|s| - 1]) then |s| - 1 else j
  }

  /** The chosen key is a maximum, and every key before it is strictly smaller. */
  lemma {:induction false} FirstMaxXSpec(s: seq<XReal>)
    requires |s| > 0
    ensures forall k :: 0 <= k < |s| ==> LessEq(s[k], s[FirstMaxX(s)])
    ensures forall k :: 0 <= k < FirstMaxX(s) ==> Less(s[k], s[FirstMaxX(s)])
  {
    if |s| > 1 {
      var t := s[..|s| - 1];
      FirstMaxXSpec(t);
      assert forall k :: 0 <= k < |t| ==> t[k] == s[k];
      var j := FirstMaxX(t);
      forall k | 0 <= k < |s|
        ensures LessEq(s[k], s[FirstMaxX(s)])
        ensures k < FirstMaxX(s) ==> Less(s[k], s[FirstMaxX(s)])
      {
        LessIsStrictTotal(s[k], s[j], s[|s| - 1]);
        LessIsStrictTotal(s[|s| - 1], s[j], s[k]);
        LessIsStrictTotal(s[k], s[|s| - 1], s[j]);
      }
    }
  }

  /** With an unvisited child present, the first unvisited child is the one selected. */
  lemma FirstMaxXPicksFirstInfinity(s: seq<XReal>, i: nat)
    requires i < |s| && s[i] == PosInf && forall k :: 0 <= k < i ==> s[k] != PosInf
    ensures FirstMaxX(s) == i
  {
    FirstMaxXSpec(s);
    var m := FirstMaxX(s);
    assert LessEq(s[i], s[m]);
    assert s[m] == PosInf;
  }

  // ---------------------------------------------------------------------
  // The shape of the tree

  /** Child c of node i: reached by playing i's colour at an empty cell of i's board, the other colour to move. */
  ghost predicate Linked(nodes: seq<Node>, n: nat, i: nat, c: nat)
    requires i < |nodes| && c < |nodes| && IsSquare(nodes[i].board, n)
  {
    var v := nodes[c];
    && v.parent == Some(i)
    && v.move.Some? && InBounds(n, v.move.value) && At(nodes[i].board, v.move.value) == EMPTY
    && v.board == Set(nodes[i].board, v.move.value, nodes[i].color)
    && v.color == OpponentColor(nodes[i].color)
  }

  /**
   * Node i is well formed: its board is square, only the root lacks a
   * parent, a parent comes earlier, its untried moves are empty cells,
   * untried moves and children together account for every empty cell, and
   * its children come later and are linked to it.
   */
  ghost predicate NodeOk(nodes: seq<Node>, n: nat, i: nat)
    requires i < |nodes|
  {
    var v := nodes[i];
    && IsSquare(v.board, n)
    && (i == 0 <==> v.parent.None?)
    && (v.parent.Some? ==> v.parent.value < i)
    && (forall k :: 0 <= k < |v.untried| ==> InBounds(n, v.untried[k]) && At(v.board, v.untried[k]) == EMPTY)
    && |v.untried| + |v.children| == |EmptyCells(v.board, n)|
    && (forall k :: 0 <= k < |v.children| ==> i < v.children[k] < |nodes| && Linked(nodes, n, i, v.children[k]))
  }

  ghost predicate IsTree(nodes: seq<Node>, n: nat)
  {
    |nodes| > 0 && forall i :: 0 <= i < |nodes| ==> NodeOk(nodes, n, i)
  }

  /** A node without its tallies. */
  function Shape(v: Node): Node
  {
    v.(visits := 0, wins := 0.0)
  }

  /** Two arenas that differ at most in the tallies. */
  predicate SameShape(a: seq<Node>, b: seq<Node>)
  {
    |a| == |b| && forall i :: 0 <= i < |a| ==> Shape(a[i]) == Shape(b[i])
  }

  /** The shape of the tree does not depend on the tallies. */
  lemma TreeOfSameShape(a: seq<Node>, b: seq<Node>, n: nat)
    requires IsTree(a, n) && SameShape(a, b)
    ensures IsTree(b, n)
  {
    forall i | 0 <= i < |b| ensures NodeOk(b, n, i) {
      assert NodeOk(a, n, i);
      assert Shape(a[i]) == Shape(b[i]);
      forall k | 0 <= k < |b[i].children| ensures Linked(b, n, i, b[i].children[k]) {
        var c := a[i].children[k];
        assert Linked(a, n, i, c);
        assert Shape(a[c]) == Shape(b[c]);
      }
    }
  }

  // ---------------------------------------------------------------------
  // Expansion

  /**
   * expand(): the move at index k of node i's untried list leaves that
   * list and becomes a new child at the end of the arena, whose board is
   * i's board with i's colour at the move and whose colour is the other
   * one.
   */
  function ExpandNodes(nodes: seq<Node>, n: nat, i: nat, k: nat): (r: seq<Node>)
    requires IsTree(nodes, n) && i < |nodes| && k < |nodes[i].untried|
  {
    var v := nodes[i];
    var m := v.untried[k];
    assert NodeOk(nodes, n, i);
    nodes[i := v.(untried := RemoveFirst(v.untried, m), children := v.children + [|nodes|])]
      + [NewNode(Set(v.board, m, v.color), n, Some(i), Some(m), OpponentColor(v.color))]
  }

  /** The expanded node stays well formed: one untried move fewer, one linked child more. */
  lemma ExpandParentOk(nodes: seq<Node>, n: nat, i: nat, k: nat)
    requires IsTree(nodes, n) && i < |nodes| && k < |nodes[i].untried|
    ensures NodeOk(ExpandNodes(nodes, n, i, k), n, i)
  {
    var r := ExpandNodes(nodes, n, i, k);
    var v := nodes[i];
    var m := v.untried[k];
    assert NodeOk(nodes, n, i);
    RemoveFirstSpec(v.untried, m);
    RemoveFirstWithin(v.untried, m);
    SetKeepsSquare(v.board, n, m, v.color);
    assert r[i].untried == RemoveFirst(v.untried, m);
    forall t | 0 <= t < |r[i].children| ensures i < r[i].children[t] < |r| && Linked(r, n, i, r[i].children[t]) {
      if t < |v.children| {
        var d := v.children[t];
        assert Linked(nodes, n, i, d);
        assert r[d] == nodes[d];
      }
    }
  }

  /** The new child is well formed. */
  lemma ExpandChildOk(nodes: seq<Node>, n: nat, i: nat, k: nat)
    requires IsTree(nodes, n) && i < |nodes| && k < |nodes[i].untried|
    ensures NodeOk(ExpandNodes(nodes, n, i, k), n, |nodes|)
  {
    var v := nodes[i];
    assert NodeOk(nodes, n, i);
    SetKeepsSquare(v.board, n, v.untried[k], v.color);
  }

  /** Every other node stays well formed: its children's links do not involve i's lists. */
  lemma ExpandOtherOk(nodes: seq<Node>, n: nat, i: nat, k: nat, j: nat)
    requires IsTree(nodes, n) && i < |nodes| && k < |nodes[i].untried| && j < |nodes| && j != i
    ensures NodeOk(ExpandNodes(nodes, n, i, k), n, j)
  {
    var r := ExpandNodes(nodes, n, i, k);
    assert NodeOk(nodes, n, j);
    assert r[j] == nodes[j];
    forall t | 0 <= t < |r[j].children| ensures j < r[j].children[t] < |r| && Linked(r, n, j, r[j].children[t]) {
      var d := nodes[j].children[t];
      assert Linked(nodes, n, j, d);
      assert r[d].parent == nodes[d].parent && r[d].move == nodes[d].move;
      assert r[d].board == nodes[d].board && r[d].color == nodes[d].color;
    }
  }

  /**
   * Expansion keeps the tree well formed, removes exactly the chosen move
   * from the untried list, appends exactly one child, and changes nothing
   * else.
   */
  lemma ExpandSpec(nodes: seq<Node>, n: nat, i: nat, k: nat)
    requires IsTree(nodes, n) && i < |nodes| && k < |nodes[i].untried|
    ensures var r := ExpandNodes(nodes, n, i, k);
      && IsTree(r, n) && |r| == |nodes| + 1
      && multiset(r[i].untried) + multiset{nodes[i].untried[k]} == multiset(nodes[i].untried)
      && r[i].children == nodes[i].children + [|nodes|]
      && r[i].board == nodes[i].board && r[i].visits == nodes[i].visits && r[i].parent == nodes[i].parent
      && (forall j :: 0 <= j < |nodes| && j != i ==> r[j] == nodes[j])
      && IsSquare(r[i].board, n) && Linked(r, n, i, |nodes|) && r[|nodes|].visits == 0 && r[|nodes|].children == []
  {
    var r := ExpandNodes(nodes, n, i, k);
    RemoveFirstSpec(nodes[i].untried, nodes[i].untried[k]);
    ExpandParentOk(nodes, n, i, k);
    ExpandChildOk(nodes, n, i, k);
    forall j | 0 <= j < |nodes| && j != i ensures NodeOk(r, n, j) {
      ExpandOtherOk(nodes, n, i, k, j);
    }
    assert NodeOk(r, n, i);
    assert r[i].children[|nodes[i].children|] == |nodes|;
  }

  // ---------------------------------------------------------------------
  // Backpropagation

  /** Parents come before their children. */
  predicate ParentsEarlier(nodes: seq<Node>)
  {
    forall j :: 0 <= j < |nodes| && nodes[j].parent.Some? ==> nodes[j].parent.value < j
  }

  /** Node i and its ancestors, from i up to the root. */
  function PathUp(nodes: seq<Node>, i: nat): (path: seq<nat>)
    requires i < |nodes| && ParentsEarlier(nodes)
    ensures |path| > 0 && path[0] == i
    decreases i
  {
    match nodes[i].parent
    case None => [i]
    case Some(p) => [i] + PathUp(nodes, p)
  }

  /**
   * backpropagate(result) from node i: one more visit and result more wins
   * at i, then the same at its parent with 1 - result, up to the root.
   */
  function Backed(nodes: seq<Node>, i: nat, result: real): (r: seq<Node>)
    requires i < |nodes| && ParentsEarlier(nodes)
    ensures |r| == |nodes|
    decreases i
  {
    var u := nodes[i := nodes[i].(visits := nodes[i].visits + 1, wins := nodes[i].wins + result)];
    assert forall j :: 0 <= j < |u| ==> u[j].parent == nodes[j].parent;
    match nodes[i].parent
    case None => u
    case Some(p) => Backed(u, p, 1.0 - result)
  }

  /**
   * Every node on the path to the root gains one visit, and wins of result
   * at even distance from i and 1 - result at odd distance; every other
   * node keeps its tallies.
   */
  lemma {:induction false} BackedSpec(nodes: seq<Node>, i: nat, result: real)
    requires i < |nodes| && ParentsEarlier(nodes)
    ensures var r := Backed(nodes, i, result); var path := PathUp(nodes, i);
      && (forall d :: 0 <= d < |path| ==>
            && path[d] < |nodes|
            && r[path[d]].visits == nodes[path[d]].visits + 1
            && r[path[d]].wins == nodes[path[d]].wins + Share(d, result))
      && (forall j :: 0 <= j < |nodes| && j !in path ==> r[j] == nodes[j])
    decreases i
  {
    var u := nodes[i := nodes[i].(visits := nodes[i].visits + 1, wins := nodes[i].wins + result)];
    assert SameParents(nodes, u);
    match nodes[i].parent
    case None =>
      assert Backed(nodes, i, result) == u && PathUp(nodes, i) == [i];
    case Some(p) =>
      BackedSpec(u, p, 1.0 - result);
      PathUpOfSameParents(nodes, u, p);
      PathUpBelow(nodes, p);
      var r := Backed(u, p, 1.0 - result);
      assert Backed(nodes, i, result) == r;
      var up := PathUp(nodes, p);
      var path := PathUp(nodes, i);
      assert path == [i] + up;
      assert i !in up;
      forall d | 0 <= d < |path|
        ensures path[d] < |nodes| && r[path[d]].visits == nodes[path[d]].visits + 1
        ensures r[path[d]].wins == nodes[path[d]].wins + Share(d, result)
      {
        if d > 0 {
          assert path[d] == up[d - 1];
          ShareFlips(d, result);
        }
      }
      forall j | 0 <= j < |nodes| && j !in path ensures r[j] == nodes[j] {
        assert j !in up;
      }
  }

  /** The result as seen d levels above the node it was played out from. */
  function Share(d: nat, result: real): real
  {
    if d % 2 == 0 then result else 1.0 - result
  }

  lemma ShareFlips(d: nat, result: real)
    requires d > 0
    ensures Share(d - 1, 1.0 - result) == Share(d, result)
  {
  }

  predicate SameParents(a: seq<Node>, b: seq<Node>)
  {
    |a| == |b| && forall j :: 0 <= j < |a| ==> a[j].parent == b[j].parent
  }

  lemma {:induction false} PathUpOfSameParents(a: seq<Node>, b: seq<Node>, i: nat)
    requires SameParents(a, b) && i < |a| && ParentsEarlier(a)
    ensures ParentsEarlier(b) && PathUp(a, i) == PathUp(b, i)
    decreases i
  {
    if a[i].parent.Some? {
      PathUpOfSameParents(a, b, a[i].parent.value);
    }
  }

  /** Backpropagation touches only the tallies. */
  lemma {:induction false} BackedSameShape(nodes: seq<Node>, i: nat, result: real)
    requires i < |nodes| && ParentsEarlier(nodes)
    ensures SameShape(nodes, Backed(nodes, i, result)) && ParentsEarlier(Backed(nodes, i, result))
    decreases i
  {
    var u := nodes[i := nodes[i].(visits := nodes[i].visits + 1, wins := nodes[i].wins + result)];
    assert SameShape(nodes, u);
    if nodes[i].parent.Some? {
      BackedSameShape(u, nodes[i].parent.value, 1.0 - result);
    }
  }

  lemma {:induction false} PathUpBelow(nodes: seq<Node>, i: nat)
    requires i < |nodes| && ParentsEarlier(nodes)
    ensures forall j :: j in PathUp(nodes, i) ==> j <= i
    decreases i
  {
    if nodes[i].parent.Some? {
      PathUpBelow(nodes, nodes[i].parent.value);
    }
  }

  /** In a tree the path up from any node ends at the root. */
  lemma {:induction false} PathUpReachesRoot(nodes: seq<Node>, n: nat, i: nat)
    requires IsTree(nodes, n) && i < |nodes|
    ensures ParentsEarlier(nodes) && 0 in PathUp(nodes, i)
    decreases i
  {
    TreeParentsEarlier(nodes, n);
    assert NodeOk(nodes, n, i);
    if i != 0 {
      PathUpReachesRoot(nodes, n, nodes[i].parent.value);
    }
  }

  lemma TreeParentsEarlier(nodes: seq<Node>, n: nat)
    requires IsTree(nodes, n)
    ensures ParentsEarlier(nodes)
  {
    forall j | 0 <= j < |nodes| && nodes[j].parent.Some? ensures nodes[j].parent.value < j {
      assert NodeOk(nodes, n, j);
    }
  }

  /** Every backpropagation passes through the root: the root gains exactly one visit. */
  lemma BackedRootVisits(nodes: seq<Node>, n: nat, i: nat, result: real)
    requires IsTree(nodes, n) && i < |nodes|
    ensures ParentsEarlier(nodes)
    ensures IsTree(Backed(nodes, i, result), n)
    ensures Backed(nodes, i, result)[0].visits == nodes[0].visits + 1
  {
    PathUpReachesRoot(nodes, n, i);
    BackedSpec(nodes, i, result);
    BackedSameShape(nodes, i, result);
    TreeOfSameShape(nodes, Backed(nodes, i, result), n);
    var path := PathUp(nodes, i);
    var d :| 0 <= d < |path| && path[d] == 0;
  }

  // ---------------------------------------------------------------------
  // Selection, play-out and one iteration

  /**
   * The searcher's settings: board size, own and opposing colour, whether
   * the native scorer is used, the exploration constant, the exploration
   * term, and the random choice (given a board and a list length, an
   * index; it is taken modulo the length).
   */
  datatype Setup = Setup(n: nat, color: int, opponent: int, useCpp: bool, c: real,
                         bonus: (nat, nat) -> real, choose: (Board, nat) -> nat)

  /** The UCT scores of node i's children, in order. */
  function ChildScores(s: Setup, nodes: seq<Node>, i: nat): (keys: seq<XReal>)
    requires i < |nodes| && forall k :: 0 <= k < |nodes[i].children| ==> nodes[i].children[k] < |nodes|
    ensures |keys| == |nodes[i].children|
  {
    var ch := nodes[i].children;
    seq(|ch|, k requires 0 <= k < |ch| => UctScore(nodes[ch[k]].wins, nodes[ch[k]].visits, nodes[i].visits, s.c, s.bonus))
  }

  /** select(): the first child with the greatest UCT score. */
  function Select(s: Setup, nodes: seq<Node>, i: nat): (c: nat)
    requires IsTree(nodes, s.n) && i < |nodes| && nodes[i].children != []
    ensures c in nodes[i].children && i < c < |nodes|
  {
    assert NodeOk(nodes, s.n, i);
    nodes[i].children[FirstMaxX(ChildScores(s, nodes, i))]
  }

  /**
   * Selection picks a child whose UCT score no other child beats, and an
   * unvisited child whenever there is one (the first of them).
   */
  lemma SelectSpec(s: Setup, nodes: seq<Node>, i: nat)
    requires IsTree(nodes, s.n) && i < |nodes| && nodes[i].children != []
    ensures forall k :: 0 <= k < |nodes[i].children| ==> nodes[i].children[k] < |nodes|
    ensures var keys := ChildScores(s, nodes, i); var ch := nodes[i].children;
      && (forall k :: 0 <= k < |ch| ==> LessEq(keys[k], keys[FirstMaxX(keys)]))
      && ((exists k :: 0 <= k < |ch| && nodes[ch[k]].visits == 0) ==> nodes[Select(s, nodes, i)].visits == 0)
  {
    assert NodeOk(nodes, s.n, i);
    var keys := ChildScores(s, nodes, i);
    var ch := nodes[i].children;
    FirstMaxXSpec(keys);
    if k :| 0 <= k < |ch| && nodes[ch[k]].visits == 0 {
      assert keys[k] == PosInf;
      assert keys[FirstMaxX(keys)] == PosInf;
    }
  }

  /** The descent: from node i, follow the selected child while a node has children and no untried move. */
  function Descend(s: Setup, nodes: seq<Node>, i: nat): (leaf: nat)
    requires IsTree(nodes, s.n) && i < |nodes|
    ensures i <= leaf < |nodes| && (nodes[leaf].children == [] || nodes[leaf].untried != [])
    decreases |nodes| - i
  {
    if nodes[i].children != [] && nodes[i].untried == [] then Descend(s, nodes, Select(s, nodes, i)) else i
  }

  /** Whether the game on b is over for the searcher: either colour has five, or no cell is empty. */
  predicate Terminal(s: Setup, b: Board)
    requires IsSquare(b, s.n)
  {
    IsWin(b, s.n, s.color).0 || IsWin(b, s.n, s.opponent).0 || EmptyCells(b, s.n) == []
  }

  /** One play-out move: the first empty cell with the greatest native move score, or a random one. */
  function RolloutMove(s: Setup, b: Board, c: int, empty: seq<Pos>): (m: Pos)
    requires IsSquare(b, s.n) && empty == EmptyCells(b, s.n) && empty != []
    ensures m in empty
  {
    assert forall k :: 0 <= k < |empty| ==> empty[k] in empty;
    if s.useCpp then empty[Seqs.FirstMaxIndex(GobangCore.MoveScores(b, s.n, empty, c, EvalWeights()))]
    else empty[s.choose(b, |empty|) % |empty|]
  }

  /** Filling an empty cell leaves one empty cell fewer, unless the colour played is EMPTY itself. */
  lemma FillStep(b: Board, n: nat, m: Pos, c: int)
    requires IsSquare(b, n) && InBounds(n, m) && At(b, m) == EMPTY
    ensures IsSquare(Set(b, m, c), n)
    ensures c != EMPTY ==> CountColor(Set(b, m, c), EMPTY) < CountColor(b, EMPTY)
    ensures c == EMPTY ==> CountColor(Set(b, m, c), EMPTY) == CountColor(b, EMPTY)
  {
    CountColorSet(b, m, c);
  }

  /**
   * _simulate: 1.0 once the searcher has five, 0.0 once the opponent has,
   * 0.5 on a full board, and otherwise the play-out continues after the
   * colour to move fills one empty cell.
   */
  function Rollout(s: Setup, b: Board, c: int): real
    requires IsSquare(b, s.n)
    decreases CountColor(b, EMPTY), if c == EMPTY then 1 else 0
  {
    if IsWin(b, s.n, s.color).0 then 1.0
    else if IsWin(b, s.n, s.opponent).0 then 0.0
    else
      var empty := EmptyCells(b, s.n);
      if empty == [] then 0.5
      else
        var m := RolloutMove(s, b, c, empty);
        FillStep(b, s.n, m, c);
        Rollout(s, Set(b, m, c), OpponentColor(c))
  }

  /** A play-out ends in a win, a loss or a draw. */
  lemma {:induction false} RolloutOutcome(s: Setup, b: Board, c: int)
    requires IsSquare(b, s.n)
    ensures Rollout(s, b, c) in {0.0, 0.5, 1.0}
    ensures Rollout(s, b, c) == 1.0 <== IsWin(b, s.n, s.color).0
    decreases CountColor(b, EMPTY), if c == EMPTY then 1 else 0
  {
    if !IsWin(b, s.n, s.color).0 && !IsWin(b, s.n, s.opponent).0 && EmptyCells(b, s.n) != [] {
      var m := RolloutMove(s, b, c, EmptyCells(b, s.n));
      FillStep(b, s.n, m, c);
      RolloutOutcome(s, Set(b, m, c), OpponentColor(c));
    }
  }

  /**
   * _mcts_iteration: descend from the root, expand the leaf by its random
   * untried move unless its game is over, play the node reached out, and
   * propagate the result from it.
   */
  function Iterate(s: Setup, nodes: seq<Node>): (r: seq<Node>)
    requires IsTree(nodes, s.n)
  {
    var leaf := Descend(s, nodes, 0);
    var v := nodes[leaf];
    assert NodeOk(nodes, s.n, leaf);
    TreeParentsEarlier(nodes, s.n);
    if !Terminal(s, v.board) then
      var k := s.choose(v.board, |v.untried|) % |v.untried|;
      ExpandSpec(nodes, s.n, leaf, k);
      var grown := ExpandNodes(nodes, s.n, leaf, k);
      TreeParentsEarlier(grown, s.n);
      var child := grown[|nodes|];
      assert NodeOk(grown, s.n, |nodes|);
      Backed(grown, |nodes|, Rollout(s, child.board, child.color))
    else
      Backed(nodes, leaf, Rollout(s, v.board, v.color))
  }

  /**
   * An iteration keeps the tree well formed, adds one visit at the root,
   * keeps the root's board and children, and gives a childless root a
   * child exactly when its game is not over.
   */
  lemma IterateSpec(s: Setup, nodes: seq<Node>)
    requires IsTree(nodes, s.n)
    ensures var r := Iterate(s, nodes);
      && IsTree(r, s.n) && |r| >= |nodes|
      && r[0].visits == nodes[0].visits + 1 && r[0].board == nodes[0].board
      && |r[0].children| >= |nodes[0].children| && IsSquare(nodes[0].board, s.n)
      && (nodes[0].children == [] ==> (r[0].children == [] <==> Terminal(s, nodes[0].board)))
  {
    var leaf := Descend(s, nodes, 0);
    assert NodeOk(nodes, s.n, leaf) && NodeOk(nodes, s.n, 0);
    assert nodes[0].children == [] ==> leaf == 0;
    if Terminal(s, nodes[leaf].board) {
      IterateStays(s, nodes, leaf);
    } else {
      IterateGrows(s, nodes, leaf);
    }
  }

  /** A leaf whose game is over is only played out and propagated from. */
  lemma IterateStays(s: Setup, nodes: seq<Node>, leaf: nat)
    requires IsTree(nodes, s.n) && leaf == Descend(s, nodes, 0)
    requires NodeOk(nodes, s.n, leaf) && Terminal(s, nodes[leaf].board)
    ensures var r := Iterate(s, nodes);
      && IsTree(r, s.n) && |r| == |nodes| && r[0].visits == nodes[0].visits + 1 && Shape(r[0]) == Shape(nodes[0])
  {
    var v := nodes[leaf];
    TreeParentsEarlier(nodes, s.n);
    var result := Rollout(s, v.board, v.color);
    assert Iterate(s, nodes) == Backed(nodes, leaf, result);
    BackedRootVisits(nodes, s.n, leaf, result);
    BackedSameShape(nodes, leaf, result);
  }

  /** A leaf whose game goes on gets its random untried move as a new child, which is played out. */
  lemma IterateGrows(s: Setup, nodes: seq<Node>, leaf: nat)
    requires IsTree(nodes, s.n) && leaf == Descend(s, nodes, 0)
    requires NodeOk(nodes, s.n, leaf) && !Terminal(s, nodes[leaf].board)
    ensures var r := Iterate(s, nodes);
      && IsTree(r, s.n) && |r| == |nodes| + 1 && r[0].visits == nodes[0].visits + 1
      && r[0].board == nodes[0].board && |r[0].children| >= |nodes[0].children|
      && (leaf == 0 ==> r[0].children != [])
  {
    var v := nodes[leaf];
    TreeParentsEarlier(nodes, s.n);
    var k := s.choose(v.board, |v.untried|) % |v.untried|;
    ExpandSpec(nodes, s.n, leaf, k);
    var grown := ExpandNodes(nodes, s.n, leaf, k);
    TreeParentsEarlier(grown, s.n);
    var child := grown[|nodes|];
    assert NodeOk(grown, s.n, |nodes|);
    var result := Rollout(s, child.board, child.color);
    assert Iterate(s, nodes) == Backed(grown, |nodes|, result);
    BackedRootVisits(grown, s.n, |nodes|, result);
    BackedSameShape(grown, |nodes|, result);
    assert Shape(Iterate(s, nodes)[0]) == Shape(grown[0]);
  }

  /** k iterations one after another. */
  function IterateTimes(s: Setup, nodes: seq<Node>, k: nat): (r: seq<Node>)
    requires IsTree(nodes, s.n)
    ensures IsTree(r, s.n)
  {
    if k == 0 then nodes
    else
      var before := IterateTimes(s, nodes, k - 1);
      IterateSpec(s, before);
      Iterate(s, before)
  }

  /**
   * k iterations add k visits at the root and keep its board; from a
   * childless root, at least one iteration leaves the root childless
   * exactly when its game is over.
   */
  lemma {:induction false} IterateTimesSpec(s: Setup, nodes: seq<Node>, k: nat)
    requires IsTree(nodes, s.n)
    ensures var r := IterateTimes(s, nodes, k);
      && r[0].visits == nodes[0].visits + k && r[0].board == nodes[0].board
      && |r[0].children| >= |nodes[0].children| && IsSquare(nodes[0].board, s.n)
      && (k > 0 && nodes[0].children == [] ==> (r[0].children == [] <==> Terminal(s, nodes[0].board)))
  {
    assert NodeOk(nodes, s.n, 0);
    if k > 0 {
      var before := IterateTimes(s, nodes, k - 1);
      IterateTimesSpec(s, nodes, k - 1);
      IterateSpec(s, before);
      var r := Iterate(s, before);
      assert IterateTimes(s, nodes, k) == r;
      if nodes[0].children == [] {
        if k == 1 {
          assert before == nodes;
        } else if before[0].children == [] {
          assert r[0].children == [] <==> Terminal(s, nodes[0].board);
        } else {
          assert r[0].children != [] && !Terminal(s, nodes[0].board);
        }
      }
    }
  }

  // ---------------------------------------------------------------------
  // Reading the result off the tree

  /** The visit counts of the given nodes. */
  function VisitCounts(nodes: seq<Node>, ch: seq<nat>): (vs: seq<real>)
    requires forall k :: 0 <= k < |ch| ==> ch[k] < |nodes|
    ensures |vs| == |ch|
  {
    seq(|ch|, k requires 0 <= k < |ch| => nodes[ch[k]].visits as real)
  }

  /** max(root.children, key=visits): the first most visited child of the root, or None when there is no child. */
  function MostVisited(nodes: seq<Node>): (best: Option<nat>)
    requires |nodes| > 0 && forall k :: 0 <= k < |nodes[0].children| ==> nodes[0].children[k] < |nodes|
    ensures best.None? <==> nodes[0].children == []
    ensures best.Some? ==> best.value in nodes[0].children
  {
    var ch := nodes[0].children;
    if ch == [] then None else Some(ch[Seqs.FirstMaxIndex(VisitCounts(nodes, ch))])
  }

  /** No child of the root has more visits than the chosen one, and every child before it has fewer. */
  lemma MostVisitedSpec(nodes: seq<Node>)
    requires |nodes| > 0 && forall k :: 0 <= k < |nodes[0].children| ==> nodes[0].children[k] < |nodes|
    requires nodes[0].children != []
    ensures var ch := nodes[0].children; var i := Seqs.FirstMaxIndex(VisitCounts(nodes, ch));
      && MostVisited(nodes) == Some(ch[i])
      && (forall k :: 0 <= k < |ch| ==> nodes[ch[k]].visits <= nodes[ch[i]].visits)
      && (forall k :: 0 <= k < i ==> nodes[ch[k]].visits < nodes[ch[i]].visits)
  {
    var ch := nodes[0].children;
    var vs := VisitCounts(nodes, ch);
    Seqs.FirstMaxIndexSpec(vs);
    assert forall k :: 0 <= k < |ch| ==> vs[k] == nodes[ch[k]].visits as real;
  }

  /** _get_node_depth: the number of first-child steps from node i down to a childless node. */
  function FirstChildDepth(nodes: seq<Node>, n: nat, i: nat): (d: nat)
    requires IsTree(nodes, n) && i < |nodes|
    decreases |nodes| - i
  {
    assert NodeOk(nodes, n, i);
    if nodes[i].children == [] then 0 else 1 + FirstChildDepth(nodes, n, nodes[i].children[0])
  }

  /** Each step goes to a later node, so the depth is below the number of nodes after i. */
  lemma {:induction false} FirstChildDepthBound(nodes: seq<Node>, n: nat, i: nat)
    requires IsTree(nodes, n) && i < |nodes|
    ensures FirstChildDepth(nodes, n, i) < |nodes| - i
    decreases |nodes| - i
  {
    assert NodeOk(nodes, n, i);
    if nodes[i].children != [] {
      FirstChildDepthBound(nodes, n, nodes[i].children[0]);
    }
  }

  /** np.zeros((n, n)). */
  function Zeros(n: nat): (g: seq<seq<real>>)
    ensures |g| == n && forall i :: 0 <= i < n ==> |g[i]| == n
  {
    seq(n, i => seq(n, j => 0.0))
  }

  /** The children whose moves are in bounds. */
  predicate MovesInBounds(nodes: seq<Node>, n: nat, kids: seq<nat>)
  {
    forall k :: 0 <= k < |kids| ==> kids[k] < |nodes| && nodes[kids[k]].move.Some? && InBounds(n, nodes[kids[k]].move.value)
  }

  /** The share of visits, in percent, of the listed children written at their moves, in order. */
  function VisitShares(n: nat, nodes: seq<Node>, kids: seq<nat>, total: nat): (g: seq<seq<real>>)
    requires total > 0 && MovesInBounds(nodes, n, kids)
    ensures |g| == n && forall i :: 0 <= i < n ==> |g[i]| == n
  {
    if kids == [] then Zeros(n)
    else
      var g := VisitShares(n, nodes, kids[..|kids| - 1], total);
      var last := nodes[kids[|kids| - 1]];
      var (x, y) := last.move.value;
      g[x := g[x][y := last.visits as real / total as real * 100.0]]
  }

  /** A cell that is no listed child's move stays 0. */
  lemma {:induction false} VisitSharesElsewhere(n: nat, nodes: seq<Node>, kids: seq<nat>, total: nat, p: Pos)
    requires total > 0 && MovesInBounds(nodes, n, kids) && InBounds(n, p)
    requires forall k :: 0 <= k < |kids| ==> nodes[kids[k]].move.value != p
    ensures VisitShares(n, nodes, kids, total)[p.0][p.1] == 0.0
  {
    if kids != [] {
      VisitSharesElsewhere(n, nodes, kids[..|kids| - 1], total, p);
    }
  }

  /** The moves of the given nodes. */
  function MovesOf(nodes: seq<Node>, kids: seq<nat>): (ms: seq<Pos>)
    requires forall k :: 0 <= k < |kids| ==> kids[k] < |nodes| && nodes[kids[k]].move.Some?
    ensures |ms| == |kids|
  {
    seq(|kids|, k requires 0 <= k < |kids| => nodes[kids[k]].move.value)
  }

  /** What a thinking notification of this searcher carries. */
  datatype MctsThinking = MctsThinking(scores: seq<seq<real>>, bestMove: Pos, consideringMoves: seq<Pos>,
                                       depth: nat, iteration: nat, totalIterations: nat)

  /** The data move() announces first. */
  function InitialData(n: nat, iterations: nat): MctsThinking
  {
    MctsThinking(Zeros(n), (n / 2, n / 2), [], 0, 0, iterations)
  }

  /**
   * The data move() announces after the iterations: the visit shares of
   * the first ten children of the root, the chosen move, the moves of the
   * first five children, the first-child depth and the iteration count.
   */
  function FinalData(n: nat, nodes: seq<Node>, best: Pos, iterations: nat): MctsThinking
    requires IsTree(nodes, n) && nodes[0].visits > 0
  {
    assert NodeOk(nodes, n, 0);
    var ch := nodes[0].children;
    assert forall k :: 0 <= k < |ch| ==> Linked(nodes, n, 0, ch[k]);
    MctsThinking(VisitShares(n, nodes, Sorting.Take(ch, 10), nodes[0].visits), best,
                 MovesOf(nodes, Sorting.Take(ch, 5)), FirstChildDepth(nodes, n, 0), iterations, iterations)
  }

  /** The move of the first most visited child of the root, or None when the root has no child. */
  function BestMove(nodes: seq<Node>, n: nat): (m: Option<Pos>)
    requires IsTree(nodes, n)
    ensures m.None? <==> nodes[0].children == []
    ensures m.Some? ==> InBounds(n, m.value) && At(nodes[0].board, m.value) == EMPTY
  {
    assert NodeOk(nodes, n, 0);
    match MostVisited(nodes)
    case None => None
    case Some(c) =>
      assert Linked(nodes, n, 0, c);
      nodes[c].move
  }

  // ---------------------------------------------------------------------
  // The tree object

  /** The nodes of one search, the root at index 0. */
  class SearchTree {
    const n: nat
    var nodes: seq<Node>

    ghost predicate Valid()
      reads this
    {
      IsTree(nodes, n)
    }

    /** MCTSNode(board, color=color): a lone root. */
    constructor (b: Board, n: nat, color: int)
      requires IsSquare(b, n)
      ensures this.n == n && nodes == [NewNode(b, n, None, None, color)] && Valid()
    {
      this.n := n;
      var empties := CollectEmpty(b, n);
      nodes := [Node(b, None, None, color, [], 0, 0.0, empties)];
    }

    /**
     * expand() at node i with the random pick k: the move leaves the
     * untried list, and a fresh child for the board with the move played
     * by i's colour is appended and linked.
     */
    method Expand(i: nat, k: nat) returns (c: nat)
      requires Valid() && i < |nodes| && k < |nodes[i].untried|
      modifies this`nodes
      ensures Valid() && nodes == ExpandNodes(old(nodes), n, i, k) && c == |old(nodes)|
    {
      ExpandSpec(nodes, n, i, k);
      assert NodeOk(nodes, n, i);
      var v := nodes[i];
      var m := v.untried[k];
      var newBoard := v.board[m.0 := v.board[m.0][m.1 := v.color]];
      var next := if v.color == BLACK then WHITE else BLACK;
      SetKeepsSquare(v.board, n, m, v.color);
      var empties := CollectEmpty(newBoard, n);
      c := |nodes|;
      nodes := nodes[i := v.(untried := RemoveFirst(v.untried, m), children := v.children + [c])]
               + [Node(newBoard, Some(i), Some(m), next, [], 0, 0.0, empties)];
    }

    /** backpropagate(result) from node i: its tallies, then its parent's with 1 - result. */
    method Backpropagate(i: nat, result: real)
      requires i < |nodes| && ParentsEarlier(nodes)
      modifies this`nodes
      ensures nodes == Backed(old(nodes), i, result)
      decreases i
    {
      var v := nodes[i];
      nodes := nodes[i := v.(visits := v.visits + 1, wins := v.wins + result)];
      if v.parent.Some? {
        assert SameParents(old(nodes), nodes);
        PathUpOfSameParents(old(nodes), nodes, i);
        Backpropagate(v.parent.value, 1.0 - result);
      }
    }
  }

  // ---------------------------------------------------------------------
  // The searcher

  class MCTSAI {
    const color: int
    const opponentColor: int
    const level: string
    const boardSize: nat
    const useCpp: bool
    const iterations: nat
    const explorationConstant: real
    const parallelWorkers: int
    /** sqrt(ln N / n) for a parent with N visits and a child with n. */
    const bonus: (nat, nat) -> real
    /** random.choice: given a board and a list length, the index drawn (modulo the length). */
    const choose: (Board, nat) -> nat
    var thinkingCallback: Option<nat>
    /** The notifications delivered so far, in order. */
    var notified: seq<Notification<MctsThinking>>

    ghost predicate Valid()
      reads this
    {
      300 <= iterations <= 2000
    }

    function Cfg(): Setup
    {
      Setup(boardSize, color, opponentColor, useCpp, explorationConstant, bonus, choose)
    }

    /** A searcher for colour color at the given level; the worker count comes from the configuration. */
    constructor (color: int, level: string, useCpp: bool, boardSize: nat, parallelWorkers: int,
                 bonus: (nat, nat) -> real, choose: (Board, nat) -> nat)
      ensures Valid()
      ensures this.color == color && this.level == level && this.useCpp == useCpp && this.boardSize == boardSize
      ensures opponentColor == OpponentColor(color) && iterations == GetIterations(level)
      ensures explorationConstant == 1.414 && this.parallelWorkers == parallelWorkers
      ensures this.bonus == bonus && this.choose == choose
      ensures thinkingCallback == None && notified == []
    {
      this.color := color;
      this.opponentColor := OpponentColor(color);
      this.level := level;
      this.boardSize := boardSize;
      this.useCpp := useCpp;
      this.iterations := GetIterations(level);
      this.explorationConstant := 1.414;
      this.parallelWorkers := parallelWorkers;
      this.bonus := bonus;
      this.choose := choose;
      thinkingCallback := None;
      notified := [];
    }

    method Notify(data: MctsThinking)
      modifies this`notified
      ensures notified == old(notified) + NotifyThinking(thinkingCallback, data)
    {
      if thinkingCallback.Some? {
        notified := notified + [Notification(thinkingCallback.value, data)];
      }
    }

    /** The native move score of each empty cell for colour c, in order. */
    method RolloutScores(b: Board, empty: seq<Pos>, c: int) returns (scores: seq<real>)
      requires IsSquare(b, boardSize) && forall k :: 0 <= k < |empty| ==> InBounds(boardSize, empty[k])
      ensures scores == GobangCore.MoveScores(b, boardSize, empty, c, EvalWeights())
    {
      scores := [];
      for k := 0 to |empty|
        invariant |scores| == k
        invariant forall j :: 0 <= j < k ==> scores[j] == GobangCore.MoveScore(b, boardSize, empty[j], c, EvalWeights()) as real
      {
        var score := GobangCore.EvaluateMove(b, boardSize, empty[k].0, empty[k].1, c, EvalWeights());
        scores := scores + [score as real];
      }
      forall j | 0 <= j < |empty| ensures scores[j] == GobangCore.MoveScores(b, boardSize, empty, c, EvalWeights())[j] {
        GobangCore.MoveScoresAt(b, boardSize, empty, c, EvalWeights(), j);
      }
    }

    /** _simulate: the play-out loop on a copy of the board. */
    method Simulate(b: Board, c: int) returns (r: real)
      requires IsSquare(b, boardSize)
      ensures r == Rollout(Cfg(), b, c)
    {
      var temp := b;
      var current := c;
      while true
        invariant IsSquare(temp, boardSize) && Rollout(Cfg(), temp, current) == Rollout(Cfg(), b, c)
        decreases CountColor(temp, EMPTY), if current == EMPTY then 1 else 0
      {
        if IsWin(temp, boardSize, color).0 {
          return 1.0;
        }
        if IsWin(temp, boardSize, opponentColor).0 {
          return 0.0;
        }
        var empties := CollectEmpty(temp, boardSize);
        if empties == [] {
          return 0.5;
        }
        assert forall k :: 0 <= k < |empties| ==> empties[k] in empties;
        var m: Pos;
        if useCpp {
          var scores := RolloutScores(temp, empties, current);
          m := empties[Seqs.FirstMaxIndex(scores)];
        } else {
          m := empties[choose(temp, |empties|) % |empties|];
        }
        assert m == RolloutMove(Cfg(), temp, current, empties);
        FillStep(temp, boardSize, m, current);
        temp := temp[m.0 := temp[m.0][m.1 := current]];
        current := if current == BLACK then WHITE else BLACK;
      }
    }

    /** _mcts_iteration on the given tree. */
    method Iteration(tree: SearchTree)
      requires tree.Valid() && tree.n == boardSize
      modifies tree
      ensures tree.Valid() && tree.nodes == Iterate(Cfg(), old(tree.nodes))
    {
      IterateSpec(Cfg(), tree.nodes);
      var node := 0;
      while tree.nodes[node].children != [] && tree.nodes[node].untried == []
        invariant node < |tree.nodes| && Descend(Cfg(), tree.nodes, node) == Descend(Cfg(), tree.nodes, 0)
        decreases |tree.nodes| - node
      {
        node := Select(Cfg(), tree.nodes, node);
      }
      assert NodeOk(tree.nodes, boardSize, node);
      var v := tree.nodes[node];
      var empties := CollectEmpty(v.board, boardSize);
      if !IsWin(v.board, boardSize, color).0 && !IsWin(v.board, boardSize, opponentColor).0 && empties != [] {
        var k := choose(v.board, |v.untried|) % |v.untried|;
        node := tree.Expand(node, k);
      }
      assert NodeOk(tree.nodes, boardSize, node);
      var leaf := tree.nodes[node];
      var result := Simulate(leaf.board, leaf.color);
      TreeParentsEarlier(tree.nodes, boardSize);
      tree.Backpropagate(node, result);
    }

    /**
     * _parallel_iterations: k iterations on the shared tree, run one after
     * another.  The ParallelWorker the source hands them to is not defined
     * anywhere, so the workers are not modelled.
     */
    method ParallelIterations(tree: SearchTree, k: nat)
      requires tree.Valid() && tree.n == boardSize
      modifies tree
      ensures tree.Valid() && tree.nodes == IterateTimes(Cfg(), old(tree.nodes), k)
    {
      for j := 0 to k
        invariant tree.Valid() && tree.n == boardSize && tree.nodes == IterateTimes(Cfg(), old(tree.nodes), j)
      {
        Iteration(tree);
      }
    }

    /** _get_node_depth from node i. */
    method NodeDepth(tree: SearchTree, i: nat) returns (depth: nat)
      requires tree.Valid() && i < |tree.nodes|
      ensures depth == FirstChildDepth(tree.nodes, tree.n, i)
    {
      depth := 0;
      var current := i;
      while tree.nodes[current].children != []
        invariant current < |tree.nodes|
        invariant depth + FirstChildDepth(tree.nodes, tree.n, current) == FirstChildDepth(tree.nodes, tree.n, i)
        decreases |tree.nodes| - current
      {
        assert NodeOk(tree.nodes, tree.n, current);
        current := tree.nodes[current].children[0];
        depth := depth + 1;
      }
    }

    /** The score grid of move(): the visit share of each of the first ten children of the root. */
    method ShareGrid(tree: SearchTree) returns (grid: seq<seq<real>>)
      requires tree.Valid() && tree.n == boardSize && tree.nodes[0].visits > 0
      ensures MovesInBounds(tree.nodes, boardSize, Sorting.Take(tree.nodes[0].children, 10))
      ensures grid == VisitShares(boardSize, tree.nodes, Sorting.Take(tree.nodes[0].children, 10), tree.nodes[0].visits)
    {
      var nodes := tree.nodes;
      assert NodeOk(nodes, boardSize, 0);
      var kids := Sorting.Take(nodes[0].children, 10);
      assert forall k :: 0 <= k < |kids| ==> Linked(nodes, boardSize, 0, kids[k]);
      grid := Zeros(boardSize);
      for j := 0 to |kids|
        invariant grid == VisitShares(boardSize, nodes, kids[..j], nodes[0].visits)
      {
        assert kids[..j + 1][..j] == kids[..j];
        var child := nodes[kids[j]];
        var (x, y) := child.move.value;
        grid := grid[x := grid[x][y := child.visits as real / nodes[0].visits as real * 100.0]];
      }
      assert kids[..|kids|] == kids;
    }

    /** The start of move(): take the callback and announce the initial data. */
    method BeginMove(callback: Option<nat>) returns (d: MctsThinking)
      modifies this`thinkingCallback, this`notified
      ensures thinkingCallback == callback && d == InitialData(boardSize, iterations)
      ensures notified == old(notified) + NotifyThinking(callback, d)
    {
      thinkingCallback := callback;
      d := MctsThinking(Zeros(boardSize), (boardSize / 2, boardSize / 2), [], 0, 0, iterations);
      Notify(d);
    }

    /** The iterations of move() on a fresh root for b. */
    method Grow(b: Board) returns (root: SearchTree)
      requires Valid() && IsSquare(b, boardSize)
      ensures fresh(root) && root.Valid() && root.n == boardSize
      ensures root.nodes == IterateTimes(Cfg(), [NewNode(b, boardSize, None, None, color)], iterations)
      ensures root.nodes[0].board == b && root.nodes[0].visits == iterations
      ensures root.nodes[0].children == [] <==> Terminal(Cfg(), b)
    {
      root := new SearchTree(b, boardSize, color);
      ghost var start := root.nodes;
      ParallelIterations(root, iterations);
      IterateTimesSpec(Cfg(), start, iterations);
    }

    /** The end of move() after the iterations: the first most visited child's move and the final announcement. */
    method Report(root: SearchTree) returns (best: Pos)
      requires root.Valid() && root.n == boardSize && root.nodes[0].children != [] && root.nodes[0].visits > 0
      modifies this`notified
      ensures BestMove(root.nodes, boardSize) == Some(best)
      ensures notified == old(notified) + NotifyThinking(thinkingCallback, FinalData(boardSize, root.nodes, best, iterations))
    {
      var nodes := root.nodes;
      assert NodeOk(nodes, boardSize, 0);
      var children := nodes[0].children;
      var bestNode := MostVisited(nodes).value;
      assert Linked(nodes, boardSize, 0, bestNode);
      best := nodes[bestNode].move.value;
      var grid := ShareGrid(root);
      var depth := NodeDepth(root, 0);
      Notify(MctsThinking(grid, best, MovesOf(nodes, Sorting.Take(children, 5)), depth, iterations, iterations));
    }

    /**
     * The search part of move().  None stands for the error max() raises
     * when the root has no child, which happens exactly when the game on b
     * is already over.
     */
    method SearchAndReport(b: Board) returns (r: Option<Pos>, ghost tree: seq<Node>)
      requires Valid() && IsSquare(b, boardSize)
      modifies this`notified
      ensures IsTree(tree, boardSize) && tree == IterateTimes(Cfg(), [NewNode(b, boardSize, None, None, color)], iterations)
      ensures tree[0].board == b && tree[0].visits == iterations
      ensures r == BestMove(tree, boardSize)
      ensures r.None? <==> Terminal(Cfg(), b)
      ensures r.Some? ==> InBounds(boardSize, r.value) && At(b, r.value) == EMPTY
      ensures r.None? ==> notified == old(notified)
      ensures r.Some? ==> notified == old(notified) + NotifyThinking(thinkingCallback, FinalData(boardSize, tree, r.value, iterations))
    {
      var root := Grow(b);
      tree := root.nodes;
      if root.nodes[0].children == [] {
        return None, tree;
      }
      var best := Report(root);
      r := Some(best);
    }

    /**
     * move() as written: with the native core it returns whatever
     * find_winning_move answers, because the answer is a pair and a pair
     * is always true in a test; (-1, -1), the native "no winning move",
     * comes back as the move, as it does on the empty board.
     */
    method Move(b: Board, callback: Option<nat>) returns (r: Option<Pos>, ghost tree: seq<Node>)
      requires Valid() && IsSquare(b, boardSize)
      modifies this`thinkingCallback, this`notified
      ensures thinkingCallback == callback
      ensures useCpp ==> r.Some? && (r.value == (-1, -1) <==> forall p :: InBounds(boardSize, p) ==> !GobangCore.WinsAt(b, boardSize, p, color))
      ensures useCpp && r.Some? && r.value != (-1, -1) ==> GobangCore.WinsAt(b, boardSize, r.value, color)
      ensures useCpp && b == EmptyBoard(boardSize) ==> r == Some((-1, -1))
      ensures useCpp ==> notified == old(notified) + NotifyThinking(callback, InitialData(boardSize, iterations))
                                    + NotifyThinking(callback, InitialData(boardSize, iterations).(bestMove := r.value))
      ensures !useCpp ==> IsTree(tree, boardSize) && tree == IterateTimes(Cfg(), [NewNode(b, boardSize, None, None, color)], iterations)
      ensures !useCpp ==> r == BestMove(tree, boardSize) && (r.None? <==> Terminal(Cfg(), b))
      ensures !useCpp && r.None? ==> notified == old(notified) + NotifyThinking(callback, InitialData(boardSize, iterations))
      ensures !useCpp && r.Some? ==> tree[0].visits > 0 && notified == old(notified) + NotifyThinking(callback, InitialData(boardSize, iterations))
                                                         + NotifyThinking(callback, FinalData(boardSize, tree, r.value, iterations))
    {
      var d := BeginMove(callback);
      tree := [];
      if useCpp {
        var winning := GobangCore.FindWinningMove(b, boardSize, color);
        GobangCore.NoWinOnEmptyBoard(boardSize, color);
        Notify(d.(bestMove := winning));
        return Some(winning), tree;
      }
      r, tree := SearchAndReport(b);
    }

    /**
     * move() as evidently intended: a native answer of (-1, -1) means no
     * immediate win, and the search runs.  The move is then an immediate
     * win when one exists (the first in row-major order), and otherwise
     * the move of the first most visited child of the root; either way an
     * empty cell of the board.
     */
    method MoveIntended(b: Board, callback: Option<nat>) returns (r: Option<Pos>, ghost tree: seq<Node>)
      requires Valid() && IsSquare(b, boardSize)
      modifies this`thinkingCallback, this`notified
      ensures thinkingCallback == callback
      ensures r.Some? ==> InBounds(boardSize, r.value) && At(b, r.value) == EMPTY
      ensures useCpp && (exists p :: InBounds(boardSize, p) && GobangCore.WinsAt(b, boardSize, p, color)) ==>
        && r.Some? && GobangCore.WinsAt(b, boardSize, r.value, color)
        && (forall p :: InBounds(boardSize, p) && RowMajorBefore(p, r.value) ==> !GobangCore.WinsAt(b, boardSize, p, color))
        && notified == old(notified) + NotifyThinking(callback, InitialData(boardSize, iterations))
                       + NotifyThinking(callback, InitialData(boardSize, iterations).(bestMove := r.value))
      ensures (!useCpp || forall p :: InBounds(boardSize, p) ==> !GobangCore.WinsAt(b, boardSize, p, color)) ==>
        && IsTree(tree, boardSize) && tree == IterateTimes(Cfg(), [NewNode(b, boardSize, None, None, color)], iterations)
        && r == BestMove(tree, boardSize) && (r.None? <==> Terminal(Cfg(), b))
    {
      var d := BeginMove(callback);
      tree := [];
      if useCpp {
        var winning := GobangCore.FindWinningMove(b, boardSize, color);
        if winning != (-1, -1) {
          Notify(d.(bestMove := winning));
          return Some(winning), tree;
        }
      }
      r, tree := SearchAndReport(b);
    }
  }
}
